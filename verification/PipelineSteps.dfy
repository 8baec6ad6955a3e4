/** Every step of every request keeps what PipelineInvariant.dfy says. */
module PipelineSteps {
  import opened Prelude
  import opened Outcomes
  import opened Pipeline
  import opened PipelineInvariant
  import L = Limits
  import G = LimitsLedger
  import Q = Queue

  // ---- steps of the record alone ----

  lemma ArriveKeeps(w: World, kind: Kind, stream: bool, lim: L.KeyLimits)
    requires Owned(w)
    ensures Owned(Do(w, Arrive(kind, stream), lim))
  {
    NewcomerKeeps(w, Arrived(kind, stream));
  }

  lemma NewcomerKeeps(w: World, q: Request)
    requires Owned(w) && Taken(q) && q.stage == New && q.ticket.None? && !q.slot
    ensures Owned(w.(reqs := w.reqs + [q]))
  {
    BodiesAppend(w.reqs, q);
    NewcomerLimiter(w, q);
    NewcomerTickets(w.reqs, w.tickets, w.queue.phase, w.queue.next, q);
  }

  lemma NewcomerAdmits(reqs: seq<Request>, admits: seq<nat>, hist: seq<G.Past>, last: nat, q: Request)
    requires AdmitsOwned(reqs, admits, hist, last) && q.adm.None?
    ensures AdmitsOwned(reqs + [q], admits, hist, last)
  {
    forall n | 0 <= n < |admits| ensures (reqs + [q])[admits[n]] == reqs[admits[n]] {
    }
  }

  lemma NewcomerLive(reqs: seq<Request>, admits: seq<nat>, live: seq<L.Admission>, q: Request)
    requires LiveOwned(reqs, admits, live) && q.adm.None?
    ensures LiveOwned(reqs + [q], admits, live)
  {
    forall i | 0 <= i < |live| ensures LiveEntry(reqs + [q], admits, live[i]) {
      assert LiveEntry(reqs, admits, live[i]);
    }
  }

  lemma NewcomerLimiter(w: World, q: Request)
    requires LimiterOwned(w) && q.adm.None?
    ensures LimiterOwned(w.(reqs := w.reqs + [q]))
  {
    var reqs := w.reqs + [q];
    NewcomerAdmits(w.reqs, w.admits, w.ledger.hist, w.ledger.key.last, q);
    NewcomerLive(w.reqs, w.admits, w.ledger.live, q);
    forall k | 0 <= k < |w.payers| ensures ChargeEntry(reqs, w.payers[k], w.ledger.paid[k]) {
      assert ChargeEntry(w.reqs, w.payers[k], w.ledger.paid[k]);
    }
  }

  lemma NewcomerTickets(reqs: seq<Request>, tickets: seq<Option<nat>>, phases: map<nat, Q.Phase>, next: nat, q: Request)
    requires TicketsOwned(reqs, tickets, phases, next) && q.ticket.None? && q.stage == New && !q.slot
    ensures TicketsOwned(reqs + [q], tickets, phases, next)
  {
    var all := reqs + [q];
    forall t | 0 <= t < |tickets| ensures TicketOwned(all, t, tickets[t]) {
      assert TicketOwned(reqs, t, tickets[t]);
    }
    forall k | 0 <= k < |all| ensures InPlace(all[k], phases) {
      assert k < |reqs| ==> InPlace(reqs[k], phases);
    }
  }

  /** A step that changes one record, and of the rest at most the body count with it. */
  lemma RecordKeeps(w: World, r: nat, p: Request, bodies: int)
    requires Owned(w) && r < |w.reqs|
    requires SameForLimiter(w.reqs[r], p) && p.ticket == w.reqs[r].ticket && Taken(p) && InPlace(p, w.queue.phase)
    requires bodies == w.bodies + (if Buffering(p) then 1 else 0) - (if Buffering(w.reqs[r]) then 1 else 0)
    ensures Owned(Update(w, r, p).(bodies := bodies))
  {
    LimiterUnmoved(w, r, p);
    TicketsUnmoved(w.reqs, w.tickets, w.queue.phase, w.queue.next, r, p);
    BodiesUpdate(w.reqs, r, p);
  }

  lemma Record(w: World, r: nat)
    requires Owned(w) && r < |w.reqs|
    ensures Taken(w.reqs[r]) && InPlace(w.reqs[r], w.queue.phase)
  {
  }

  lemma ReadBodyKeeps(w: World, r: nat, lim: L.KeyLimits)
    requires Owned(w) && Enabled(w, ReadBody(r))
    ensures Owned(Do(w, ReadBody(r), lim))
  {
    Record(w, r);
    RecordKeeps(w, r, w.reqs[r].(stage := Buffered, buffered := true), w.bodies + 1);
  }

  lemma AbandonKeeps(w: World, r: nat, lim: L.KeyLimits)
    requires Owned(w) && Enabled(w, Abandon(r))
    ensures Owned(Do(w, Abandon(r), lim))
  {
    Record(w, r);
    RecordKeeps(w, r, End(w.reqs[r], Rejected), w.bodies);
  }

  lemma HoldAudioKeeps(w: World, r: nat, ok: bool, lim: L.KeyLimits)
    requires Owned(w) && Enabled(w, HoldAudio(r, ok))
    ensures Owned(Do(w, HoldAudio(r, ok), lim))
  {
    Record(w, r);
    RecordKeeps(w, r, if ok then w.reqs[r].(stage := Sized) else End(w.reqs[r], Rejected), w.bodies);
  }

  lemma DispatchKeeps(w: World, r: nat, lim: L.KeyLimits)
    requires Owned(w) && Enabled(w, Dispatch(r))
    ensures Owned(Do(w, Dispatch(r), lim))
  {
    Record(w, r);
    RecordKeeps(w, r, w.reqs[r].(dispatched := true), w.bodies);
  }

  lemma AnswerKeeps(w: World, r: nat, outcome: Outcome, prompt: int, completion: int, busy: bool, lim: L.KeyLimits)
    requires Owned(w) && Enabled(w, Answer(r, outcome, prompt, completion, busy))
    ensures Owned(Do(w, Answer(r, outcome, prompt, completion, busy), lim))
  {
    Record(w, r);
    RecordKeeps(w, r, End(w.reqs[r], outcome).(prompt := prompt, completion := completion, busy := busy), w.bodies);
  }

  lemma DropBodyKeeps(w: World, r: nat, lim: L.KeyLimits)
    requires Owned(w) && Enabled(w, DropBody(r))
    ensures Owned(Do(w, DropBody(r), lim))
  {
    Record(w, r);
    RecordKeeps(w, r, w.reqs[r].(stage := Done), w.bodies - (if w.reqs[r].buffered then 1 else 0));
  }

  // ---- steps of the queue ----

  /** A step of the queue on the ticket of one request, whose record follows. */
  lemma QueueStepKeeps(w: World, r: nat, e: Q.Event, p: Request)
    requires Owned(w) && r < |w.reqs| && w.reqs[r].ticket.Some? && !e.Enter?
    requires Q.Enabled(w.queue, e) && e.id == w.reqs[r].ticket.value
    requires SameForLimiter(w.reqs[r], p) && p.ticket == w.reqs[r].ticket && Taken(p)
    requires Buffering(p) == Buffering(w.reqs[r]) && InPlace(p, Q.Do(w.queue, e).phase)
    ensures Owned(Update(w.(queue := Q.Do(w.queue, e)), r, p))
  {
    LimiterUnmoved(w, r, p);
    BodiesUpdate(w.reqs, r, p);
    QueueShape(w.queue, e);
    TicketsMoved(w.reqs, w.tickets, w.queue.phase, w.queue.next, r, p, Q.Do(w.queue, e).phase[e.id]);
  }

  /** A step of a request in the queue moves nobody else. */
  lemma QueueShape(q: Q.Sys, e: Q.Event)
    requires !e.Enter? && Q.Enabled(q, e)
    ensures var s := Q.Do(q, e); e.id in s.phase && s.phase == q.phase[e.id := s.phase[e.id]] && s.next == q.next
  {
  }

  lemma WakeKeeps(w: World, r: nat, left: bool, lim: L.KeyLimits)
    requires Owned(w) && Enabled(w, Wake(r, left))
    ensures Owned(Do(w, Wake(r, left), lim))
  {
    Record(w, r);
    WakingRecord(w.reqs[r], w.queue, left);
    QueueStepKeeps(w, r, Q.Wake(w.reqs[r].ticket.value, left), Woken(w.reqs[r], left));
    WakeShape(w, r, left, lim);
  }

  function Woken(q: Request, left: bool): Request {
    if left then q else q.(stage := Running, slot := true)
  }

  lemma WakingRecord(q: Request, s: Q.Sys, left: bool)
    requires q.stage == Queued && Taken(q) && InPlace(q, s.phase) && q.ticket.Some?
    requires Q.Enabled(s, Q.Wake(q.ticket.value, left))
    ensures var p := Woken(q, left);
            && SameForLimiter(q, p) && p.ticket == q.ticket && Taken(p) && Buffering(p) == Buffering(q)
            && InPlace(p, Q.Do(s, Q.Wake(q.ticket.value, left)).phase)
  {
  }

  lemma WakeShape(w: World, r: nat, left: bool, lim: L.KeyLimits)
    requires Enabled(w, Wake(r, left))
    ensures Do(w, Wake(r, left), lim)
            == Update(w.(queue := Q.Do(w.queue, Q.Wake(w.reqs[r].ticket.value, left))), r, Woken(w.reqs[r], left))
  {
    assert left ==> w.reqs[r := w.reqs[r]] == w.reqs;
  }

  lemma GiveUpKeeps(w: World, r: nat, timedOut: bool, lim: L.KeyLimits)
    requires Owned(w) && Enabled(w, GiveUp(r, timedOut))
    ensures Owned(Do(w, GiveUp(r, timedOut), lim))
  {
    Record(w, r);
    QueueStepKeeps(w, r, Q.GiveUp(w.reqs[r].ticket.value), w.reqs[r].(timedOut := timedOut));
  }

  lemma DepartKeeps(w: World, r: nat, cap: int, lim: L.KeyLimits)
    requires Owned(w) && Enabled(w, Depart(r, cap))
    ensures Owned(Do(w, Depart(r, cap), lim))
  {
    var q := w.reqs[r];
    Record(w, r);
    QueueStepKeeps(w, r, Q.Depart(q.ticket.value, cap), End(q, QueueLost));
  }

  /** At the exit a slot that was taken is released. */
  lemma FreeSlotKeeps(w: World, r: nat, cap: int, lim: L.KeyLimits)
    requires Owned(w) && Enabled(w, FreeSlot(r, cap))
    ensures w.reqs[r].slot ==> w.reqs[r].ticket.Some? && Q.Enabled(w.queue, Q.Release(w.reqs[r].ticket.value, cap))
    ensures Owned(Do(w, FreeSlot(r, cap), lim))
  {
    Record(w, r);
    FreeingRecord(w.reqs[r], w.queue, cap);
    FreedKeeps(w, r, cap, w.reqs[r].(stage := Freed));
    FreeSlotShape(w, r, cap, lim);
  }

  /** What an ended request's record becomes fits its place, with its slot released. */
  lemma FreeingRecord(q: Request, s: Q.Sys, cap: int)
    requires q.stage == Ended && Taken(q) && InPlace(q, s.phase)
    ensures var p := q.(stage := Freed);
            && SameForLimiter(q, p) && Taken(p) && Buffering(p) == Buffering(q)
            && (if q.slot then
                  && q.ticket.Some? && Q.Enabled(s, Q.Release(q.ticket.value, cap))
                  && InPlace(p, Q.Do(s, Q.Release(q.ticket.value, cap)).phase)
                else InPlace(p, s.phase))
  {
  }

  function Freeing(w: World, r: nat, cap: int, p: Request): World
    requires r < |w.reqs|
    requires w.reqs[r].slot ==>
               w.reqs[r].ticket.Some? && Q.Enabled(w.queue, Q.Release(w.reqs[r].ticket.value, cap))
  {
    if w.reqs[r].slot then Update(w.(queue := Q.Do(w.queue, Q.Release(w.reqs[r].ticket.value, cap))), r, p)
    else Update(w, r, p)
  }

  lemma FreeSlotShape(w: World, r: nat, cap: int, lim: L.KeyLimits)
    requires Enabled(w, FreeSlot(r, cap))
    requires w.reqs[r].slot ==>
               w.reqs[r].ticket.Some? && Q.Enabled(w.queue, Q.Release(w.reqs[r].ticket.value, cap))
    ensures Do(w, FreeSlot(r, cap), lim) == Freeing(w, r, cap, w.reqs[r].(stage := Freed))
  {
  }

  lemma FreedKeeps(w: World, r: nat, cap: int, p: Request)
    requires Owned(w) && r < |w.reqs|
    requires w.reqs[r].slot ==>
               && w.reqs[r].ticket.Some? && Q.Enabled(w.queue, Q.Release(w.reqs[r].ticket.value, cap))
               && InPlace(p, Q.Do(w.queue, Q.Release(w.reqs[r].ticket.value, cap)).phase)
    requires !w.reqs[r].slot ==> InPlace(p, w.queue.phase)
    requires SameForLimiter(w.reqs[r], p) && p.ticket == w.reqs[r].ticket && Taken(p)
    requires Buffering(p) == Buffering(w.reqs[r])
    ensures Owned(Freeing(w, r, cap, p))
  {
    if w.reqs[r].slot {
      QueueStepKeeps(w, r, Q.Release(w.reqs[r].ticket.value, cap), p);
    } else {
      RecordKeeps(w, r, p, w.bodies);
    }
  }

  lemma JoinTickets(reqs: seq<Request>, tickets: seq<Option<nat>>, phases: map<nat, Q.Phase>, next: nat,
                    r: nat, p: Request, phase: Q.Phase)
    requires r < |reqs| && TicketsOwned(reqs, tickets, phases, next)
    requires reqs[r].ticket.None? && p.ticket == Some(next) && InPlace(p, phases[next := phase])
    ensures TicketsOwned(reqs[r := p], tickets + [Some(r)], phases[next := phase], next + 1)
  {
    var after := reqs[r := p];
    forall k | 0 <= k < |after| ensures InPlace(after[k], phases[next := phase]) {
      assert InPlace(reqs[k], phases);
      assert reqs[k].ticket.Some? ==> reqs[k].ticket.value < next;
    }
    var all := tickets + [Some(r)];
    forall t | 0 <= t < |all| ensures TicketOwned(after, t, all[t]) {
      assert t < next ==> TicketOwned(reqs, t, tickets[t]);
    }
  }

  /** Whatever phase the newcomer got, its record says the same. */
  lemma JoinedKeeps(w: World, m: World, r: nat, p: Request, phase: Q.Phase)
    requires Owned(w) && r < |w.reqs| && m.reqs == w.reqs[r := p]
    requires m.ledger == w.ledger && m.admits == w.admits && m.payers == w.payers && m.bodies == w.bodies
    requires m.queue.next == w.queue.next + 1 && m.queue.phase == w.queue.phase[w.queue.next := phase]
    requires m.tickets == w.tickets + [Some(r)] && m.others == w.others
    requires SameForLimiter(w.reqs[r], p) && Buffering(p) == Buffering(w.reqs[r]) && Taken(p)
    requires w.reqs[r].ticket.None? && p.ticket == Some(w.queue.next) && InPlace(p, m.queue.phase)
    ensures Owned(m)
  {
    LimiterUnmoved(w, r, p);
    JoinTickets(w.reqs, w.tickets, w.queue.phase, w.queue.next, r, p, phase);
    BodiesUpdate(w.reqs, r, p);
  }

  lemma JoinKeeps(w: World, r: nat, cap: int, lim: L.KeyLimits)
    requires Owned(w) && Enabled(w, Join(r, cap))
    ensures Owned(Do(w, Join(r, cap), lim))
  {
    Record(w, r);
    JoinPhase(w, cap);
    var m := Joining(w, r, cap);
    JoinedKeeps(w, m, r, m.reqs[r], m.queue.phase[w.queue.next]);
  }

  lemma JoinPhase(w: World, cap: int)
    ensures var q, s := w.queue, Q.Do(w.queue, Q.Enter(cap));
            && s.next == q.next + 1 && q.next in s.phase && s.phase == q.phase[q.next := s.phase[q.next]]
            && s.phase[q.next] in {Q.Holding, Q.Waiting, Q.Gone(Rejected)}
  {
  }

  // ---- steps of other keys' requests ----

  lemma OtherTickets(reqs: seq<Request>, tickets: seq<Option<nat>>, phases: map<nat, Q.Phase>, next: nat,
                     t: nat, phase: Q.Phase)
    requires TicketsOwned(reqs, tickets, phases, next) && t < |tickets| && tickets[t].None?
    ensures TicketsOwned(reqs, tickets, phases[t := phase], next)
  {
    forall k | 0 <= k < |reqs| ensures InPlace(reqs[k], phases[t := phase]) {
      assert InPlace(reqs[k], phases);
      assert reqs[k].ticket.Some? ==> reqs[k].ticket.value != t;
    }
  }

  lemma OtherJoins(reqs: seq<Request>, tickets: seq<Option<nat>>, phases: map<nat, Q.Phase>, next: nat, phase: Q.Phase)
    requires TicketsOwned(reqs, tickets, phases, next)
    ensures TicketsOwned(reqs, tickets + [None], phases[next := phase], next + 1)
  {
    var all := tickets + [None];
    forall t | 0 <= t < |all| ensures TicketOwned(reqs, t, all[t]) {
      assert t < next ==> TicketOwned(reqs, t, tickets[t]);
    }
    forall k | 0 <= k < |reqs| ensures InPlace(reqs[k], phases[next := phase]) {
      assert InPlace(reqs[k], phases);
      assert reqs[k].ticket.Some? ==> reqs[k].ticket.value < next;
    }
  }

  lemma OtherQueuesKeeps(w: World, q: Q.Event, lim: L.KeyLimits)
    requires Owned(w) && Enabled(w, OtherQueues(q))
    ensures Owned(Do(w, OtherQueues(q), lim))
  {
    if q.Enter? {
      JoinPhase(w, q.cap);
      OtherJoins(w.reqs, w.tickets, w.queue.phase, w.queue.next, Q.Do(w.queue, q).phase[w.queue.next]);
    } else {
      QueueShape(w.queue, q);
      OtherTickets(w.reqs, w.tickets, w.queue.phase, w.queue.next, q.id, Q.Do(w.queue, q).phase[q.id]);
    }
  }

  lemma OtherBuffersKeeps(w: World, more: bool, lim: L.KeyLimits)
    requires Owned(w) && Enabled(w, OtherBuffers(more))
    ensures Owned(Do(w, OtherBuffers(more), lim))
  {
  }

  // ---- steps of the limiter ----

  /** What an admission, granted or refused, does to the ledger. */
  lemma AdmitShape(g: G.Ledger, t: int, lim: L.KeyLimits)
    requires g.now <= t
    ensures var h := G.Do(g, G.Admitting(t, false), lim);
            var num := g.key.last + 1;
            && h.paid == g.paid
            && (if L.Admit(g.key, t, lim, false).1.Granted?
                then h.hist == g.hist + [G.Past(t, num, true)] && h.live == g.live + [L.Admission(num, false, 0)]
                     && h.key.last == num
                else h.hist == g.hist && h.live == g.live && h.key.last == g.key.last)
  {
  }

  lemma AdmitAdmits(reqs: seq<Request>, admits: seq<nat>, hist: seq<G.Past>, last: nat, r: nat, p: Request, t: int)
    requires AdmitsOwned(reqs, admits, hist, last) && r < |reqs| && reqs[r].adm.None?
    requires p.adm == Some(last + 1) && Unsettled(p)
    ensures AdmitsOwned(reqs[r := p], admits + [r], hist + [G.Past(t, last + 1, true)], last + 1)
  {
    var after, owners, all := reqs[r := p], admits + [r], hist + [G.Past(t, last + 1, true)];
    forall n | 0 <= n < |owners|
      ensures owners[n] < |after| && after[owners[n]].adm == Some(n + 1) && all[n].num == n + 1
      ensures all[n].counted == (Unsettled(after[owners[n]]) || Counted(after[owners[n]]))
    {
      assert n < last ==> reqs[admits[n]].adm == Some(n + 1);
    }
  }

  /** Who was live stays live, and is found by its number. */
  lemma FoundStill(live: seq<L.Admission>, a: L.Admission, num: nat)
    requires IndexOf(live, num) < |live| || a.num == num
    ensures IndexOf(live + [a], num) < |live| + 1
  {
    var i := IndexOf(live, num);
    assert (live + [a])[i] == if i < |live| then live[i] else a;
  }

  lemma AdmitEntries(reqs: seq<Request>, admits: seq<nat>, live: seq<L.Admission>, r: nat, p: Request)
    requires LiveOwned(reqs, admits, live) && r < |reqs| && reqs[r].adm.None?
    requires forall n :: 0 <= n < |admits| ==> admits[n] < |reqs| && reqs[admits[n]].adm.Some?
    ensures forall i :: 0 <= i < |live| ==> LiveEntry(reqs[r := p], admits + [r], live[i])
    ensures forall i :: 0 <= i < |live| ==> live[i].num <= |admits|
  {
    forall i | 0 <= i < |live| ensures LiveEntry(reqs[r := p], admits + [r], live[i]) && live[i].num <= |admits| {
      assert LiveEntry(reqs, admits, live[i]);
      assert admits[live[i].num - 1] != r;
    }
  }

  lemma AdmitFound(after: seq<Request>, live: seq<L.Admission>, r: nat, a: L.Admission)
    requires r < |after| && after[r].adm == Some(a.num)
    requires forall k :: 0 <= k < |after| && k != r && after[k].adm.Some? && Unsettled(after[k]) ==>
               IndexOf(live, after[k].adm.value) < |live|
    ensures AllFound(after, live + [a])
  {
    forall k | 0 <= k < |after| && after[k].adm.Some? && Unsettled(after[k])
      ensures IndexOf(live + [a], after[k].adm.value) < |live| + 1
    {
      FoundStill(live, a, after[k].adm.value);
    }
  }

  lemma AdmitLive(reqs: seq<Request>, admits: seq<nat>, live: seq<L.Admission>, r: nat, p: Request, a: L.Admission)
    requires LiveOwned(reqs, admits, live) && r < |reqs| && reqs[r].adm.None?
    requires forall n :: 0 <= n < |admits| ==> admits[n] < |reqs| && reqs[admits[n]].adm.Some?
    requires a.num == |admits| + 1 && p.adm == Some(a.num) && Unsettled(p) && a.reserved == p.held && !a.detached
    ensures LiveOwned(reqs[r := p], admits + [r], live + [a])
  {
    AdmitEntries(reqs, admits, live, r, p);
    NewestLast(live, a);
    AdmittedEntry(reqs[r := p], admits, r, a);
    AdmitFound(reqs[r := p], live, r, a);
  }

  lemma NewestLast(live: seq<L.Admission>, a: L.Admission)
    requires NumbersRise(live) && forall i :: 0 <= i < |live| ==> live[i].num < a.num
    ensures NumbersRise(live + [a])
  {
  }

  lemma AdmittedEntry(after: seq<Request>, admits: seq<nat>, r: nat, a: L.Admission)
    requires r < |after| && after[r].adm == Some(a.num) && Unsettled(after[r])
    requires a.num == |admits| + 1 && a.reserved == after[r].held && !a.detached
    ensures LiveEntry(after, admits + [r], a)
  {
  }

  lemma AdmitCharges(reqs: seq<Request>, payers: seq<nat>, paid: seq<G.Paid>, r: nat, p: Request)
    requires ChargesOwned(reqs, payers, paid) && r < |reqs| && reqs[r].adm.None? && Unsettled(p)
    ensures ChargesOwned(reqs[r := p], payers, paid)
  {
    forall k | 0 <= k < |payers| ensures ChargeEntry(reqs[r := p], payers[k], paid[k]) {
      assert ChargeEntry(reqs, payers[k], paid[k]);
    }
  }

  lemma AdmittedKeeps(w: World, m: World, r: nat, p: Request, t: int)
    requires Owned(w) && r < |w.reqs| && w.reqs[r].adm.None? && m.reqs == w.reqs[r := p]
    requires p.adm == Some(w.ledger.key.last + 1) && p.held == 0 && Unsettled(p) && p.ticket == w.reqs[r].ticket
    requires m.ledger.hist == w.ledger.hist + [G.Past(t, w.ledger.key.last + 1, true)]
    requires m.ledger.key.last == w.ledger.key.last + 1
    requires m.ledger.live == w.ledger.live + [L.Admission(w.ledger.key.last + 1, false, 0)]
    requires m.ledger.paid == w.ledger.paid && m.payers == w.payers && m.admits == w.admits + [r]
    requires m.queue == w.queue && m.tickets == w.tickets && m.bodies == w.bodies && m.others == w.others
    requires Buffering(p) == Buffering(w.reqs[r]) && Taken(p) && InPlace(p, w.queue.phase)
    ensures Owned(m)
  {
    AdmitAdmits(w.reqs, w.admits, w.ledger.hist, w.ledger.key.last, r, p, t);
    AdmitLive(w.reqs, w.admits, w.ledger.live, r, p, L.Admission(w.ledger.key.last + 1, false, 0));
    AdmitCharges(w.reqs, w.payers, w.ledger.paid, r, p);
    TicketsUnmoved(w.reqs, w.tickets, w.queue.phase, w.queue.next, r, p);
    BodiesUpdate(w.reqs, r, p);
  }

  /** A step refused by the limiter ends the request and leaves what it had. */
  lemma RefusedKeeps(w: World, m: World, r: nat)
    requires Owned(w) && r < |w.reqs| && w.reqs[r].stage in {New, Buffered}
    requires m == Update(w.(ledger := m.ledger), r, End(w.reqs[r], Rejected))
    requires m.ledger.hist == w.ledger.hist && m.ledger.live == w.ledger.live && m.ledger.paid == w.ledger.paid
    requires m.ledger.key.last == w.ledger.key.last
    ensures Owned(m)
  {
    Record(w, r);
    RecordKeeps(w, r, End(w.reqs[r], Rejected), w.bodies);
  }

  lemma AdmitKeyKeeps(w: World, r: nat, t: int, lim: L.KeyLimits)
    requires Owned(w) && Enabled(w, AdmitKey(r, t))
    ensures Owned(Do(w, AdmitKey(r, t), lim))
  {
    Record(w, r);
    AdmitShape(w.ledger, t, lim);
    var m := Do(w, AdmitKey(r, t), lim);
    if L.Admit(w.ledger.key, t, lim, false).1.Granted? {
      AdmittedKeeps(w, m, r, m.reqs[r], t);
    } else {
      RefusedKeeps(w, m, r);
    }
  }

  /** What a reservation, granted or refused, does to the ledger. */
  lemma ReserveShape(g: G.Ledger, i: nat, t: int, prompt: int, out: int, lim: L.KeyLimits)
    requires G.Enabled(g, G.Reserving(t, i, prompt, out))
    ensures var h := G.Do(g, G.Reserving(t, i, prompt, out), lim);
            && h.paid == g.paid && h.hist == g.hist && h.key.last == g.key.last
            && |h.live| == |g.live|
            && (if L.Reserve(g.key, g.live[i], t, lim, prompt, out).1.Granted?
                then h.live == g.live[i := g.live[i].(reserved := h.live[i].reserved)] else h.live == g.live)
  {
  }

  /** The reservation and the record's copy of it change together. */
  lemma ReserveLive(reqs: seq<Request>, admits: seq<nat>, live: seq<L.Admission>, r: nat, p: Request, i: nat)
    requires LiveOwned(reqs, admits, live) && r < |reqs| && i < |live|
    requires reqs[r].adm == Some(live[i].num) && p.adm == reqs[r].adm && Unsettled(reqs[r]) && Unsettled(p)
    requires 1 <= live[i].num <= |admits| && admits[live[i].num - 1] == r
    requires forall n :: 0 <= n < |admits| && admits[n] == r ==> n == live[i].num - 1
    ensures LiveOwned(reqs[r := p], admits, live[i := live[i].(reserved := p.held)])
  {
    var after, all := reqs[r := p], live[i := live[i].(reserved := p.held)];
    forall j | 0 <= j < |all| ensures LiveEntry(after, admits, all[j]) {
      assert LiveEntry(reqs, admits, live[j]);
    }
    forall k | 0 <= k < |after| && after[k].adm.Some? && Unsettled(after[k])
      ensures IndexOf(all, after[k].adm.value) < |all|
    {
      var j := IndexOf(live, reqs[k].adm.value);
      assert all[j].num == live[j].num;
    }
  }

  /** No request has two admissions. */
  lemma AdmittedOnce(reqs: seq<Request>, admits: seq<nat>, hist: seq<G.Past>, last: nat, r: nat)
    requires AdmitsOwned(reqs, admits, hist, last) && r < |reqs| && reqs[r].adm.Some?
    ensures 1 <= reqs[r].adm.value <= |admits| && admits[reqs[r].adm.value - 1] == r
    ensures forall n :: 0 <= n < |admits| && admits[n] == r ==> n == reqs[r].adm.value - 1
  {
    forall n | 0 <= n < |admits| && admits[n] == r ensures n == reqs[r].adm.value - 1 {
      assert reqs[admits[n]].adm == Some(n + 1);
    }
  }

  lemma HeldAdmits(reqs: seq<Request>, admits: seq<nat>, hist: seq<G.Past>, last: nat, r: nat, p: Request)
    requires AdmitsOwned(reqs, admits, hist, last) && r < |reqs|
    requires p.adm == reqs[r].adm && Unsettled(p) && Unsettled(reqs[r])
    ensures AdmitsOwned(reqs[r := p], admits, hist, last)
  {
    forall n | 0 <= n < |admits|
      ensures admits[n] < |reqs| && reqs[r := p][admits[n]].adm == Some(n + 1)
      ensures var q := reqs[r := p][admits[n]]; hist[n].counted == (Unsettled(q) || Counted(q))
    {
      assert reqs[admits[n]].adm == Some(n + 1);
    }
  }

  lemma HeldCharges(reqs: seq<Request>, payers: seq<nat>, paid: seq<G.Paid>, r: nat, p: Request)
    requires ChargesOwned(reqs, payers, paid) && r < |reqs| && Unsettled(reqs[r]) && Unsettled(p)
    ensures ChargesOwned(reqs[r := p], payers, paid)
  {
    forall k | 0 <= k < |payers| ensures ChargeEntry(reqs[r := p], payers[k], paid[k]) {
      assert ChargeEntry(reqs, payers[k], paid[k]);
    }
  }

  /** Between admission and settlement a request's admission is live, and known by its number. */
  lemma AdmissionIsLive(w: World, r: nat)
    requires Owned(w) && r < |w.reqs| && w.reqs[r].adm.Some? && Unsettled(w.reqs[r])
    ensures var num := w.reqs[r].adm.value;
            var i := Live(w, num);
            && i < |w.ledger.live| && w.ledger.live[i].num == num && w.ledger.live[i].reserved == w.reqs[r].held
            && 1 <= num <= |w.admits| && w.admits[num - 1] == r
  {
    var i := Live(w, w.reqs[r].adm.value);
    assert i < |w.ledger.live|;
    assert LiveEntry(w.reqs, w.admits, w.ledger.live[i]);
  }

  lemma SizedKeeps(w: World, m: World, r: nat, p: Request, i: nat)
    requires Owned(w) && r < |w.reqs| && w.reqs[r].adm.Some? && i == Live(w, w.reqs[r].adm.value) < |w.ledger.live|
    requires m == Update(w.(ledger := m.ledger), r, p)
    requires m.ledger.hist == w.ledger.hist && m.ledger.paid == w.ledger.paid && m.ledger.key.last == w.ledger.key.last
    requires m.ledger.live == w.ledger.live[i := w.ledger.live[i].(reserved := p.held)]
    requires p.adm == w.reqs[r].adm && p.ticket == w.reqs[r].ticket && Unsettled(w.reqs[r]) && Unsettled(p)
    requires Buffering(p) == Buffering(w.reqs[r]) && Taken(p) && InPlace(p, w.queue.phase)
    ensures Owned(m)
  {
    AdmissionIsLive(w, r);
    SizedLimiter(w, m, r, p, i);
    SizedRest(w, r, p);
  }

  lemma SizedRest(w: World, r: nat, p: Request)
    requires Owned(w) && r < |w.reqs| && p.ticket == w.reqs[r].ticket
    requires Buffering(p) == Buffering(w.reqs[r]) && Taken(p) && InPlace(p, w.queue.phase)
    ensures TicketsOwned(w.reqs[r := p], w.tickets, w.queue.phase, w.queue.next)
    ensures AllTaken(w.reqs[r := p]) && w.bodies == Bodies(w.reqs[r := p]) + w.others
  {
    TicketsUnmoved(w.reqs, w.tickets, w.queue.phase, w.queue.next, r, p);
    BodiesUpdate(w.reqs, r, p);
  }

  lemma SizedLimiter(w: World, m: World, r: nat, p: Request, i: nat)
    requires LimiterOwned(w) && r < |w.reqs| && i < |w.ledger.live|
    requires w.reqs[r].adm == Some(w.ledger.live[i].num) && p.adm == w.reqs[r].adm
             && Unsettled(w.reqs[r]) && Unsettled(p)
    requires m.reqs == w.reqs[r := p] && m.admits == w.admits && m.payers == w.payers
    requires m.ledger.hist == w.ledger.hist && m.ledger.paid == w.ledger.paid && m.ledger.key.last == w.ledger.key.last
    requires m.ledger.live == w.ledger.live[i := w.ledger.live[i].(reserved := p.held)]
    ensures LimiterOwned(m)
  {
    AdmittedOnce(w.reqs, w.admits, w.ledger.hist, w.ledger.key.last, r);
    HeldAdmits(w.reqs, w.admits, w.ledger.hist, w.ledger.key.last, r, p);
    ReserveLive(w.reqs, w.admits, w.ledger.live, r, p, i);
    HeldCharges(w.reqs, w.payers, w.ledger.paid, r, p);
  }

  /** The admission the reservation goes on is live and has none yet, so that `reserve` is called once. */
  lemma CheckBudgetsKeeps(w: World, r: nat, t: int, prompt: int, out: int, lim: L.KeyLimits)
    requires Owned(w) && Enabled(w, CheckBudgets(r, t, prompt, out))
    ensures w.reqs[r].adm.Some?
    ensures G.Enabled(w.ledger, G.Reserving(t, Live(w, w.reqs[r].adm.value), prompt, out))
    ensures Owned(Do(w, CheckBudgets(r, t, prompt, out), lim))
  {
    Record(w, r);
    AdmissionIsLive(w, r);
    var i := Live(w, w.reqs[r].adm.value);
    ReserveShape(w.ledger, i, t, prompt, out, lim);
    var m := Do(w, CheckBudgets(r, t, prompt, out), lim);
    if L.Reserve(w.ledger.key, w.ledger.live[i], t, lim, prompt, out).1.Granted? {
      SizedKeeps(w, m, r, m.reqs[r], i);
    } else {
      RefusedKeeps(w, m, r);
    }
  }

  // ---- settlement ----

  /** What `settle` does to the ledger. */
  lemma SettleShape(g: G.Ledger, i: nat, t: int, counted: bool, charged: int, lim: L.KeyLimits)
    requires i < |g.live| && g.now <= t
    ensures var h := G.Do(g, G.Settling(t, i, counted, charged), lim);
            && h.hist == (if counted then g.hist else G.Uncount(g.hist, g.live[i].num))
            && h.live == g.live[..i] + g.live[i + 1..]
            && h.paid == (if charged > 0 then g.paid + [G.Paid(t, charged, g.live[i].reserved)] else g.paid)
            && h.key.last == g.key.last
  {
  }

  /** The log after settlement: this admission's entry counts only when the table says so. */
  ghost predicate Marked(hist: seq<G.Past>, after: seq<G.Past>, num: nat, counted: bool) {
    && |after| == |hist|
    && forall n :: 0 <= n < |hist| ==>
         after[n].num == hist[n].num && after[n].counted == (hist[n].counted && (counted || hist[n].num != num))
  }

  lemma UncountMarks(hist: seq<G.Past>, after: seq<G.Past>, num: nat, counted: bool)
    requires after == if counted then hist else G.Uncount(hist, num)
    ensures Marked(hist, after, num, counted)
  {
    G.UncountKeeps(hist, num);
  }

  lemma SettleAdmits(reqs: seq<Request>, admits: seq<nat>, hist: seq<G.Past>, last: nat, r: nat, p: Request,
                     after: seq<G.Past>)
    requires AdmitsOwned(reqs, admits, hist, last) && r < |reqs|
    requires reqs[r].adm.Some? && p.adm == reqs[r].adm && Unsettled(reqs[r]) && !Unsettled(p)
    requires Marked(hist, after, p.adm.value, Counted(p))
    ensures AdmitsOwned(reqs[r := p], admits, after, last)
  {
    var settled := reqs[r := p];
    forall n | 0 <= n < |admits|
      ensures admits[n] < |reqs| && settled[admits[n]].adm == Some(n + 1) && after[n].num == n + 1
      ensures after[n].counted == (Unsettled(settled[admits[n]]) || Counted(settled[admits[n]]))
    {
      assert reqs[admits[n]].adm == Some(n + 1) && hist[n].num == n + 1;
    }
  }

  /** An admission's number finds one request. */
  lemma OneEach(reqs: seq<Request>, admits: seq<nat>, hist: seq<G.Past>, last: nat, r: nat)
    requires AdmitsOwned(reqs, admits, hist, last) && r < |reqs| && reqs[r].adm.Some?
    ensures forall k :: 0 <= k < |reqs| && reqs[k].adm == reqs[r].adm ==> k == r
    ensures forall n :: 0 <= n < |admits| ==> admits[n] < |reqs| && reqs[admits[n]].adm == Some(n + 1)
  {
  }

  lemma FoundApart(live: seq<L.Admission>, i: nat, num: nat)
    requires i < |live| && IndexOf(live, num) < |live| && live[i].num != num
    ensures IndexOf(live[..i] + live[i + 1..], num) < |live| - 1
  {
    var j, rest := IndexOf(live, num), live[..i] + live[i + 1..];
    assert rest[if j < i then j else j - 1] == live[j];
  }

  lemma SettleEntries(reqs: seq<Request>, admits: seq<nat>, live: seq<L.Admission>, r: nat, p: Request, i: nat)
    requires LiveOwned(reqs, admits, live) && r < |reqs| && i < |live| && reqs[r].adm == Some(live[i].num)
    requires forall n :: 0 <= n < |admits| ==> admits[n] < |reqs| && reqs[admits[n]].adm == Some(n + 1)
    ensures forall j :: 0 <= j < |live| && j != i ==> LiveEntry(reqs[r := p], admits, live[j])
  {
    forall j | 0 <= j < |live| && j != i ensures LiveEntry(reqs[r := p], admits, live[j]) {
      assert LiveEntry(reqs, admits, live[j]);
      assert live[j].num != live[i].num;
    }
  }

  lemma SettleLive(reqs: seq<Request>, admits: seq<nat>, live: seq<L.Admission>, r: nat, p: Request, i: nat)
    requires LiveOwned(reqs, admits, live) && r < |reqs| && i < |live|
    requires reqs[r].adm == Some(live[i].num) && p.adm == reqs[r].adm && !Unsettled(p)
    requires forall k :: 0 <= k < |reqs| && reqs[k].adm == reqs[r].adm ==> k == r
    requires forall n :: 0 <= n < |admits| ==> admits[n] < |reqs| && reqs[admits[n]].adm == Some(n + 1)
    ensures LiveOwned(reqs[r := p], admits, live[..i] + live[i + 1..])
  {
    var after, rest := reqs[r := p], live[..i] + live[i + 1..];
    SettleEntries(reqs, admits, live, r, p, i);
    forall j | 0 <= j < |rest| ensures LiveEntry(after, admits, rest[j]) {
      assert rest[j] == if j < i then live[j] else live[j + 1];
    }
    forall k | 0 <= k < |after| && after[k].adm.Some? && Unsettled(after[k])
      ensures IndexOf(rest, after[k].adm.value) < |rest|
    {
      FoundApart(live, i, reqs[k].adm.value);
    }
  }

  lemma SettleCharges(reqs: seq<Request>, payers: seq<nat>, paid: seq<G.Paid>, r: nat, p: Request, t: int)
    requires ChargesOwned(reqs, payers, paid) && r < |reqs|
    requires reqs[r].adm.Some? && p.adm == reqs[r].adm && Unsettled(reqs[r]) && !Unsettled(p)
    ensures if Charge(p) > 0 then ChargesOwned(reqs[r := p], payers + [r], paid + [G.Paid(t, Charge(p), p.held)])
            else ChargesOwned(reqs[r := p], payers, paid)
  {
    var after := reqs[r := p];
    forall k | 0 <= k < |payers| ensures ChargeEntry(after, payers[k], paid[k]) && payers[k] != r {
      assert ChargeEntry(reqs, payers[k], paid[k]);
    }
    if Charge(p) > 0 {
      var who, all := payers + [r], paid + [G.Paid(t, Charge(p), p.held)];
      forall k | 0 <= k < |who| ensures ChargeEntry(after, who[k], all[k]) {
        assert k < |payers| ==> ChargeEntry(after, payers[k], paid[k]);
      }
      assert r == who[|payers|] && forall k :: k in payers ==> k in who;
    }
  }

  lemma SettledLimiter(w: World, m: World, r: nat, p: Request, i: nat, t: int)
    requires LimiterOwned(w) && r < |w.reqs| && m.reqs == w.reqs[r := p] && m.admits == w.admits
    requires w.reqs[r].adm.Some? && p.adm == w.reqs[r].adm && Unsettled(w.reqs[r]) && !Unsettled(p)
    requires i < |w.ledger.live| && w.ledger.live[i].num == p.adm.value
    requires m.ledger.key.last == w.ledger.key.last && Marked(w.ledger.hist, m.ledger.hist, p.adm.value, Counted(p))
    requires m.ledger.live == w.ledger.live[..i] + w.ledger.live[i + 1..]
    requires if Charge(p) > 0 then m.ledger.paid == w.ledger.paid + [G.Paid(t, Charge(p), p.held)]
             && m.payers == w.payers + [r]
             else m.ledger.paid == w.ledger.paid && m.payers == w.payers
    ensures LimiterOwned(m)
  {
    OneEach(w.reqs, w.admits, w.ledger.hist, w.ledger.key.last, r);
    SettleAdmits(w.reqs, w.admits, w.ledger.hist, w.ledger.key.last, r, p, m.ledger.hist);
    SettleLive(w.reqs, w.admits, w.ledger.live, r, p, i);
    SettleCharges(w.reqs, w.payers, w.ledger.paid, r, p, t);
  }

  /** Once the limiter's side is settled, the rest of the record only moves on. */
  lemma SettledKeeps(w: World, m: World, r: nat, p: Request)
    requires Owned(w) && r < |w.reqs| && w.reqs[r].stage == Freed && p == w.reqs[r].(stage := Settled)
    requires m.reqs == w.reqs[r := p] && m.queue == w.queue && m.tickets == w.tickets && m.bodies == w.bodies
    requires m.others == w.others
    requires LimiterOwned(m)
    ensures Owned(m)
  {
    Record(w, r);
    TicketsUnmoved(w.reqs, w.tickets, w.queue.phase, w.queue.next, r, p);
    BodiesUpdate(w.reqs, r, p);
  }

  lemma UnadmittedAdmits(reqs: seq<Request>, admits: seq<nat>, hist: seq<G.Past>, last: nat, r: nat, p: Request)
    requires AdmitsOwned(reqs, admits, hist, last) && r < |reqs| && reqs[r].adm.None? && p.adm.None?
    ensures AdmitsOwned(reqs[r := p], admits, hist, last)
  {
    forall n | 0 <= n < |admits| ensures admits[n] < |reqs| && reqs[r := p][admits[n]] == reqs[admits[n]] {
      assert reqs[admits[n]].adm == Some(n + 1);
    }
  }

  lemma UnadmittedLive(reqs: seq<Request>, admits: seq<nat>, live: seq<L.Admission>, r: nat, p: Request)
    requires LiveOwned(reqs, admits, live) && r < |reqs| && p.adm.None?
    requires forall n :: 0 <= n < |admits| ==> admits[n] != r
    ensures LiveOwned(reqs[r := p], admits, live)
  {
    forall j | 0 <= j < |live| ensures LiveEntry(reqs[r := p], admits, live[j]) {
      assert LiveEntry(reqs, admits, live[j]);
    }
  }

  lemma UnadmittedCharges(reqs: seq<Request>, payers: seq<nat>, paid: seq<G.Paid>, r: nat, p: Request)
    requires ChargesOwned(reqs, payers, paid) && r < |reqs| && reqs[r].adm.None? && p.adm.None?
    ensures ChargesOwned(reqs[r := p], payers, paid)
  {
    forall k | 0 <= k < |payers| ensures ChargeEntry(reqs[r := p], payers[k], paid[k]) {
      assert ChargeEntry(reqs, payers[k], paid[k]);
    }
  }

  lemma UnadmittedLimiter(w: World, r: nat, p: Request)
    requires LimiterOwned(w) && r < |w.reqs| && w.reqs[r].adm.None? && p.adm.None?
    ensures LimiterOwned(Update(w, r, p))
  {
    UnadmittedAdmits(w.reqs, w.admits, w.ledger.hist, w.ledger.key.last, r, p);
    forall n | 0 <= n < |w.admits| ensures w.admits[n] != r {
      assert w.reqs[w.admits[n]].adm == Some(n + 1);
    }
    UnadmittedLive(w.reqs, w.admits, w.ledger.live, r, p);
    UnadmittedCharges(w.reqs, w.payers, w.ledger.paid, r, p);
  }

  lemma SettleStep(w: World, r: nat, t: int, lim: L.KeyLimits)
    requires Enabled(w, Settle(r, t)) && w.reqs[r].adm.Some? && Live(w, w.reqs[r].adm.value) < |w.ledger.live|
    ensures var q, m := w.reqs[r], Settling(w, r, t, lim);
            && m.reqs == w.reqs[r := q.(stage := Settled)] && m.admits == w.admits
            && m.queue == w.queue && m.tickets == w.tickets && m.bodies == w.bodies && m.others == w.others
            && m.ledger == G.Do(w.ledger, G.Settling(t, Live(w, q.adm.value), Counted(q), Charge(q)), lim)
            && m.payers == if Charge(q) > 0 then w.payers + [r] else w.payers
  {
  }

  /** The step of an admitted request, in terms of the records and the ledger. */
  lemma SettlingShape(w: World, r: nat, t: int, lim: L.KeyLimits)
    requires Enabled(w, Settle(r, t)) && w.reqs[r].adm.Some? && Live(w, w.reqs[r].adm.value) < |w.ledger.live|
    ensures var p, m := w.reqs[r].(stage := Settled), Settling(w, r, t, lim);
            var i := Live(w, p.adm.value);
            && m.reqs == w.reqs[r := p] && m.admits == w.admits && m.ledger.key.last == w.ledger.key.last
            && m.ledger.hist == (if Counted(p) then w.ledger.hist else G.Uncount(w.ledger.hist, p.adm.value))
            && m.ledger.live == w.ledger.live[..i] + w.ledger.live[i + 1..]
            && (if Charge(p) > 0
                then m.ledger.paid == w.ledger.paid + [G.Paid(t, Charge(p), w.ledger.live[i].reserved)]
                     && m.payers == w.payers + [r]
                else m.ledger.paid == w.ledger.paid && m.payers == w.payers)
  {
    var q := w.reqs[r];
    assert SettleRow(q.(stage := Settled)) == SettleRow(q);
    SettleShape(w.ledger, Live(w, q.adm.value), t, Counted(q), Charge(q), lim);
  }

  lemma SettleAdmitted(w: World, r: nat, t: int, lim: L.KeyLimits)
    requires Owned(w) && Enabled(w, Settle(r, t)) && w.reqs[r].adm.Some?
    ensures Live(w, w.reqs[r].adm.value) < |w.ledger.live| && LimiterOwned(Settling(w, r, t, lim))
  {
    var p := w.reqs[r].(stage := Settled);
    AdmissionIsLive(w, r);
    SettlingShape(w, r, t, lim);
    SettledFrom(w, Settling(w, r, t, lim), r, p, Live(w, p.adm.value), t);
  }

  lemma SettledFrom(w: World, m: World, r: nat, p: Request, i: nat, t: int)
    requires LimiterOwned(w) && r < |w.reqs| && m.reqs == w.reqs[r := p] && m.admits == w.admits
    requires w.reqs[r].adm.Some? && p.adm == w.reqs[r].adm && Unsettled(w.reqs[r]) && !Unsettled(p)
    requires i < |w.ledger.live| && w.ledger.live[i].num == p.adm.value && w.ledger.live[i].reserved == p.held
    requires m.ledger.key.last == w.ledger.key.last
    requires m.ledger.hist == if Counted(p) then w.ledger.hist else G.Uncount(w.ledger.hist, p.adm.value)
    requires m.ledger.live == w.ledger.live[..i] + w.ledger.live[i + 1..]
    requires if Charge(p) > 0 then m.ledger.paid == w.ledger.paid + [G.Paid(t, Charge(p), w.ledger.live[i].reserved)]
                                   && m.payers == w.payers + [r]
             else m.ledger.paid == w.ledger.paid && m.payers == w.payers
    ensures LimiterOwned(m)
  {
    UncountMarks(w.ledger.hist, m.ledger.hist, p.adm.value, Counted(p));
    SettledLimiter(w, m, r, p, i, t);
  }

  /** What was admitted is found and settled. */
  lemma SettleKeeps(w: World, r: nat, t: int, lim: L.KeyLimits)
    requires Owned(w) && Enabled(w, Settle(r, t))
    ensures w.reqs[r].adm.Some? ==> Live(w, w.reqs[r].adm.value) < |w.ledger.live|
    ensures Owned(Do(w, Settle(r, t), lim))
  {
    var p, m := w.reqs[r].(stage := Settled), Settling(w, r, t, lim);
    if w.reqs[r].adm.Some? {
      SettleAdmitted(w, r, t, lim);
      SettleStep(w, r, t, lim);
    } else {
      UnadmittedLimiter(w, r, p);
    }
    SettledKeeps(w, m, r, p);
  }
}
