/**
 What holds of the requests, the limiter, the queue and the body count together: who owns each
 admission, each place in the queue and each buffered body, at every moment between two steps.
 */
module PipelineInvariant {
  import opened Prelude
  import opened Pipeline
  import L = Limits
  import G = LimitsLedger
  import Q = Queue

  predicate Unsettled(q: Request) {
    q.stage !in {Settled, Done}
  }

  // ---- the limiter's side ----

  /** Each admission is one request's, and the log still counts it unless the table said otherwise. */
  ghost predicate AdmitsOwned(reqs: seq<Request>, admits: seq<nat>, hist: seq<G.Past>, last: nat) {
    && |admits| == |hist| == last
    && (forall n :: 0 <= n < |admits| ==>
          && admits[n] < |reqs|
          && reqs[admits[n]].adm == Some(n + 1)
          && hist[n].num == n + 1
          && hist[n].counted == (Unsettled(reqs[admits[n]]) || Counted(reqs[admits[n]])))
    && (forall r :: 0 <= r < |reqs| && reqs[r].adm.Some? ==>
          1 <= reqs[r].adm.value <= |admits| && admits[reqs[r].adm.value - 1] == r)
  }

  predicate LiveEntry(reqs: seq<Request>, admits: seq<nat>, a: L.Admission) {
    && 1 <= a.num <= |admits| && admits[a.num - 1] < |reqs|
    && !a.detached && Unsettled(reqs[admits[a.num - 1]])
    && a.reserved == reqs[admits[a.num - 1]].held
  }

  /** An admission is live until its request settles it, and holds what the record says. */
  ghost predicate LiveOwned(reqs: seq<Request>, admits: seq<nat>, live: seq<L.Admission>) {
    && NumbersRise(live)
    && (forall i :: 0 <= i < |live| ==> LiveEntry(reqs, admits, live[i]))
    && AllFound(reqs, live)
  }

  ghost predicate NumbersRise(live: seq<L.Admission>) {
    forall i, j :: 0 <= i < j < |live| ==> live[i].num < live[j].num
  }

  ghost predicate AllFound(reqs: seq<Request>, live: seq<L.Admission>) {
    forall r :: 0 <= r < |reqs| && reqs[r].adm.Some? && Unsettled(reqs[r]) ==>
      IndexOf(live, reqs[r].adm.value) < |live|
  }

  /** The charges are those of the settled requests the table charges, each once. */
  ghost predicate ChargesOwned(reqs: seq<Request>, payers: seq<nat>, paid: seq<G.Paid>) {
    && |payers| == |paid|
    && (forall k :: 0 <= k < |payers| ==> ChargeEntry(reqs, payers[k], paid[k]))
    && (forall j, k :: 0 <= j < k < |payers| ==> payers[j] != payers[k])
    && (forall r :: 0 <= r < |reqs| && reqs[r].adm.Some? && !Unsettled(reqs[r]) && Charge(reqs[r]) > 0 ==>
          r in payers)
  }

  predicate ChargeEntry(reqs: seq<Request>, r: nat, paid: G.Paid) {
    && r < |reqs| && !Unsettled(reqs[r]) && reqs[r].adm.Some?
    && paid.amount == Charge(reqs[r]) && paid.held == reqs[r].held
  }

  // ---- the queue's side ----

  predicate Placed(q: Request, phases: map<nat, Q.Phase>)
    requires q.ticket.Some? ==> q.ticket.value in phases
  {
    match q.stage
    case Queued => q.ticket.Some? && !q.slot && phases[q.ticket.value] in {Q.Waiting, Q.Leaving}
    case Running => q.ticket.Some? && q.slot && phases[q.ticket.value] == Q.Holding
    case Ended =>
      if q.slot then q.ticket.Some? && phases[q.ticket.value] == Q.Holding
      else q.ticket.Some? ==> phases[q.ticket.value].Gone?
    case Freed => q.ticket.Some? ==> phases[q.ticket.value].Gone?
    case Settled => q.ticket.Some? ==> phases[q.ticket.value].Gone?
    case Done => q.ticket.Some? ==> phases[q.ticket.value].Gone?
    case _ => q.ticket.None? && !q.slot
  }

  /** Each place in the queue is one request's, and each request stands where its stage says. */
  ghost predicate TicketsOwned(reqs: seq<Request>, tickets: seq<Option<nat>>, phases: map<nat, Q.Phase>, next: nat) {
    && |tickets| == next
    && (forall t :: 0 <= t < |tickets| ==> t in phases && TicketOwned(reqs, t, tickets[t]))
    && (forall r :: 0 <= r < |reqs| && reqs[r].ticket.Some? ==>
          reqs[r].ticket.value < |tickets| && tickets[reqs[r].ticket.value] == Some(r))
    && (forall r :: 0 <= r < |reqs| ==> InPlace(reqs[r], phases))
  }

  predicate TicketOwned(reqs: seq<Request>, t: nat, owner: Option<nat>) {
    owner.Some? ==> owner.value < |reqs| && reqs[owner.value].ticket == Some(t)
  }

  predicate InPlace(q: Request, phases: map<nat, Q.Phase>) {
    && (q.ticket.Some? ==> q.ticket.value in phases)
    && Placed(q, phases)
  }

  // ---- the record's side ----

  /** What a request has taken by each stage. */
  predicate Taken(q: Request) {
    && (q.stage == New ==> q.adm.None?)
    && (q.stage in {Admitted, Buffered, Sized, Queued, Running} ==> q.adm.Some?)
    && (q.stage in {New, Admitted} ==> !q.buffered)
    && (q.stage in {Buffered, Sized, Queued, Running} ==> q.buffered)
    && (q.stage in {New, Admitted, Buffered} ==> q.held == 0)
    && (q.stage in {New, Admitted, Buffered, Sized} ==> q.ticket.None?)
  }

  predicate Buffering(q: Request) {
    q.buffered && q.stage != Done
  }

  function Bodies(reqs: seq<Request>): nat {
    if reqs == [] then 0 else (if Buffering(reqs[0]) then 1 else 0) + Bodies(reqs[1..])
  }

  ghost predicate AllTaken(reqs: seq<Request>) {
    forall r :: 0 <= r < |reqs| ==> Taken(reqs[r])
  }

  ghost predicate LimiterOwned(w: World) {
    && AdmitsOwned(w.reqs, w.admits, w.ledger.hist, w.ledger.key.last)
    && LiveOwned(w.reqs, w.admits, w.ledger.live)
    && ChargesOwned(w.reqs, w.payers, w.ledger.paid)
  }

  /** Everything taken has one owner. */
  ghost predicate Owned(w: World) {
    && LimiterOwned(w)
    && TicketsOwned(w.reqs, w.tickets, w.queue.phase, w.queue.next)
    && AllTaken(w.reqs)
    && w.bodies == Bodies(w.reqs) + w.others
  }

  lemma {:induction false} BodiesUpdate(reqs: seq<Request>, r: nat, q: Request)
    requires r < |reqs|
    ensures Bodies(reqs[r := q]) == Bodies(reqs) - (if Buffering(reqs[r]) then 1 else 0)
            + (if Buffering(q) then 1 else 0)
  {
    if r == 0 {
      assert reqs[0 := q][1..] == reqs[1..];
    } else {
      BodiesUpdate(reqs[1..], r - 1, q);
      assert reqs[r := q][1..] == reqs[1..][r - 1 := q];
    }
  }

  lemma {:induction false} BodiesAppend(reqs: seq<Request>, q: Request)
    ensures Bodies(reqs + [q]) == Bodies(reqs) + (if Buffering(q) then 1 else 0)
  {
    if reqs == [] {
      assert reqs + [q] == [q];
    } else {
      HeadTail(reqs[0], reqs[1..], [q]);
      assert reqs == [reqs[0]] + reqs[1..];
      BodiesAppend(reqs[1..], q);
    }
  }

  // ---- a request moves on, and the limiter does not notice ----

  /** The record changes in nothing the limiter's side speaks of. */
  predicate SameForLimiter(q: Request, p: Request) {
    && p.adm == q.adm && p.held == q.held
    && (Unsettled(q) <==> Unsettled(p))
    && (!Unsettled(q) ==> SettleRow(q) == SettleRow(p))
  }

  lemma AdmitsUnmoved(reqs: seq<Request>, admits: seq<nat>, hist: seq<G.Past>, last: nat, r: nat, p: Request)
    requires r < |reqs| && SameForLimiter(reqs[r], p) && AdmitsOwned(reqs, admits, hist, last)
    ensures AdmitsOwned(reqs[r := p], admits, hist, last)
  {
    forall n | 0 <= n < |admits|
      ensures admits[n] < |reqs| && reqs[r := p][admits[n]].adm == Some(n + 1)
      ensures var q := reqs[r := p][admits[n]]; hist[n].counted == (Unsettled(q) || Counted(q))
    {
      assert reqs[admits[n]].adm == Some(n + 1);
    }
  }

  lemma LiveUnmoved(reqs: seq<Request>, admits: seq<nat>, live: seq<L.Admission>, r: nat, p: Request)
    requires r < |reqs| && SameForLimiter(reqs[r], p) && LiveOwned(reqs, admits, live)
    ensures LiveOwned(reqs[r := p], admits, live)
  {
    forall i | 0 <= i < |live| ensures LiveEntry(reqs[r := p], admits, live[i]) {
      assert LiveEntry(reqs, admits, live[i]);
    }
  }

  lemma ChargesUnmoved(reqs: seq<Request>, payers: seq<nat>, paid: seq<G.Paid>, r: nat, p: Request)
    requires r < |reqs| && SameForLimiter(reqs[r], p) && ChargesOwned(reqs, payers, paid)
    ensures ChargesOwned(reqs[r := p], payers, paid)
  {
    forall k | 0 <= k < |payers| ensures ChargeEntry(reqs[r := p], payers[k], paid[k]) {
      assert ChargeEntry(reqs, payers[k], paid[k]);
    }
  }

  lemma LimiterUnmoved(w: World, r: nat, p: Request)
    requires r < |w.reqs| && SameForLimiter(w.reqs[r], p) && LimiterOwned(w)
    ensures LimiterOwned(Update(w, r, p))
  {
    AdmitsUnmoved(w.reqs, w.admits, w.ledger.hist, w.ledger.key.last, r, p);
    LiveUnmoved(w.reqs, w.admits, w.ledger.live, r, p);
    ChargesUnmoved(w.reqs, w.payers, w.ledger.paid, r, p);
  }

  /** One request's place in the queue changes, and its record with it. */
  lemma TicketsMoved(reqs: seq<Request>, tickets: seq<Option<nat>>, phases: map<nat, Q.Phase>, next: nat,
                     r: nat, p: Request, phase: Q.Phase)
    requires r < |reqs| && p.ticket == reqs[r].ticket && p.ticket.Some?
    requires TicketsOwned(reqs, tickets, phases, next) && InPlace(p, phases[p.ticket.value := phase])
    ensures TicketsOwned(reqs[r := p], tickets, phases[p.ticket.value := phase], next)
  {
    var after := reqs[r := p];
    forall t | 0 <= t < |tickets| ensures TicketOwned(after, t, tickets[t]) {
      assert TicketOwned(reqs, t, tickets[t]);
    }
    forall k | 0 <= k < |after| ensures InPlace(after[k], phases[p.ticket.value := phase]) {
      assert InPlace(reqs[k], phases);
      assert k != r && reqs[k].ticket.Some? ==> reqs[k].ticket.value != p.ticket.value;
    }
  }

  lemma TicketsUnmoved(reqs: seq<Request>, tickets: seq<Option<nat>>, phases: map<nat, Q.Phase>,
                       next: nat, r: nat, p: Request)
    requires r < |reqs| && p.ticket == reqs[r].ticket
    requires TicketsOwned(reqs, tickets, phases, next) && InPlace(p, phases)
    ensures TicketsOwned(reqs[r := p], tickets, phases, next)
  {
    var after := reqs[r := p];
    forall t | 0 <= t < |tickets| ensures TicketOwned(after, t, tickets[t]) {
      assert TicketOwned(reqs, t, tickets[t]);
    }
    forall k | 0 <= k < |after| ensures InPlace(after[k], phases) {
      assert InPlace(reqs[k], phases);
    }
  }
}
