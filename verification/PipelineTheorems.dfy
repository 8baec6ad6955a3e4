/**
 What the pipeline promises over every run: whatever stage a request ends in, the one exit gives
 back each thing it took exactly once, and leaves behind only what the settle table says.
 */
module PipelineTheorems {
  import opened Outcomes
  import opened Pipeline
  import opened PipelineInvariant
  import opened PipelineSteps
  import L = Limits
  import G = LimitsLedger
  import Q = Queue
  import QueueTheorems

  lemma OwnedKept(w: World, e: Event, lim: L.KeyLimits)
    requires Owned(w) && Enabled(w, e)
    ensures Owned(Do(w, e, lim))
  {
    match e
    case Arrive(kind, stream) => ArriveKeeps(w, kind, stream, lim);
    case AdmitKey(r, t) => AdmitKeyKeeps(w, r, t, lim);
    case ReadBody(r) => ReadBodyKeeps(w, r, lim);
    case CheckBudgets(r, t, prompt, out) => CheckBudgetsKeeps(w, r, t, prompt, out, lim);
    case Join(r, cap) => JoinKeeps(w, r, cap, lim);
    case Wake(r, left) => WakeKeeps(w, r, left, lim);
    case GiveUp(r, timedOut) => GiveUpKeeps(w, r, timedOut, lim);
    case Depart(r, cap) => DepartKeeps(w, r, cap, lim);
    case Abandon(r) => AbandonKeeps(w, r, lim);
    case HoldAudio(r, ok) => HoldAudioKeeps(w, r, ok, lim);
    case Dispatch(r) => DispatchKeeps(w, r, lim);
    case Answer(r, outcome, prompt, completion, busy) => AnswerKeeps(w, r, outcome, prompt, completion, busy, lim);
    case FreeSlot(r, cap) => FreeSlotKeeps(w, r, cap, lim);
    case Settle(r, t) => SettleKeeps(w, r, t, lim);
    case DropBody(r) => DropBodyKeeps(w, r, lim);
    case OtherQueues(q) => OtherQueuesKeeps(w, q, lim);
    case OtherBuffers(more) => OtherBuffersKeeps(w, more, lim);
  }

  /** Every step of the pipeline is at most one step of the limiter, and of the queue. */
  lemma PartsKept(w: World, e: Event, lim: L.KeyLimits)
    requires Enabled(w, e)
    ensures var m := Do(w, e, lim);
            && (m.ledger == w.ledger || exists g :: G.Enabled(w.ledger, g) && m.ledger == G.Do(w.ledger, g, lim))
            && (m.queue == w.queue || exists q :: Q.Enabled(w.queue, q) && m.queue == Q.Do(w.queue, q))
  {
  }

  lemma {:induction false} RunOwned(w: World, es: seq<Event>, lim: L.KeyLimits)
    requires Owned(w) && Runs(w, es, lim)
    ensures Owned(Run(w, es, lim))
    decreases es
  {
    if es != [] {
      OwnedKept(w, es[0], lim);
      RunOwned(Do(w, es[0], lim), es[1..], lim);
    }
  }

  lemma {:induction false} RunParts(w: World, es: seq<Event>, lim: L.KeyLimits)
    requires G.Inv(w.ledger, lim) && Q.Inv(w.queue) && Runs(w, es, lim)
    ensures G.Inv(Run(w, es, lim).ledger, lim) && Q.Inv(Run(w, es, lim).queue)
    decreases es
  {
    if es != [] {
      PartsStep(w, es[0], lim);
      RunParts(Do(w, es[0], lim), es[1..], lim);
    }
  }

  lemma PartsStep(w: World, e: Event, lim: L.KeyLimits)
    requires G.Inv(w.ledger, lim) && Q.Inv(w.queue) && Enabled(w, e)
    ensures G.Inv(Do(w, e, lim).ledger, lim) && Q.Inv(Do(w, e, lim).queue)
  {
    PartsKept(w, e, lim);
    var m := Do(w, e, lim);
    if m.ledger != w.ledger {
      var g :| G.Enabled(w.ledger, g) && m.ledger == G.Do(w.ledger, g, lim);
      G.StepKeeps(w.ledger, g, lim);
    }
    if m.queue != w.queue {
      var q :| Q.Enabled(w.queue, q) && m.queue == Q.Do(w.queue, q);
      Q.StepKeeps(w.queue, q);
    }
  }

  // ---- the promises ----

  lemma Begins(now: int, seeded: nat, lim: L.KeyLimits)
    ensures Owned(Fresh(now, seeded)) && G.Inv(Fresh(now, seeded).ledger, lim) && Q.Inv(Fresh(now, seeded).queue)
  {
    G.StartKeeps(now, seeded, lim);
    NothingOwned(Fresh(now, seeded));
    EmptyIsSound();
  }

  lemma NothingOwned(w: World)
    requires |w.reqs| == |w.admits| == |w.payers| == |w.tickets| == w.bodies == w.others == 0
    requires |w.ledger.hist| == |w.ledger.live| == |w.ledger.paid| == w.ledger.key.last == w.queue.next == 0
    ensures Owned(w)
  {
  }

  lemma EmptyIsSound()
    ensures Q.Inv(Q.Empty)
  {
    assert Q.Owners(Q.Empty) == {};
  }

  /** The ceilings of the key and the laws of the queue hold with requests coming through both. */
  lemma PipelineIsSound(now: int, seeded: nat, es: seq<Event>, lim: L.KeyLimits)
    requires Runs(Fresh(now, seeded), es, lim)
    ensures var w := Run(Fresh(now, seeded), es, lim); G.Inv(w.ledger, lim) && Q.Inv(w.queue) && Owned(w)
  {
    Begins(now, seeded, lim);
    RunOwned(Fresh(now, seeded), es, lim);
    RunParts(Fresh(now, seeded), es, lim);
  }

  /** Nothing is live but what belongs to a request not yet settled. */
  lemma LiveHasRequest(w: World)
    requires Owned(w)
    ensures w.ledger.live == [] || exists r :: 0 <= r < |w.reqs| && Unsettled(w.reqs[r])
  {
    assert w.ledger.live != [] ==> LiveEntry(w.reqs, w.admits, w.ledger.live[0]);
  }

  /** No request of another key is in the queue. */
  ghost predicate NoOthers(w: World) {
    forall t :: 0 <= t < |w.tickets| && w.tickets[t].None? && t in w.queue.phase ==> w.queue.phase[t].Gone?
  }

  lemma NobodyQueued(w: World)
    requires Owned(w) && Q.Inv(w.queue) && NoOthers(w) && forall r :: 0 <= r < |w.reqs| ==> w.reqs[r].stage == Done
    ensures w.queue.line == Q.Line(0, [])
  {
    forall t | t in w.queue.phase ensures w.queue.phase[t].Gone? {
      assert TicketOwned(w.reqs, t, w.tickets[t]);
      if w.tickets[t].Some? {
        assert InPlace(w.reqs[w.tickets[t].value], w.queue.phase);
      }
    }
    QueueTheorems.IdleIsEmpty(w.queue);
  }

  lemma {:induction false} NoBodies(reqs: seq<Request>)
    requires forall r :: 0 <= r < |reqs| ==> reqs[r].stage == Done
    ensures Bodies(reqs) == 0
  {
    if reqs != [] {
      NoBodies(reqs[1..]);
    }
  }

  /**
   When every request of the key has gone through the exit, its slots and its reservations are back at
   zero and the buffered bodies are other keys'; and if those have no request in the queue either, its
   slots and its line are.
   */
  lemma EverythingGivenBack(now: int, seeded: nat, es: seq<Event>, lim: L.KeyLimits)
    requires Runs(Fresh(now, seeded), es, lim)
    requires forall q <- Run(Fresh(now, seeded), es, lim).reqs :: q.stage == Done
    ensures var w := Run(Fresh(now, seeded), es, lim);
            && w.ledger.key.inFlight == 0 && w.ledger.key.tokens.reserved == 0
            && w.bodies == w.others && (NoOthers(w) ==> w.queue.line == Q.Line(0, []))
  {
    PipelineIsSound(now, seeded, es, lim);
    var w := Run(Fresh(now, seeded), es, lim);
    LiveHasRequest(w);
    if NoOthers(w) {
      NobodyQueued(w);
    }
    NoBodies(w.reqs);
  }

  lemma SettledIsNotLive(reqs: seq<Request>, admits: seq<nat>, live: seq<L.Admission>, r: nat)
    requires LiveOwned(reqs, admits, live) && r < |reqs| && reqs[r].adm.Some? && !Unsettled(reqs[r])
    requires 1 <= reqs[r].adm.value <= |admits| && admits[reqs[r].adm.value - 1] == r
    ensures forall i :: 0 <= i < |live| ==> live[i].num != reqs[r].adm.value
  {
    forall i | 0 <= i < |live| ensures live[i].num != reqs[r].adm.value {
      assert LiveEntry(reqs, admits, live[i]);
    }
  }

  lemma DoneHoldsNothing(w: World, r: nat)
    requires Owned(w) && Q.Inv(w.queue) && At(w, r, Done)
    ensures var q := w.reqs[r];
            && (q.adm.Some? ==> forall a <- w.ledger.live :: a.num != q.adm.value)
            && (q.ticket.Some? ==> q.ticket.value !in w.queue.line.waiters && q.ticket.value !in Q.Owners(w.queue))
            && !Buffering(q)
  {
    DoneIsNotLive(w, r);
    assert InPlace(w.reqs[r], w.queue.phase);
    if w.reqs[r].ticket.Some? {
      GoneIsNowhere(w.queue, w.reqs[r].ticket.value);
    }
  }

  lemma DoneIsNotLive(w: World, r: nat)
    requires LimiterOwned(w) && At(w, r, Done)
    ensures w.reqs[r].adm.Some? ==> forall a <- w.ledger.live :: a.num != w.reqs[r].adm.value
  {
    if w.reqs[r].adm.Some? {
      SettledIsNotLive(w.reqs, w.admits, w.ledger.live, r);
    }
  }

  lemma GoneIsNowhere(q: Q.Sys, t: nat)
    requires Q.Inv(q) && t in q.phase && q.phase[t].Gone?
    ensures t !in q.line.waiters && t !in Q.Owners(q)
  {
  }

  /** One finished request holds nothing, whatever the others are doing. */
  lemma FinishedHoldsNothing(now: int, seeded: nat, es: seq<Event>, lim: L.KeyLimits, r: nat)
    requires Runs(Fresh(now, seeded), es, lim)
    requires At(Run(Fresh(now, seeded), es, lim), r, Done)
    ensures var w := Run(Fresh(now, seeded), es, lim);
            var q := w.reqs[r];
            && (q.adm.Some? ==> forall a <- w.ledger.live :: a.num != q.adm.value)
            && (q.ticket.Some? ==> q.ticket.value !in w.queue.line.waiters && q.ticket.value !in Q.Owners(w.queue))
            && !Buffering(q)
  {
    PipelineIsSound(now, seeded, es, lim);
    DoneHoldsNothing(Run(Fresh(now, seeded), es, lim), r);
  }

  /**
   The settle table's laws. What counts is a message the engine was asked for, an audio call its engine
   was sent and did not turn away as busy, or either when its wait in the queue timed out. Nothing is
   charged that does not count, nor before the engine has worked; a message whose client left without a
   stream is charged its reservation, so never over it; and audio is charged on its own meters, not here.
   */
  lemma TableLaws(q: Request)
    ensures q.kind == Message ==>
              (SettleRow(q).0 <==> q.outcome in {EngineErr, Served, Cut} || (q.outcome == QueueLost && q.timedOut))
    ensures q.kind == Audio ==>
              (SettleRow(q).0 <==> !q.busy && (q.dispatched || (q.outcome == QueueLost && q.timedOut)))
              && SettleRow(q).1 == 0
    ensures q.kind == Other ==> SettleRow(q) == (false, 0)
    ensures SettleRow(q).1 != 0 ==> SettleRow(q).0 && q.kind == Message && q.outcome in {Served, Cut}
    ensures q.kind == Message && q.outcome == Cut && !q.stream ==> SettleRow(q).1 == q.held
    ensures q.kind == Message && (q.outcome == Served || (q.outcome == Cut && q.stream)) ==>
              SettleRow(q).1 == q.prompt + q.completion
  {
  }

  /** Whatever is refused before the queue leaves no trace: it does not count and is not charged. */
  lemma RejectedLeavesNothing(now: int, seeded: nat, es: seq<Event>, lim: L.KeyLimits, r: nat)
    requires Runs(Fresh(now, seeded), es, lim)
    requires At(Run(Fresh(now, seeded), es, lim), r, Done)
    requires var q := Run(Fresh(now, seeded), es, lim).reqs[r];
             q.adm.Some? && q.outcome == Rejected && (q.kind == Audio ==> !q.dispatched)
    ensures var w := Run(Fresh(now, seeded), es, lim);
            var n := w.reqs[r].adm.value - 1;
            0 <= n < |w.ledger.hist| && !w.ledger.hist[n].counted && r !in w.payers
  {
    OnlyTheTableRemains(now, seeded, es, lim, r);
  }

  /**
   What is left of the requests is the settle table's: an admission counts while its request runs and
   afterwards exactly when the table counts it; the charges are, one each, those of the settled
   requests the table charges, and none other.
   */
  lemma OnlyTheTableRemains(now: int, seeded: nat, es: seq<Event>, lim: L.KeyLimits, r: nat)
    requires Runs(Fresh(now, seeded), es, lim)
    requires r < |Run(Fresh(now, seeded), es, lim).reqs| && Run(Fresh(now, seeded), es, lim).reqs[r].adm.Some?
    ensures var w := Run(Fresh(now, seeded), es, lim);
            var q := w.reqs[r];
            var n := q.adm.value - 1;
            && 0 <= n < |w.ledger.hist|
            && w.ledger.hist[n].counted == (Unsettled(q) || SettleRow(q).0)
            && |w.payers| == |w.ledger.paid|
            && (r in w.payers <==> !Unsettled(q) && SettleRow(q).1 > 0)
            && (forall k :: 0 <= k < |w.payers| && w.payers[k] == r ==> w.ledger.paid[k].amount == SettleRow(q).1)
            && (forall j, k :: 0 <= j < k < |w.payers| ==> w.payers[j] != w.payers[k])
  {
    PipelineIsSound(now, seeded, es, lim);
    var w := Run(Fresh(now, seeded), es, lim);
    CountedByTable(w.reqs, w.admits, w.ledger.hist, w.ledger.key.last, r);
    ChargedByTable(w.reqs, w.payers, w.ledger.paid, r);
  }

  lemma CountedByTable(reqs: seq<Request>, admits: seq<nat>, hist: seq<G.Past>, last: nat, r: nat)
    requires AdmitsOwned(reqs, admits, hist, last) && r < |reqs| && reqs[r].adm.Some?
    ensures var n := reqs[r].adm.value - 1;
            0 <= n < |hist| && hist[n].counted == (Unsettled(reqs[r]) || Counted(reqs[r]))
  {
    assert admits[reqs[r].adm.value - 1] == r;
  }

  lemma ChargedByTable(reqs: seq<Request>, payers: seq<nat>, paid: seq<G.Paid>, r: nat)
    requires ChargesOwned(reqs, payers, paid) && r < |reqs| && reqs[r].adm.Some?
    requires forall k :: 0 <= k < |paid| ==> paid[k].amount > 0
    ensures |payers| == |paid| && (r in payers <==> !Unsettled(reqs[r]) && Charge(reqs[r]) > 0)
    ensures forall k :: 0 <= k < |payers| && payers[k] == r ==> paid[k].amount == Charge(reqs[r])
    ensures forall j, k :: 0 <= j < k < |payers| ==> payers[j] != payers[k]
  {
    forall k | 0 <= k < |payers| && payers[k] == r
      ensures !Unsettled(reqs[r]) && paid[k].amount == Charge(reqs[r]) && paid[k].amount > 0
    {
      assert ChargeEntry(reqs, payers[k], paid[k]);
    }
  }
}
