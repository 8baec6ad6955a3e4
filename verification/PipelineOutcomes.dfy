/**
 How a request ended, told from the events of the run alone: who answered it or whether it left the
 line, and why. What it counts and costs afterwards is a matter of those events.
 */
module PipelineOutcomes {
  import opened Prelude
  import opened Outcomes
  import opened Pipeline
  import opened PipelineInvariant
  import opened PipelineSteps
  import opened PipelineTheorems
  import L = Limits
  import G = LimitsLedger
  import T = LimitsTheorems
  import Q = Queue
  import QueueTheorems

  // ---- what the events of a run say ----

  function Last(past: seq<Event>): Event
    requires past != []
  {
    past[|past| - 1]
  }

  function Front(past: seq<Event>): seq<Event>
    requires past != []
  {
    past[..|past| - 1]
  }

  /** The event that ended a request in line or at its engine; none when it was refused or thrown out. */
  function Ending(past: seq<Event>, r: nat): Option<Event> {
    if past == [] then None
    else if (Last(past).Depart? || Last(past).Answer?) && Last(past).r == r then Some(Last(past))
    else Ending(Front(past), r)
  }

  function Verdict(ending: Option<Event>): Outcome {
    match ending
    case None => Rejected
    case Some(e) => if e.Answer? then e.outcome else QueueLost
  }

  /** Whether it was the timeout that made a request give up its place. */
  function TimedOut(past: seq<Event>, r: nat): bool {
    if past == [] then false
    else if Last(past).GiveUp? && Last(past).r == r then Last(past).timedOut
    else TimedOut(Front(past), r)
  }

  /** Whether the engine was sent it. */
  function Sent(past: seq<Event>, r: nat): bool {
    past != [] && (Last(past) == Dispatch(r) || Sent(Front(past), r))
  }

  datatype Call = Call(kind: Kind, stream: bool)

  /** The requests in the order of their arrival. */
  function Calls(past: seq<Event>): seq<Call> {
    if past == [] then []
    else Calls(Front(past)) + (if Last(past).Arrive? then [Call(Last(past).kind, Last(past).stream)] else [])
  }

  /** The request an event is about. */
  function Subject(e: Event): Option<nat> {
    match e
    case Arrive(_, _) => None
    case OtherQueues(_) => None
    case OtherBuffers(_) => None
    case _ => Some(e.r)
  }

  lemma Snoc(past: seq<Event>, e: Event)
    ensures Last(past + [e]) == e && Front(past + [e]) == past
  {
  }

  // ---- the records say the same ----

  predicate Over(q: Request) {
    q.stage in {Ended, Freed, Settled, Done}
  }

  predicate EndedAs(q: Request, ending: Option<Event>) {
    if ending.Some? && ending.value.Answer?
    then q.prompt == ending.value.prompt && q.completion == ending.value.completion && q.busy == ending.value.busy
    else !q.busy
  }

  predicate ToldAs(q: Request, ending: Option<Event>, timedOut: bool, sent: bool) {
    && q.timedOut == timedOut && q.dispatched == sent
    && (if Over(q) then
          && q.outcome == Verdict(ending) && EndedAs(q, ending)
          && (q.timedOut ==> ending.Some? && ending.value.Depart?)
        else ending.None? && !q.busy && (q.timedOut ==> q.stage == Queued))
  }

  predicate Told(q: Request, past: seq<Event>, r: nat) {
    ToldAs(q, Ending(past, r), TimedOut(past, r), Sent(past, r))
  }

  /** Nothing has been said of a request that has not come. */
  predicate Untold(past: seq<Event>, r: nat) {
    Ending(past, r).None? && !TimedOut(past, r) && !Sent(past, r)
  }

  ghost predicate AllTold(reqs: seq<Request>, past: seq<Event>) {
    && |Calls(past)| == |reqs|
    && (forall r :: 0 <= r < |reqs| ==>
          Told(reqs[r], past, r) && Calls(past)[r] == Call(reqs[r].kind, reqs[r].stream))
    && (forall r: nat :: r >= |reqs| ==> Untold(past, r))
  }

  /** What a place in the queue came to is what its request was told. */
  predicate Fate(q: Request, phases: map<nat, Q.Phase>) {
    q.ticket.Some? && q.ticket.value in phases ==>
      var phase := phases[q.ticket.value];
      && (phase == Q.Gone(QueueLost) ==> Over(q) && q.outcome == QueueLost)
      && (phase == Q.Gone(Rejected) ==> Over(q) && q.outcome == Rejected)
      && (q.stage == Queued && q.timedOut ==> phase == Q.Leaving)
  }

  ghost predicate Fates(reqs: seq<Request>, phases: map<nat, Q.Phase>) {
    forall r :: 0 <= r < |reqs| ==> Fate(reqs[r], phases)
  }

  // ---- one event ----

  /** What an event makes of the record it is about. */
  predicate Becomes(q: Request, p: Request, e: Event) {
    match e
    case AdmitKey(_, _) => p == q.(stage := Admitted, adm := p.adm) || p == End(q, Rejected)
    case ReadBody(_) => p == q.(stage := Buffered, buffered := true)
    case CheckBudgets(_, _, _, _) =>
      p == q || p == q.(stage := Sized, prompt := p.prompt, held := p.held) || p == End(q, Rejected)
    case HoldAudio(_, _) => p == q.(stage := Sized) || p == End(q, Rejected)
    case Join(_, _) =>
      var j := q.(ticket := p.ticket);
      p == j.(stage := Running, slot := true) || p == j.(stage := Queued) || p == End(j, Rejected)
    case Wake(_, left) => p == Woken(q, left)
    case GiveUp(_, timedOut) => p == q.(timedOut := timedOut)
    case Depart(_, _) => p == End(q, QueueLost)
    case Abandon(_) => p == End(q, Rejected)
    case Dispatch(_) => p == q.(dispatched := true)
    case Answer(_, outcome, prompt, completion, busy) =>
      p == End(q, outcome).(prompt := prompt, completion := completion, busy := busy)
    case FreeSlot(_, _) => p == q.(stage := Freed)
    case Settle(_, _) => p == q.(stage := Settled)
    case DropBody(_) => p == q.(stage := Done)
    case _ => true
  }

  lemma LimiterRecord(w: World, e: Event, lim: L.KeyLimits)
    requires Enabled(w, e) && (e.AdmitKey? || e.CheckBudgets? || e.Settle?)
    ensures var m := Do(w, e, lim);
            |m.reqs| == |w.reqs| && m.reqs == w.reqs[e.r := m.reqs[e.r]] && Becomes(w.reqs[e.r], m.reqs[e.r], e)
  {
  }

  lemma QueueRecord(w: World, e: Event, lim: L.KeyLimits)
    requires Enabled(w, e) && (e.Join? || e.Wake? || e.GiveUp? || e.Depart? || e.FreeSlot?)
    ensures var m := Do(w, e, lim);
            |m.reqs| == |w.reqs| && m.reqs == w.reqs[e.r := m.reqs[e.r]] && Becomes(w.reqs[e.r], m.reqs[e.r], e)
  {
  }

  lemma PlainRecord(w: World, e: Event, lim: L.KeyLimits)
    requires Enabled(w, e)
    requires e.ReadBody? || e.HoldAudio? || e.Abandon? || e.Dispatch? || e.Answer? || e.DropBody?
    ensures var m := Do(w, e, lim);
            |m.reqs| == |w.reqs| && m.reqs == w.reqs[e.r := m.reqs[e.r]] && Becomes(w.reqs[e.r], m.reqs[e.r], e)
  {
  }

  /** An event about one request changes one record. */
  lemma OneRecord(w: World, e: Event, lim: L.KeyLimits)
    requires Enabled(w, e) && Subject(e).Some?
    ensures var r, m := Subject(e).value, Do(w, e, lim);
            r < |w.reqs| && |m.reqs| == |w.reqs| && m.reqs == w.reqs[r := m.reqs[r]]
            && Becomes(w.reqs[r], m.reqs[r], e)
  {
    if e.AdmitKey? || e.CheckBudgets? || e.Settle? {
      LimiterRecord(w, e, lim);
    } else if e.Join? || e.Wake? || e.GiveUp? || e.Depart? || e.FreeSlot? {
      QueueRecord(w, e, lim);
    } else {
      PlainRecord(w, e, lim);
    }
  }

  /** And of what was said of the others nothing. */
  lemma OthersStay(past: seq<Event>, e: Event, x: nat)
    requires Subject(e) != Some(x)
    ensures var now := past + [e];
            && Ending(now, x) == Ending(past, x) && TimedOut(now, x) == TimedOut(past, x)
            && Sent(now, x) == Sent(past, x)
  {
    Snoc(past, e);
  }

  lemma AboutItself(past: seq<Event>, e: Event, r: nat)
    requires Subject(e) == Some(r)
    ensures var now := past + [e];
            && Ending(now, r) == (if e.Depart? || e.Answer? then Some(e) else Ending(past, r))
            && TimedOut(now, r) == (if e.GiveUp? then e.timedOut else TimedOut(past, r))
            && Sent(now, r) == (e.Dispatch? || Sent(past, r))
  {
    Snoc(past, e);
  }

  /** The stage a record is in when an event comes to it, and that a waiter the timeout took is not woken. */
  predicate Ready(q: Request, e: Event) {
    match e
    case AdmitKey(_, _) => q.stage == New
    case ReadBody(_) => q.stage == Admitted
    case CheckBudgets(_, _, _, _) => q.stage == Buffered
    case HoldAudio(_, _) => q.stage == Buffered
    case Join(_, _) => q.stage == Sized
    case Wake(_, _) => q.stage == Queued && !q.timedOut
    case GiveUp(_, _) => q.stage == Queued
    case Depart(_, _) => q.stage == Queued
    case Abandon(_) => Ejectable(q.stage)
    case Dispatch(_) => q.stage == Running
    case Answer(_, _, _, _, _) => q.stage == Running
    case FreeSlot(_, _) => q.stage == Ended
    case Settle(_, _) => q.stage == Freed
    case DropBody(_) => q.stage == Settled
    case _ => true
  }

  lemma IsReady(w: World, e: Event)
    requires Enabled(w, e) && Subject(e).Some? && Fate(w.reqs[Subject(e).value], w.queue.phase)
    ensures Ready(w.reqs[Subject(e).value], e)
  {
  }

  function EndingBy(e: Event, ending: Option<Event>): Option<Event> {
    if e.Depart? || e.Answer? then Some(e) else ending
  }

  lemma EarlyToldAs(q: Request, p: Request, e: Event, ending: Option<Event>, timedOut: bool, sent: bool)
    requires e.AdmitKey? || e.ReadBody? || e.CheckBudgets? || e.HoldAudio? || e.Join? || e.Abandon?
    requires Subject(e).Some? && Ready(q, e) && Becomes(q, p, e) && ToldAs(q, ending, timedOut, sent)
    ensures ToldAs(p, EndingBy(e, ending), if e.GiveUp? then e.timedOut else timedOut, e.Dispatch? || sent)
    ensures p.kind == q.kind && p.stream == q.stream
  {
  }

  lemma LaterToldAs(q: Request, p: Request, e: Event, ending: Option<Event>, timedOut: bool, sent: bool)
    requires !(e.AdmitKey? || e.ReadBody? || e.CheckBudgets? || e.HoldAudio? || e.Join? || e.Abandon?)
    requires Subject(e).Some? && Ready(q, e) && Becomes(q, p, e) && ToldAs(q, ending, timedOut, sent)
    ensures ToldAs(p, EndingBy(e, ending), if e.GiveUp? then e.timedOut else timedOut, e.Dispatch? || sent)
    ensures p.kind == q.kind && p.stream == q.stream
  {
  }

  lemma BecomesToldAs(q: Request, p: Request, e: Event, ending: Option<Event>, timedOut: bool, sent: bool)
    requires Subject(e).Some? && Ready(q, e) && Becomes(q, p, e) && ToldAs(q, ending, timedOut, sent)
    ensures ToldAs(p, EndingBy(e, ending), if e.GiveUp? then e.timedOut else timedOut, e.Dispatch? || sent)
    ensures p.kind == q.kind && p.stream == q.stream
  {
    if e.AdmitKey? || e.ReadBody? || e.CheckBudgets? || e.HoldAudio? || e.Join? || e.Abandon? {
      EarlyToldAs(q, p, e, ending, timedOut, sent);
    } else {
      LaterToldAs(q, p, e, ending, timedOut, sent);
    }
  }

  lemma BecomesTold(q: Request, p: Request, e: Event, past: seq<Event>, r: nat)
    requires Subject(e) == Some(r) && Ready(q, e) && Becomes(q, p, e) && Told(q, past, r)
    ensures Told(p, past + [e], r) && p.kind == q.kind && p.stream == q.stream
  {
    AboutItself(past, e, r);
    BecomesToldAs(q, p, e, Ending(past, r), TimedOut(past, r), Sent(past, r));
  }

  lemma OtherTold(reqs: seq<Request>, past: seq<Event>, e: Event, x: nat)
    requires AllTold(reqs, past) && Subject(e) != Some(x)
    ensures if x < |reqs| then Told(reqs[x], past + [e], x) else Untold(past + [e], x)
  {
    OthersStay(past, e, x);
    assert x >= |reqs| ==> Untold(past, x);
  }

  lemma AboutTold(w: World, e: Event, past: seq<Event>, lim: L.KeyLimits)
    requires Enabled(w, e) && Subject(e).Some? && AllTold(w.reqs, past) && Fates(w.reqs, w.queue.phase)
    ensures AllTold(Do(w, e, lim).reqs, past + [e])
  {
    var r, m, now := Subject(e).value, Do(w, e, lim), past + [e];
    OneRecord(w, e, lim);
    Snoc(past, e);
    IsReady(w, e);
    BecomesTold(w.reqs[r], m.reqs[r], e, past, r);
    assert Calls(now) == Calls(past) + [];
    forall x: nat | x != r
      ensures if x < |m.reqs| then Told(m.reqs[x], now, x) else Untold(now, x)
    {
      OtherTold(w.reqs, past, e, x);
    }
  }

  lemma ElseTold(w: World, e: Event, past: seq<Event>, lim: L.KeyLimits)
    requires Enabled(w, e) && Subject(e).None? && AllTold(w.reqs, past)
    ensures AllTold(Do(w, e, lim).reqs, past + [e])
  {
    var m, now := Do(w, e, lim), past + [e];
    Snoc(past, e);
    assert !e.Arrive? ==> Calls(now) == Calls(past) + [];
    forall x: nat
      ensures if x < |m.reqs| then Told(m.reqs[x], now, x) else Untold(now, x)
    {
      OtherTold(w.reqs, past, e, x);
    }
  }

  // ---- and its place in the queue ----

  /** A step that leaves the queue alone leaves a request whose place is decided over, with its outcome. */
  lemma StillFates(w: World, e: Event, lim: L.KeyLimits, r: nat)
    requires Owned(w) && Enabled(w, e) && Subject(e) == Some(r) && Fates(w.reqs, w.queue.phase)
    requires e.AdmitKey? || e.ReadBody? || e.CheckBudgets? || e.HoldAudio? || e.Abandon? || e.Dispatch? || e.Answer?
             || e.Settle? || e.DropBody?
    ensures Fates(Do(w, e, lim).reqs, Do(w, e, lim).queue.phase)
  {
    OneRecord(w, e, lim);
    StillQueue(w, e, lim, r);
    Record(w, r);
    StillFate(w, e, lim, r);
  }

  lemma StillQueue(w: World, e: Event, lim: L.KeyLimits, r: nat)
    requires Enabled(w, e) && Subject(e) == Some(r)
    requires e.AdmitKey? || e.ReadBody? || e.CheckBudgets? || e.HoldAudio? || e.Abandon? || e.Dispatch? || e.Answer?
             || e.Settle? || e.DropBody?
    ensures Do(w, e, lim).queue == w.queue
  {
  }

  lemma StillFate(w: World, e: Event, lim: L.KeyLimits, r: nat)
    requires Enabled(w, e) && Subject(e) == Some(r)
    requires Taken(w.reqs[r]) && InPlace(w.reqs[r], w.queue.phase) && Fate(w.reqs[r], w.queue.phase)
    requires e.AdmitKey? || e.ReadBody? || e.CheckBudgets? || e.HoldAudio? || e.Abandon? || e.Dispatch? || e.Answer?
             || e.Settle? || e.DropBody?
    ensures r < |Do(w, e, lim).reqs| && Fate(Do(w, e, lim).reqs[r], w.queue.phase)
  {
    OneRecord(w, e, lim);
  }

  /** The tickets of two requests are two. */
  lemma OtherTicket(w: World, r: nat, x: nat)
    requires Owned(w) && r < |w.reqs| && x < |w.reqs| && x != r && w.reqs[r].ticket.Some?
    ensures w.reqs[x].ticket != w.reqs[r].ticket
  {
  }

  /** A step of the queue about one request's ticket. */
  lemma MovedFates(w: World, m: World, r: nat, phase: Q.Phase)
    requires Owned(w) && Fates(w.reqs, w.queue.phase) && r < |w.reqs| && w.reqs[r].ticket.Some?
    requires |m.reqs| == |w.reqs| && m.reqs == w.reqs[r := m.reqs[r]]
    requires m.queue.phase == w.queue.phase[w.reqs[r].ticket.value := phase] && Fate(m.reqs[r], m.queue.phase)
    ensures Fates(m.reqs, m.queue.phase)
  {
    forall x | 0 <= x < |m.reqs| ensures Fate(m.reqs[x], m.queue.phase) {
      if x != r {
        OtherTicket(w, r, x);
        assert m.reqs[x] == w.reqs[x] && Fate(w.reqs[x], w.queue.phase);
      }
    }
  }

  lemma QueuedFates(w: World, e: Event, lim: L.KeyLimits, r: nat)
    requires Owned(w) && Enabled(w, e) && Subject(e) == Some(r) && Fates(w.reqs, w.queue.phase)
    requires e.Wake? || e.GiveUp? || e.Depart?
    ensures Fates(Do(w, e, lim).reqs, Do(w, e, lim).queue.phase)
  {
    var t, m := w.reqs[r].ticket.value, Do(w, e, lim);
    var q := match e
             case Wake(_, left) => Q.Wake(t, left)
             case GiveUp(_, _) => Q.GiveUp(t)
             case Depart(_, cap) => Q.Depart(t, cap);
    OneRecord(w, e, lim);
    QueueShape(w.queue, q);
    assert m.queue == Q.Do(w.queue, q);
    QueuedFate(w, e, lim, r);
    MovedFates(w, m, r, m.queue.phase[t]);
  }

  lemma QueuedFate(w: World, e: Event, lim: L.KeyLimits, r: nat)
    requires Enabled(w, e) && Subject(e) == Some(r) && Fate(w.reqs[r], w.queue.phase)
    requires e.Wake? || e.GiveUp? || e.Depart?
    ensures r < |Do(w, e, lim).reqs| && Fate(Do(w, e, lim).reqs[r], Do(w, e, lim).queue.phase)
  {
    OneRecord(w, e, lim);
  }

  lemma FreedFates(w: World, r: nat, cap: int, lim: L.KeyLimits)
    requires Owned(w) && Enabled(w, FreeSlot(r, cap)) && Fates(w.reqs, w.queue.phase)
    ensures Fates(Do(w, FreeSlot(r, cap), lim).reqs, Do(w, FreeSlot(r, cap), lim).queue.phase)
  {
    Record(w, r);
    FreeingRecord(w.reqs[r], w.queue, cap);
    FreeSlotShape(w, r, cap, lim);
    var m := Freeing(w, r, cap, w.reqs[r].(stage := Freed));
    if w.reqs[r].slot {
      var t := w.reqs[r].ticket.value;
      QueueShape(w.queue, Q.Release(t, cap));
      ReleasedPhase(w.queue, t, cap);
      MovedFates(w, m, r, m.queue.phase[t]);
    }
  }

  lemma ReleasedPhase(s: Q.Sys, t: nat, cap: int)
    requires Q.Enabled(s, Q.Release(t, cap))
    ensures var m := Q.Do(s, Q.Release(t, cap)); t in m.phase && m.phase[t] == Q.Gone(Served)
  {
  }

  lemma JoinedFates(w: World, r: nat, cap: int, lim: L.KeyLimits)
    requires Owned(w) && Enabled(w, Join(r, cap)) && Fates(w.reqs, w.queue.phase) && !w.reqs[r].timedOut
    ensures Fates(Do(w, Join(r, cap), lim).reqs, Do(w, Join(r, cap), lim).queue.phase)
  {
    JoinPhase(w, cap);
    OneRecord(w, Join(r, cap), lim);
    JoinedFate(w, r, cap);
    BesideNewcomer(w, Joining(w, r, cap), r);
  }

  lemma BesideNewcomer(w: World, m: World, r: nat)
    requires Owned(w) && Fates(w.reqs, w.queue.phase) && r < |w.reqs| == |m.reqs| && m.reqs == w.reqs[r := m.reqs[r]]
    requires w.queue.next in m.queue.phase
    requires m.queue.phase == w.queue.phase[w.queue.next := m.queue.phase[w.queue.next]]
    requires Fate(m.reqs[r], m.queue.phase)
    ensures Fates(m.reqs, m.queue.phase)
  {
    forall x | 0 <= x < |m.reqs| ensures Fate(m.reqs[x], m.queue.phase) {
      if x != r {
        assert m.reqs[x] == w.reqs[x] && Fate(w.reqs[x], w.queue.phase);
        assert w.reqs[x].ticket.Some? ==> w.reqs[x].ticket.value < w.queue.next;
      }
    }
  }

  lemma JoinedFate(w: World, r: nat, cap: int)
    requires Enabled(w, Join(r, cap)) && !w.reqs[r].timedOut
    ensures var m := Joining(w, r, cap);
            r < |m.reqs| && Fate(m.reqs[r], m.queue.phase) && m.queue == Q.Do(w.queue, Q.Enter(cap))
  {
    JoinPhase(w, cap);
  }

  lemma OtherFates(w: World, q: Q.Event, lim: L.KeyLimits)
    requires Owned(w) && Enabled(w, OtherQueues(q)) && Fates(w.reqs, w.queue.phase)
    ensures Fates(Do(w, OtherQueues(q), lim).reqs, Do(w, OtherQueues(q), lim).queue.phase)
  {
    var t := if q.Enter? then w.queue.next else q.id;
    var s := Q.Do(w.queue, q);
    if q.Enter? {
      JoinPhase(w, q.cap);
    } else {
      QueueShape(w.queue, q);
    }
    assert s.phase == w.queue.phase[t := s.phase[t]];
    forall x | 0 <= x < |w.reqs| ensures Fate(w.reqs[x], s.phase) {
      assert Fate(w.reqs[x], w.queue.phase);
      assert w.reqs[x].ticket.Some? ==> w.reqs[x].ticket.value != t;
    }
  }

  lemma StepFates(w: World, e: Event, past: seq<Event>, lim: L.KeyLimits)
    requires Owned(w) && Enabled(w, e) && Fates(w.reqs, w.queue.phase) && AllTold(w.reqs, past)
    ensures Fates(Do(w, e, lim).reqs, Do(w, e, lim).queue.phase)
  {
    if e.OtherQueues? {
      OtherFates(w, e.q, lim);
    } else if e.Arrive? || e.OtherBuffers? {
    } else if e.Join? {
      assert Told(w.reqs[e.r], past, e.r);
      JoinedFates(w, e.r, e.cap, lim);
    } else if e.Wake? || e.GiveUp? || e.Depart? {
      QueuedFates(w, e, lim, e.r);
    } else if e.FreeSlot? {
      FreedFates(w, e.r, e.cap, lim);
    } else {
      StillFates(w, e, lim, Subject(e).value);
    }
  }

  // ---- every run ----

  lemma StepTold(w: World, e: Event, past: seq<Event>, lim: L.KeyLimits)
    requires Owned(w) && Enabled(w, e) && Fates(w.reqs, w.queue.phase) && AllTold(w.reqs, past)
    ensures AllTold(Do(w, e, lim).reqs, past + [e]) && Fates(Do(w, e, lim).reqs, Do(w, e, lim).queue.phase)
  {
    StepFates(w, e, past, lim);
    if Subject(e).Some? {
      AboutTold(w, e, past, lim);
    } else {
      ElseTold(w, e, past, lim);
    }
  }

  lemma {:induction false} RunTold(w: World, past: seq<Event>, es: seq<Event>, lim: L.KeyLimits)
    requires Owned(w) && Fates(w.reqs, w.queue.phase) && AllTold(w.reqs, past) && Runs(w, es, lim)
    ensures var m := Run(w, es, lim); AllTold(m.reqs, past + es) && Fates(m.reqs, m.queue.phase)
    decreases es
  {
    if es == [] {
      assert past + es == past;
    } else {
      StepTold(w, es[0], past, lim);
      OwnedKept(w, es[0], lim);
      RunTold(Do(w, es[0], lim), past + [es[0]], es[1..], lim);
      assert es == [es[0]] + es[1..];
      Assoc(past, [es[0]], es[1..]);
    }
  }

  lemma FromFresh(now: int, seeded: nat, es: seq<Event>, lim: L.KeyLimits)
    requires Runs(Fresh(now, seeded), es, lim)
    ensures var m := Run(Fresh(now, seeded), es, lim); AllTold(m.reqs, es) && Fates(m.reqs, m.queue.phase)
  {
    Begins(now, seeded, lim);
    RunTold(Fresh(now, seeded), [], es, lim);
    assert [] + es == es;
  }

  // ---- the promises ----

  /** A request whose place in the line was lost ends as that, and one that found the line full as refused. */
  lemma LineDecides(now: int, seeded: nat, es: seq<Event>, lim: L.KeyLimits, r: nat)
    requires Runs(Fresh(now, seeded), es, lim) && r < |Run(Fresh(now, seeded), es, lim).reqs|
    ensures var w := Run(Fresh(now, seeded), es, lim);
            var q := w.reqs[r];
            q.ticket.Some? && q.ticket.value in w.queue.phase ==>
              && (w.queue.phase[q.ticket.value] == Q.Gone(QueueLost) ==> Over(q) && q.outcome == QueueLost)
              && (w.queue.phase[q.ticket.value] == Q.Gone(Rejected) ==> Over(q) && q.outcome == Rejected)
  {
    FromFresh(now, seeded, es, lim);
    var w := Run(Fresh(now, seeded), es, lim);
    assert Fate(w.reqs[r], w.queue.phase);
  }

  /** Whether the events of a run make a request count against RPM. */
  function CountsBy(es: seq<Event>, r: nat, kind: Kind): bool {
    match kind
    case Other => false
    case Message =>
      (match Ending(es, r)
       case None => false
       case Some(e) => if e.Answer? then e.outcome in {EngineErr, Served, Cut} else TimedOut(es, r))
    case Audio =>
      (match Ending(es, r)
       case None => Sent(es, r)
       case Some(e) => if e.Answer? then !e.busy && Sent(es, r) else Sent(es, r) || TimedOut(es, r))
  }

  /** What they make it cost, `held` being its reservation. */
  function CostsBy(es: seq<Event>, r: nat, call: Call, held: int): int {
    match Ending(es, r)
    case None => 0
    case Some(e) =>
      if call.kind != Message || !e.Answer? then 0
      else if e.outcome == Served || (e.outcome == Cut && call.stream) then e.prompt + e.completion
      else if e.outcome == Cut then held
      else 0
  }

  /**
   What a settled request leaves behind is decided by what happened to it: a message counts exactly when
   its engine was asked or its wait in the line timed out; an audio call when its engine was sent it and
   did not turn it away as busy, or its wait timed out; and a message alone is charged, what its answer
   reports, or its whole reservation when its client left without a stream.
   */
  lemma EventsDecide(now: int, seeded: nat, es: seq<Event>, lim: L.KeyLimits, r: nat)
    requires Runs(Fresh(now, seeded), es, lim) && r < |Run(Fresh(now, seeded), es, lim).reqs|
    requires var q := Run(Fresh(now, seeded), es, lim).reqs[r]; q.adm.Some? && q.stage in {Settled, Done}
    ensures var w := Run(Fresh(now, seeded), es, lim);
            var q := w.reqs[r];
            var n := q.adm.value - 1;
            && r < |Calls(es)| && 0 <= n < |w.ledger.hist| && |w.payers| == |w.ledger.paid|
            && w.ledger.hist[n].counted == CountsBy(es, r, Calls(es)[r].kind)
            && (r in w.payers <==> CostsBy(es, r, Calls(es)[r], q.held) > 0)
            && (forall k :: 0 <= k < |w.payers| && w.payers[k] == r ==>
                  w.ledger.paid[k].amount == CostsBy(es, r, Calls(es)[r], q.held))
  {
    FromFresh(now, seeded, es, lim);
    OnlyTheTableRemains(now, seeded, es, lim, r);
    var w := Run(Fresh(now, seeded), es, lim);
    RowIs(w.reqs[r], es, r);
  }

  lemma RowIs(q: Request, es: seq<Event>, r: nat)
    requires Told(q, es, r) && Over(q)
    ensures Counted(q) == CountsBy(es, r, q.kind) && Charge(q) == CostsBy(es, r, Call(q.kind, q.stream), q.held)
  {
  }

  // ---- and what lets a request pass ----

  /** The least the request can take fits both ceilings beside what is held and what the history has charged. */
  predicate Affords(l: G.Ledger, t: int, lim: L.KeyLimits, need: int) {
    && (lim.tpm <= 0 || G.PaidSince(l.paid, t - L.WINDOW) + G.Held(l.live) + need <= lim.tpm)
    && (lim.daily <= 0 ||
        (if L.DayOf(t) == l.seedDay then l.seeded else 0) + G.PaidSince(l.paid, L.DayOf(t) - 1)
        + G.Held(l.live) + need <= lim.daily)
  }

  predicate RefusedNow(q: Request) {
    q.stage == Ended && q.outcome == Rejected
  }

  /** What becomes of a request at a stage that can refuse it. */
  predicate Passes(w: World, e: Event, q: Request, lim: L.KeyLimits) {
    match e
    case AdmitKey(_, t) =>
      if T.Full(w.ledger, lim, false) || T.Crowded(w.ledger, t, lim) then RefusedNow(q) else q.stage == Admitted
    case CheckBudgets(_, t, prompt, out) =>
      if Affords(w.ledger, t, lim, prompt + L.FloorFor(out)) then q.stage == Sized else RefusedNow(q)
    case HoldAudio(_, ok) => if ok then q.stage == Sized else RefusedNow(q)
    case Join(_, cap) =>
      (match QueueTheorems.FateOf(w.queue.line, Q.Limit(cap))
       case GetsSlot => q.stage == Running && q.slot
       case TurnedAway => RefusedNow(q)
       case Waits => q.stage == Queued)
    case _ => true
  }

  lemma AdmitPasses(w: World, r: nat, t: int, lim: L.KeyLimits)
    requires G.Inv(w.ledger, lim) && Enabled(w, AdmitKey(r, t))
    ensures Passes(w, AdmitKey(r, t), Do(w, AdmitKey(r, t), lim).reqs[r], lim)
  {
    T.AdmissionOutcome(w.ledger, t, lim, false);
  }

  lemma BudgetPasses(w: World, r: nat, t: int, prompt: int, out: int, lim: L.KeyLimits)
    requires G.Inv(w.ledger, lim) && Owned(w) && Enabled(w, CheckBudgets(r, t, prompt, out))
    ensures Passes(w, CheckBudgets(r, t, prompt, out), Do(w, CheckBudgets(r, t, prompt, out), lim).reqs[r], lim)
  {
    ReservationStands(w, r, t, prompt, out, lim);
    T.ReservedExactly(w.ledger, w.ledger.live[Live(w, w.reqs[r].adm.value)], t, lim, prompt, out);
    SizedIfGranted(w, r, t, prompt, out, lim);
  }

  lemma ReservationStands(w: World, r: nat, t: int, prompt: int, out: int, lim: L.KeyLimits)
    requires Owned(w) && Enabled(w, CheckBudgets(r, t, prompt, out))
    ensures w.reqs[r].adm.Some?
    ensures G.Enabled(w.ledger, G.Reserving(t, Live(w, w.reqs[r].adm.value), prompt, out))
  {
    CheckBudgetsKeeps(w, r, t, prompt, out, lim);
  }

  lemma SizedIfGranted(w: World, r: nat, t: int, prompt: int, out: int, lim: L.KeyLimits)
    requires Enabled(w, CheckBudgets(r, t, prompt, out)) && w.reqs[r].adm.Some?
    requires G.Enabled(w.ledger, G.Reserving(t, Live(w, w.reqs[r].adm.value), prompt, out))
    ensures var q := Do(w, CheckBudgets(r, t, prompt, out), lim).reqs[r];
            var a := w.ledger.live[Live(w, w.reqs[r].adm.value)];
            if L.Reserve(w.ledger.key, a, t, lim, prompt, out).1.Granted? then q.stage == Sized else RefusedNow(q)
  {
  }

  lemma JoinPasses(w: World, r: nat, cap: int, lim: L.KeyLimits)
    requires Q.Inv(w.queue) && Enabled(w, Join(r, cap))
    ensures Passes(w, Join(r, cap), Do(w, Join(r, cap), lim).reqs[r], lim)
  {
    QueueTheorems.NewcomerFate(w.queue, cap);
  }

  /**
   In every reachable state a request passes a stage exactly when what it asks for is there: a slot of its
   key and a place in the minute by the whole history; its prompt and floor in the minute and the day, or
   its hold on an audio meter; and at the queue a slot beyond those who wait, or a place in a line that is
   not full.
   */
  lemma PassesExactly(now: int, seeded: nat, es: seq<Event>, e: Event, lim: L.KeyLimits)
    requires Runs(Fresh(now, seeded), es, lim) && Enabled(Run(Fresh(now, seeded), es, lim), e)
    requires e.AdmitKey? || e.CheckBudgets? || e.HoldAudio? || e.Join?
    ensures var w := Run(Fresh(now, seeded), es, lim); Passes(w, e, Do(w, e, lim).reqs[e.r], lim)
  {
    PipelineIsSound(now, seeded, es, lim);
    var w := Run(Fresh(now, seeded), es, lim);
    match e {
      case AdmitKey(r, t) => AdmitPasses(w, r, t, lim);
      case CheckBudgets(r, t, prompt, out) => BudgetPasses(w, r, t, prompt, out, lim);
      case HoldAudio(_, _) =>
      case Join(r, cap) => JoinPasses(w, r, cap, lim);
    }
  }
}
