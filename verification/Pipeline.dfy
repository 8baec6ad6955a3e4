/**
 The requests of one key through one destination, end to end: what each stage takes, how it ends a
 request, and the one exit that gives everything back. Requests interleave freely, with each other
 and with those of other keys in the same queue; the stages of the exit are steps of their own.
 */
module Pipeline {
  import opened Prelude
  import opened Outcomes
  import L = Limits
  import G = LimitsLedger
  import Q = Queue

  datatype Stage = New | Admitted | Buffered | Sized | Queued | Running | Ended | Freed | Settled | Done

  /** A call that spends the key's message allowance, an audio call, or neither. */
  datatype Kind = Message | Audio | Other

  /**
   The record of one request: `adm` is the number of its admission and `held` the reservation on it,
   `ticket` its number in the queue; `dispatched` and `busy` are what an audio call knows of its engine.
   */
  datatype Request = Request(stage: Stage, kind: Kind, stream: bool, adm: Option<nat>, held: int,
                             ticket: Option<nat>, buffered: bool, slot: bool, outcome: Outcome, timedOut: bool,
                             dispatched: bool, busy: bool, prompt: int, completion: int)

  /**
   `admits`, `tickets` and `payers` say whose each admission, place in the queue and charge is; places
   of other keys' requests are nobody's here, and `others` of the buffered bodies are theirs.
   */
  datatype World = World(ledger: G.Ledger, queue: Q.Sys, bodies: int, reqs: seq<Request>,
                         admits: seq<nat>, tickets: seq<Option<nat>>, payers: seq<nat>, others: nat)

  /** The settle table: whether a request counts against RPM, and what it is charged. */
  function SettleRow(r: Request): (bool, int) {
    match r.kind
    case Other => (false, 0)
    case Audio => (!r.busy && (r.dispatched || (r.outcome == QueueLost && r.timedOut)), 0)
    case Message =>
      match r.outcome
      case QueueLost => (r.timedOut, 0)
      case EngineErr => (true, 0)
      case Served => (true, r.prompt + r.completion)
      case Cut => (true, if r.stream then r.prompt + r.completion else r.held)
      case _ => (false, 0)
  }

  function Counted(r: Request): bool {
    SettleRow(r).0
  }

  function Charge(r: Request): int {
    SettleRow(r).1
  }

  datatype Event =
    | Arrive(kind: Kind, stream: bool)
    | AdmitKey(r: nat, t: int)
    | ReadBody(r: nat)
    | CheckBudgets(r: nat, t: int, prompt: int, out: int)
    | HoldAudio(r: nat, ok: bool)   // an audio call's own meters decide
    | Join(r: nat, cap: int)
    | Wake(r: nat, left: bool)
    | GiveUp(r: nat, timedOut: bool)
    | Depart(r: nat, cap: int)
    | Abandon(r: nat)
    | Dispatch(r: nat)              // the engine has been sent the request
    | Answer(r: nat, outcome: Outcome, prompt: int, completion: int, busy: bool)
    | FreeSlot(r: nat, cap: int)
    | Settle(r: nat, t: int)
    | DropBody(r: nat)
    | OtherQueues(q: Q.Event)    // another key's request in the same queue
    | OtherBuffers(more: bool)   // and its body

  function Fresh(now: int, seeded: nat): World {
    World(G.Start(now, seeded), Q.Empty, 0, [], [], [], [], 0)
  }

  function IndexOf(live: seq<L.Admission>, num: nat): (i: nat)
    ensures i <= |live| && (i < |live| ==> live[i].num == num)
    ensures i == |live| ==> forall j :: 0 <= j < |live| ==> live[j].num != num
  {
    if live == [] then 0 else if live[0].num == num then 0 else 1 + IndexOf(live[1..], num)
  }

  function Live(w: World, num: nat): nat {
    IndexOf(w.ledger.live, num)
  }

  predicate At(w: World, r: nat, stage: Stage) {
    r < |w.reqs| && w.reqs[r].stage == stage
  }

  /** The stages before the queue, and the engine's, are those a request can be thrown out of. */
  predicate Ejectable(stage: Stage) {
    stage in {New, Admitted, Buffered, Sized, Running}
  }

  predicate Enabled(w: World, e: Event) {
    match e
    case Arrive(_, _) => true
    case AdmitKey(r, t) => At(w, r, New) && w.ledger.now <= t
    case ReadBody(r) => At(w, r, Admitted)
    case CheckBudgets(r, t, prompt, _) =>
      At(w, r, Buffered) && w.reqs[r].kind != Audio && w.ledger.now <= t && prompt >= 0
    case HoldAudio(r, _) => At(w, r, Buffered) && w.reqs[r].kind == Audio
    case Join(r, _) => At(w, r, Sized)
    case Wake(r, left) =>
      At(w, r, Queued) && w.reqs[r].ticket.Some? && Q.Enabled(w.queue, Q.Wake(w.reqs[r].ticket.value, left))
    case GiveUp(r, _) =>
      At(w, r, Queued) && w.reqs[r].ticket.Some? && Q.Enabled(w.queue, Q.GiveUp(w.reqs[r].ticket.value))
    case Depart(r, cap) =>
      At(w, r, Queued) && w.reqs[r].ticket.Some? && Q.Enabled(w.queue, Q.Depart(w.reqs[r].ticket.value, cap))
    case Abandon(r) => r < |w.reqs| && Ejectable(w.reqs[r].stage)
    case Dispatch(r) => At(w, r, Running)
    case Answer(r, outcome, _, _, _) => At(w, r, Running) && outcome in {QueueLost, EngineErr, Served, Cut}
    case FreeSlot(r, _) => At(w, r, Ended)
    case Settle(r, t) => At(w, r, Freed) && w.ledger.now <= t
    case DropBody(r) => At(w, r, Settled)
    case OtherQueues(q) =>
      q.Enter? || (q.id < |w.tickets| && w.tickets[q.id].None? && Q.Enabled(w.queue, q))
    case OtherBuffers(more) => more || w.others > 0
  }

  function Update(w: World, r: nat, q: Request): World
    requires r < |w.reqs|
  {
    w.(reqs := w.reqs[r := q])
  }

  function End(q: Request, outcome: Outcome): Request {
    q.(stage := Ended, outcome := outcome)
  }

  function Admitting(w: World, r: nat, t: int, lim: L.KeyLimits): World
    requires Enabled(w, AdmitKey(r, t))
  {
    var e := G.Admitting(t, false);
    var m := w.(ledger := G.Do(w.ledger, e, lim));
    if L.Admit(w.ledger.key, t, lim, false).1.Granted? then
      Update(m, r, w.reqs[r].(stage := Admitted, adm := Some(m.ledger.key.last))).(admits := w.admits + [r])
    else Update(m, r, End(w.reqs[r], Rejected))
  }

  /** A live admission that holds no reservation yet is what `reserve` is called on, once. */
  function Sizing(w: World, r: nat, t: int, prompt: int, out: int, lim: L.KeyLimits): World
    requires Enabled(w, CheckBudgets(r, t, prompt, out))
  {
    var q := w.reqs[r];
    var i := if q.adm.Some? then Live(w, q.adm.value) else |w.ledger.live|;
    var e := G.Reserving(t, i, prompt, out);
    if !G.Enabled(w.ledger, e) then w
    else
      var m := w.(ledger := G.Do(w.ledger, e, lim));
      if L.Reserve(w.ledger.key, w.ledger.live[i], t, lim, prompt, out).1.Granted?
      then Update(m, r, q.(stage := Sized, prompt := prompt, held := m.ledger.live[i].reserved))
      else Update(m, r, End(q, Rejected))
  }

  function Joining(w: World, r: nat, cap: int): World
    requires Enabled(w, Join(r, cap))
  {
    var t, q := w.queue.next, w.reqs[r].(ticket := Some(w.queue.next));
    var m := w.(queue := Q.Do(w.queue, Q.Enter(cap)), tickets := w.tickets + [Some(r)]);
    match m.queue.phase[t]
    case Holding => Update(m, r, q.(stage := Running, slot := true))
    case Waiting => Update(m, r, q.(stage := Queued))
    case _ => Update(m, r, End(q, Rejected))
  }

  function Settling(w: World, r: nat, t: int, lim: L.KeyLimits): World
    requires Enabled(w, Settle(r, t))
  {
    var q := w.reqs[r];
    var m := Update(w, r, q.(stage := Settled));
    if q.adm.None? then m
    else
      var i := Live(w, q.adm.value);
      if i == |w.ledger.live| then m
      else
        m.(ledger := G.Do(w.ledger, G.Settling(t, i, Counted(q), Charge(q)), lim),
           payers := if Charge(q) > 0 then w.payers + [r] else w.payers)
  }

  function Arrived(kind: Kind, stream: bool): Request {
    Request(New, kind, stream, None, 0, None, false, false, Unset, false, false, false, 0, 0)
  }

  function Do(w: World, e: Event, lim: L.KeyLimits): World
    requires Enabled(w, e)
  {
    match e
    case Arrive(kind, stream) => w.(reqs := w.reqs + [Arrived(kind, stream)])
    case AdmitKey(r, t) => Admitting(w, r, t, lim)
    case ReadBody(r) => Update(w, r, w.reqs[r].(stage := Buffered, buffered := true)).(bodies := w.bodies + 1)
    case CheckBudgets(r, t, prompt, out) => Sizing(w, r, t, prompt, out, lim)
    case HoldAudio(r, ok) => Update(w, r, if ok then w.reqs[r].(stage := Sized) else End(w.reqs[r], Rejected))
    case Join(r, cap) => Joining(w, r, cap)
    case Wake(r, left) =>
      var m := w.(queue := Q.Do(w.queue, Q.Wake(w.reqs[r].ticket.value, left)));
      if left then m else Update(m, r, w.reqs[r].(stage := Running, slot := true))
    case GiveUp(r, timedOut) =>
      Update(w.(queue := Q.Do(w.queue, Q.GiveUp(w.reqs[r].ticket.value))), r, w.reqs[r].(timedOut := timedOut))
    case Depart(r, cap) =>
      Update(w.(queue := Q.Do(w.queue, Q.Depart(w.reqs[r].ticket.value, cap))), r, End(w.reqs[r], QueueLost))
    case Abandon(r) => Update(w, r, End(w.reqs[r], Rejected))
    case Dispatch(r) => Update(w, r, w.reqs[r].(dispatched := true))
    case Answer(r, outcome, prompt, completion, busy) =>
      Update(w, r, End(w.reqs[r], outcome).(prompt := prompt, completion := completion, busy := busy))
    case FreeSlot(r, cap) =>
      var q := w.reqs[r];
      var m := Update(w, r, q.(stage := Freed));
      if q.slot && q.ticket.Some? && Q.Enabled(w.queue, Q.Release(q.ticket.value, cap))
      then m.(queue := Q.Do(w.queue, Q.Release(q.ticket.value, cap))) else m
    case Settle(r, t) => Settling(w, r, t, lim)
    case DropBody(r) =>
      Update(w, r, w.reqs[r].(stage := Done)).(bodies := w.bodies - (if w.reqs[r].buffered then 1 else 0))
    case OtherQueues(q) =>
      w.(queue := Q.Do(w.queue, q), tickets := if q.Enter? then w.tickets + [None] else w.tickets)
    case OtherBuffers(more) =>
      if more then w.(bodies := w.bodies + 1, others := w.others + 1)
      else w.(bodies := w.bodies - 1, others := w.others - 1)
  }

  predicate Runs(w: World, es: seq<Event>, lim: L.KeyLimits)
    decreases es
  {
    es == [] || (Enabled(w, es[0]) && Runs(Do(w, es[0], lim), es[1..], lim))
  }

  function Run(w: World, es: seq<Event>, lim: L.KeyLimits): World
    requires Runs(w, es, lim)
    decreases es
  {
    if es == [] then w else Run(Do(w, es[0], lim), es[1..], lim)
  }
}
