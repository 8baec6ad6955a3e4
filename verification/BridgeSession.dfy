/**
 The host's side of one bridge connection as functions on values: the dispatcher that alone owns
 the job map, and the handler goroutine of a job, whose response writer blocks on one
 acknowledgement at a time. The classes in BridgeClient.dfy are proved against these functions.
 */
module BridgeSession {
  import opened Prelude
  import opened BridgeFrames

  /** How a handler took its leave of the Worker. */
  datatype Said = Nothing | SaidEnd | SaidCancel

  /**
   The response writer. `head` records that the response frame really went out (a head over the
   frame cap sets `err` instead), `rest` is what an unfinished `Write` has still to buffer,
   `awaiting` that `flush` holds the lock until its chunk is acknowledged, `closing` that `finish`
   has begun.
   */
  datatype Writer = Writer(
    sent: bool, head: bool, buf: Bytes, rest: Bytes, err: bool, awaiting: bool, closing: bool, said: Said)

  /** `acked` is the one-place ack channel, `stopped` the request context, `done` the closed channel. */
  datatype Job =
    | Receiving(meta: Meta, body: Bytes)
    | Running(meta: Meta, body: Bytes, w: Writer, acked: bool, stopped: bool, settling: bool, done: bool)

  datatype Session = Session(capacity: int, limit: int, negotiated: bool, jobs: map<Id, Job>)

  /** `Blocked` is the dispatcher waiting for a handler to return, `Fault` the end of the session. */
  datatype Reaction = Go(h: Session, sent: seq<HFrame>) | Blocked | Fault

  const FreshWriter := Writer(false, false, [], [], false, false, false, Nothing)

  function Connect(capacity: int): Session {
    Session(capacity, 1, false, map[])
  }

  function OnKeysReady(h: Session, slots: Option<int>): Reaction {
    var echoed := if slots.Some? then slots.value else 0;
    var accepted := Max(1, echoed);
    if echoed < 0 || accepted > Min(MAX_SLOTS, h.capacity) || (h.negotiated && accepted != h.limit) then Fault
    else Go(h.(limit := accepted, negotiated := true), [])
  }

  /** One turn of the dispatcher on a frame it has read. */
  function Dispatch(h: Session, f: WFrame): Reaction {
    if f.KeysReady? then OnKeysReady(h, f.slots)
    else if f.Pong? then Go(h, [])
    else if f.Request? then
      if !h.negotiated || |h.jobs| >= h.limit || f.id in h.jobs || !GoodId(f.id) || !AdmissibleMeta(f.meta) then Fault
      else Go(h.(jobs := h.jobs[f.id := Receiving(f.meta, [])]), [])
    else if f.id !in h.jobs then Fault
    else
      var j := h.jobs[f.id];
      match f
      case Ack(id) =>
        if j.Receiving? || j.acked then Fault
        else Go(h.(jobs := h.jobs[id := j.(acked := true)]), [])
      case Body(id, data) =>
        if j.Running? || |data| > CHUNK || |j.body| + |data| > MAX_BODY then Fault
        else Go(h.(jobs := h.jobs[id := Receiving(j.meta, j.body + data)]), [])
      case End(id) =>
        if j.Running? || !EscapesParse(j.meta.path) then Fault
        else Go(h.(jobs := h.jobs[id := Running(j.meta, j.body, FreshWriter, false, false, false, false)]), [])
      case Cancel(id) =>
        if j.Receiving? then Go(h.(jobs := h.jobs - {id}), [HFrame.Ready(id)])
        else if j.settling then Go(h, [])
        else Go(h.(jobs := h.jobs[id := j.(settling := true, stopped := true)]), [])
      case Ready(id) =>
        if j.Receiving? || j.settling then Fault
        else if !j.done then Blocked
        else Go(h.(jobs := h.jobs - {id}), [])
  }

  /** A cancelled handler has been joined: its id leaves the map and the Worker is told. */
  predicate CanSettle(h: Session, id: Id) {
    id in h.jobs && h.jobs[id].Running? && h.jobs[id].settling && h.jobs[id].done
  }

  function Settle(h: Session, id: Id): Reaction
    requires CanSettle(h, id)
  {
    Go(h.(jobs := h.jobs - {id}), [HFrame.Ready(id)])
  }

  /** What a handler goroutine can do next; `oversize` is a response head over the frame cap. */
  datatype Move =
    | Head(status: int, oversize: bool)   // WriteHeader
    | Put(data: Bytes, oversize: bool)    // Write, up to its loop
    | Fill                                // one turn of the loop in Write
    | Tick                                // the 100 ms flush
    | TakeAck | Give | TimeOut            // the three ends of the wait in flush
    | Finish(oversize: bool)              // finish, up to its flush
    | Leave                               // finish, after its flush
    | Return                              // close(done)

  /** The writer's lock is free: no `Write` in progress, no `flush` waiting. */
  predicate Unlocked(w: Writer) {
    !w.awaiting && w.rest == []
  }

  predicate CanMove(j: Job, m: Move) {
    && j.Running? && !j.done
    && var w := j.w;
       match m
       case Head(status, _) => Unlocked(w) && !w.closing && 200 <= status <= 599
       case Put(_, _) => Unlocked(w) && !w.closing
       case Fill => w.rest != [] && !w.awaiting
       case Tick => Unlocked(w) && !w.closing
       case TakeAck => w.awaiting && j.acked
       case Give => w.awaiting && j.stopped
       case TimeOut => w.awaiting
       case Finish(_) => Unlocked(w) && !w.closing
       case Leave => w.closing && !w.awaiting && w.said == Nothing
       case Return => w.said != Nothing
  }

  /** `start`: the response head goes out at most once. */
  function Start(id: Id, w: Writer, status: int, oversize: bool): (Writer, seq<HFrame>) {
    if w.sent then (w, [])
    else if oversize then (w.(sent := true, err := true), [])
    else (w.(sent := true, head := true), [Response(id, status)])
  }

  /** `flush`, up to its wait. */
  function Flush(id: Id, w: Writer): (Writer, seq<HFrame>) {
    if w.buf == [] || w.err then (w, [])
    else (w.(buf := [], awaiting := true), [Data(id, w.buf)])
  }

  /** One turn of the loop in `Write`. */
  function FillOnce(id: Id, w: Writer): (Writer, seq<HFrame>)
    requires |w.buf| <= CHUNK
  {
    if w.err then (w.(rest := []), [])
    else
      var take := Min(|w.rest|, CHUNK - |w.buf|);
      var filled := w.(buf := w.buf + w.rest[..take], rest := w.rest[take..]);
      if |filled.buf| == CHUNK then Flush(id, filled) else (filled, [])
  }

  function MoveJob(id: Id, j: Job, m: Move): (Job, seq<HFrame>)
    requires CanMove(j, m) && |j.w.buf| <= CHUNK
  {
    match m
    case Head(status, oversize) =>
      var (w, out) := Start(id, j.w, status, oversize);
      (j.(w := w), out)
    case Put(data, oversize) =>
      var (w, out) := Start(id, j.w, 200, oversize);
      (j.(w := w.(rest := if w.err then [] else data)), out)
    case Fill =>
      var (w, out) := FillOnce(id, j.w);
      (j.(w := w), out)
    case Tick =>
      var (w, out) := Flush(id, j.w);
      (j.(w := w), out)
    case TakeAck => (j.(acked := false, w := j.w.(awaiting := false)), [])
    case Give => (j.(w := j.w.(awaiting := false, err := true, rest := [])), [])
    case TimeOut => (j.(stopped := true, w := j.w.(awaiting := false, err := true, rest := [])), [])
    case Finish(oversize) =>
      var (w, out) := Start(id, j.w, 200, oversize);
      var (w', out') := Flush(id, w.(closing := true));
      (j.(w := w'), out + out')
    case Leave =>
      if j.w.err then (j.(stopped := true, w := j.w.(said := SaidCancel)), [HFrame.Cancel(id)])
      else (j.(w := j.w.(said := SaidEnd)), [HFrame.End(id)])
    case Return => (j.(done := true, stopped := true), [])
  }

  /** The bytes a move adds to what the handler has written. */
  function Written(j: Job, m: Move): Bytes
    requires CanMove(j, m)
  {
    if m.Put? && !Start("", j.w, 200, m.oversize).0.err then m.data else []
  }
}
