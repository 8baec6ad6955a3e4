/**
 Worker, session and the two FIFO channels between them, as one system. A step is one critical
 section of either program: a frame taken from a channel, a settled await, a timer or abort, a
 move of a handler goroutine, the dispatcher joining a cancelled handler, a key reload, a dropped
 socket, a handler of a session that is over returning, or a reconnect once all of them have.
 */
module BridgeSystem {
  import opened Prelude
  import opened BridgeFrames
  import W = BridgeWorker
  import S = BridgeSession

  /** `used` and `wrote` are history: ids ever admitted, and what each handler has written. */
  datatype Sys = Sys(
    w: W.Worker, h: S.Session, up: seq<WFrame>, down: seq<HFrame>,
    live: bool, fault: bool, used: set<Id>, wrote: map<Id, Bytes>)

  datatype Step =
    | Arrive(id: Id, meta: Meta, body: Bytes)   // an upload is complete
    | WorkerTurn                                // webSocketMessage on the next frame
    | WorkerResume(id: Id, ok: bool)            // its await settles
    | WorkerFail(id: Id, status: int)           // client abort, writer error or request deadline
    | HostTurn                                  // the dispatcher on the next frame
    | HostJoin(id: Id)                          // the dispatcher takes a joined handler
    | Handler(id: Id, move: S.Move)
    | Reload                                    // the key snapshot is published again
    | Heartbeat
    | Drop                                      // the socket closes, or a cancel is never confirmed
    | Unwind(id: Id)                            // the session is over, and a handler it stopped returns
    | Reconnect(capacity: int)

  function Wrote(s: Sys, id: Id): Bytes {
    if id in s.wrote then s.wrote[id] else []
  }

  /** A capacity the host can announce: `max(1, slots())`, exact as a JSON number. */
  predicate GoodCapacity(c: int) {
    1 <= c <= MAX_SAFE_INTEGER
  }

  predicate Enabled(s: Sys, step: Step) {
    match step
    case Arrive(id, meta, body) =>
      // The last conjunct is the epoch hypothesis: the upload was admitted on this negotiated socket.
      && id !in s.used && GoodId(id) && GoodMeta(meta) && |body| <= MAX_BODY
      && (s.live ==> s.w.slots.Some?)
    case WorkerTurn => s.live && s.down != []
    case WorkerResume(id, _) => s.live && id in s.w.active && s.w.active[id].awaiting != []
    case WorkerFail(_, _) => s.live
    case HostTurn => s.live && s.up != []
    case HostJoin(id) => s.live && S.CanSettle(s.h, id)
    case Handler(id, m) => s.live && id in s.h.jobs && S.CanMove(s.h.jobs[id], m) && |s.h.jobs[id].w.buf| <= CHUNK
    case Reload => s.live
    case Heartbeat => s.live
    case Drop => s.live
    case Unwind(id) => !s.live && id in s.h.jobs && s.h.jobs[id].Running? && !s.h.jobs[id].done
    case Reconnect(c) => GoodCapacity(c) && !s.live && Joined(s.h)
  }

  /** `handlers.Wait()`: a session ends only when all its handlers have returned. */
  predicate Joined(h: S.Session) {
    forall id :: id in h.jobs && h.jobs[id].Running? ==> h.jobs[id].done
  }

  function AfterWorker(s: Sys, o: W.Out): Sys {
    s.(w := o.w, up := s.up + o.sent)
  }

  /** A fault on either side ends the socket, which severs everything the Worker holds. */
  function Faulted(s: Sys): Sys {
    s.(fault := true, live := false, w := W.Disconnect(s.w))
  }

  function Take(s: Sys, r: W.Reaction): Sys
    requires s.down != []
  {
    match r
    case Done(o) => AfterWorker(s.(down := s.down[1..]), o)
    case Fault => Faulted(s)
  }

  function HostTake(s: Sys, r: S.Reaction): Sys
    requires s.up != []
  {
    match r
    case Go(h, sent) => s.(h := h, up := s.up[1..], down := s.down + sent)
    case Blocked => s
    case Fault => Faulted(s)
  }

  function Do(s: Sys, step: Step): Sys
    requires Enabled(s, step)
  {
    match step
    case Arrive(id, meta, body) =>
      var r := W.Admit(s.w, W.NewJob(id, meta, body));
      if r.None? then s else AfterWorker(s, r.value).(used := s.used + {id})
    case WorkerTurn => Take(s, W.Receive(s.w, s.down[0]))
    case WorkerResume(id, ok) => AfterWorker(s, W.Resume(s.w, id, ok))
    case WorkerFail(id, status) => AfterWorker(s, W.Fail(s.w, id, status))
    case HostTurn => HostTake(s, S.Dispatch(s.h, s.up[0]))
    case HostJoin(id) =>
      var r := S.Settle(s.h, id);
      s.(h := r.h, down := s.down + r.sent)
    case Handler(id, m) =>
      var j := s.h.jobs[id];
      var (j', sent) := S.MoveJob(id, j, m);
      s.(h := s.h.(jobs := s.h.jobs[id := j']), down := s.down + sent,
         wrote := s.wrote[id := Wrote(s, id) + S.Written(j, m)])
    case Reload => s.(down := s.down + [Keys(Some(s.h.capacity))])
    case Heartbeat => s.(down := s.down + [Ping])
    case Drop => s.(live := false, w := W.Disconnect(s.w))
    case Unwind(id) =>
      s.(h := s.h.(jobs := s.h.jobs[id := s.h.jobs[id].(stopped := true, done := true)]))
    case Reconnect(c) =>
      s.(w := W.Disconnect(s.w).(open := true), h := S.Connect(c), up := [], down := [Keys(Some(c))], live := true)
  }

  /** Before the first socket. */
  const Initial := Sys(W.Worker(false, None, map[], [], map[]), S.Connect(1), [], [], false, false, {}, map[])

  /** The state after a run, when every step of it was enabled. */
  function Run(steps: seq<Step>): Option<Sys> {
    if steps == [] then Some(Initial)
    else
      var before := Run(steps[..|steps| - 1]);
      var last := steps[|steps| - 1];
      if before.Some? && Enabled(before.value, last) then Some(Do(before.value, last)) else None
  }

  ghost predicate Reachable(s: Sys) {
    exists steps :: Run(steps) == Some(s)
  }
}
