/**
 Each end by itself, against a peer that may send anything: whatever frames come, and in whatever order,
 an end that has not given the session up is within its bounds.
 */
module BridgeGuards {
  import opened Prelude
  import opened BridgeFrames
  import W = BridgeWorker
  import S = BridgeSession

  // ---- the host against any Worker ----

  datatype HostEvent = Frame(f: WFrame) | Moved(id: Id, move: S.Move) | Joined(id: Id)

  predicate HostEnabled(h: S.Session, e: HostEvent) {
    match e
    case Frame(_) => true
    case Moved(id, m) => id in h.jobs && S.CanMove(h.jobs[id], m) && |h.jobs[id].w.buf| <= CHUNK
    case Joined(id) => S.CanSettle(h, id)
  }

  /** None when the session has ended. */
  function HostDo(h: S.Session, e: HostEvent): Option<S.Session>
    requires HostEnabled(h, e)
  {
    match e
    case Frame(f) =>
      var r := S.Dispatch(h, f);
      (match r case Go(h', _) => Some(h') case Blocked => Some(h) case Fault => None)
    case Moved(id, m) => Some(h.(jobs := h.jobs[id := S.MoveJob(id, h.jobs[id], m).0]))
    case Joined(id) => Some(S.Settle(h, id).h)
  }

  function HostRun(h: S.Session, es: seq<HostEvent>): Option<S.Session>
    decreases es
  {
    if es == [] then Some(h)
    else if !HostEnabled(h, es[0]) then None
    else
      var r := HostDo(h, es[0]);
      if r.None? then None else HostRun(r.value, es[1..])
  }

  predicate HeldWithin(id: Id, j: S.Job) {
    && GoodId(id) && AdmissibleMeta(j.meta) && |j.body| <= MAX_BODY
    && (j.Running? ==> EscapesParse(j.meta.path))
  }

  /** No more jobs than were negotiated, which is within what was announced; and of each no more than is allowed. */
  ghost predicate HostWithin(h: S.Session) {
    && (if h.negotiated then 1 <= h.limit <= Max(1, Min(MAX_SLOTS, h.capacity)) else h.limit == 1 && h.jobs == map[])
    && |h.jobs| <= h.limit
    && forall id :: id in h.jobs ==> HeldWithin(id, h.jobs[id])
  }

  lemma Inserted(jobs: map<Id, S.Job>, id: Id, j: S.Job)
    ensures |jobs[id := j]| == |jobs| + (if id in jobs then 0 else 1)
  {
    assert jobs[id := j].Keys == jobs.Keys + {id};
    assert |jobs[id := j]| == |jobs[id := j].Keys| && |jobs| == |jobs.Keys|;
  }

  lemma Removed(jobs: map<Id, S.Job>, id: Id)
    requires id in jobs
    ensures |jobs - {id}| == |jobs| - 1
  {
    assert (jobs - {id}).Keys == jobs.Keys - {id};
    assert |jobs - {id}| == |(jobs - {id}).Keys| && |jobs| == |jobs.Keys|;
  }

  lemma HeldStays(h: S.Session, id: Id, j: S.Job)
    requires HostWithin(h) && HeldWithin(id, j) && (id in h.jobs || (h.negotiated && |h.jobs| < h.limit))
    ensures HostWithin(h.(jobs := h.jobs[id := j]))
  {
    Inserted(h.jobs, id, j);
  }

  lemma LetGo(h: S.Session, id: Id)
    requires HostWithin(h) && id in h.jobs
    ensures HostWithin(h.(jobs := h.jobs - {id}))
  {
    Removed(h.jobs, id);
  }

  lemma FrameWithin(h: S.Session, f: WFrame)
    requires HostWithin(h)
    ensures var r := S.Dispatch(h, f); r.Go? ==> HostWithin(r.h) && (h.negotiated ==> r.h.limit == h.limit)
  {
    if !f.KeysReady? && !f.Pong? && !f.Request? && f.id in h.jobs {
      var j := h.jobs[f.id];
      match f {
        case Ack(id) => if j.Running? { HeldStays(h, id, j.(acked := true)); }
        case Body(id, data) =>
          if j.Receiving? && |j.body| + |data| <= MAX_BODY { HeldStays(h, id, S.Receiving(j.meta, j.body + data)); }
        case End(id) =>
          if j.Receiving? && EscapesParse(j.meta.path) {
            HeldStays(h, id, S.Running(j.meta, j.body, S.FreshWriter, false, false, false, false));
          }
        case Cancel(id) =>
          LetGo(h, id);
          if j.Running? { HeldStays(h, id, j.(settling := true, stopped := true)); }
        case Ready(id) => LetGo(h, id);
      }
    } else if f.Request? && S.Dispatch(h, f).Go? {
      HeldStays(h, f.id, S.Receiving(f.meta, []));
    }
  }

  lemma StepWithin(h: S.Session, e: HostEvent)
    requires HostWithin(h) && HostEnabled(h, e)
    ensures HostDo(h, e).Some? ==> HostWithin(HostDo(h, e).value)
  {
    match e
    case Frame(f) => FrameWithin(h, f);
    case Moved(id, m) => HeldStays(h, id, S.MoveJob(id, h.jobs[id], m).0);
    case Joined(id) => LetGo(h, id);
  }

  lemma {:induction false} RunWithin(h: S.Session, es: seq<HostEvent>)
    requires HostWithin(h)
    ensures HostRun(h, es).Some? ==> HostWithin(HostRun(h, es).value)
    decreases es
  {
    if es != [] && HostEnabled(h, es[0]) {
      StepWithin(h, es[0]);
      var r := HostDo(h, es[0]);
      if r.Some? {
        RunWithin(r.value, es[1..]);
      }
    }
  }

  /**
   Whatever a Worker sends, a session that still stands holds no job before the slots are negotiated and
   afterwards no more than those; each has a good id, an admissible method and path and at most 4 MiB of
   body; and a handler runs only on a path that parses.
   */
  lemma HostIsGuarded(capacity: int, es: seq<HostEvent>)
    requires capacity >= 1
    ensures var r := HostRun(S.Connect(capacity), es);
            r.Some? ==>
              var h := r.value;
              && (!h.negotiated ==> h.jobs == map[])
              && |h.jobs| <= Min(MAX_SLOTS, capacity)
              && h.capacity == capacity
              && forall id :: id in h.jobs ==>
                   && 0 < |id| <= 64 && |h.jobs[id].body| <= 4 * 1024 * 1024
                   && (h.jobs[id].meta.verb == "GET" || h.jobs[id].meta.verb == "POST")
                   && "/v1/" <= h.jobs[id].meta.path && |h.jobs[id].meta.path| <= 2048
                   && '#' !in h.jobs[id].meta.path && '\r' !in h.jobs[id].meta.path && '\n' !in h.jobs[id].meta.path
                   && (h.jobs[id].Running? ==> EscapesParse(h.jobs[id].meta.path))
  {
    RunWithin(S.Connect(capacity), es);
    CapacityStays(S.Connect(capacity), es);
  }

  lemma {:induction false} CapacityStays(h: S.Session, es: seq<HostEvent>)
    ensures HostRun(h, es).Some? ==> HostRun(h, es).value.capacity == h.capacity
    decreases es
  {
    if es != [] && HostEnabled(h, es[0]) && HostDo(h, es[0]).Some? {
      CapacityStays(HostDo(h, es[0]).value, es[1..]);
    }
  }

  // ---- the Worker against any host ----

  datatype WorkerEvent =
    | Read(f: HFrame)
    | Settled(id: Id, ok: bool)
    | Failed(id: Id, status: int)
    | Posted(id: Id, meta: Meta, body: Bytes)
    | Severed
    | Opened

  predicate WorkerEnabled(w: W.Worker, e: WorkerEvent) {
    match e
    case Settled(id, _) => id in w.active && w.active[id].awaiting != []
    case _ => true
  }

  /** None when the frame is rejected, which severs the socket. */
  function WorkerDo(w: W.Worker, e: WorkerEvent): Option<W.Worker>
    requires WorkerEnabled(w, e)
  {
    match e
    case Read(f) =>
      var r := W.Receive(w, f);
      if r.Done? then Some(r.out.w) else None
    case Settled(id, ok) => Some(W.Resume(w, id, ok).w)
    case Failed(id, status) => Some(W.Fail(w, id, status).w)
    case Posted(id, meta, body) =>
      var r := W.Admit(w, W.NewJob(id, meta, body));
      Some(if r.Some? then r.value.w else w)
    case Severed => Some(W.Disconnect(w))
    case Opened => Some(W.Disconnect(w).(open := true))
  }

  function WorkerRun(w: W.Worker, es: seq<WorkerEvent>): Option<W.Worker>
    decreases es
  {
    if es == [] then Some(w)
    else if !WorkerEnabled(w, es[0]) then None
    else
      var r := WorkerDo(w, es[0]);
      if r.None? then None else WorkerRun(r.value, es[1..])
  }

  /** The client's stream is only used once there is one, for chunks within the bound, and its status is one. */
  predicate JobWithin(j: W.Job) {
    && (forall op :: op in j.awaiting ==> j.writer && (op.Write? ==> |op.data| <= CHUNK))
    && (j.writer ==> j.answer != W.Unanswered)
    && (j.answer.Streamed? ==> 200 <= j.answer.status <= 599)
  }

  ghost predicate WorkerWithin(w: W.Worker) {
    && (w.slots.Some? ==> 1 <= w.slots.value <= MAX_SLOTS)
    && |w.active| <= W.Capacity(w) && |w.queue| <= MAX_WAITING
    && (forall id :: id in w.active ==> JobWithin(w.active[id]))
    && (forall id :: id in w.gone ==> JobWithin(w.gone[id]))
    && (forall j :: j in w.queue ==> JobWithin(j) && j.awaiting == [])
    && (forall id :: id in w.active ==> w.active[id].id == id)
  }

  lemma ActiveInserted(w: W.Worker, j: W.Job)
    ensures |w.active[j.id := j]| == |w.active| + (if j.id in w.active then 0 else 1)
  {
    assert w.active[j.id := j].Keys == w.active.Keys + {j.id};
    assert |w.active[j.id := j]| == |w.active[j.id := j].Keys| && |w.active| == |w.active.Keys|;
  }

  lemma ActiveRemoved(w: W.Worker, id: Id)
    ensures |w.active - {id}| <= |w.active|
  {
    assert (w.active - {id}).Keys == w.active.Keys - {id};
    assert |w.active - {id}| == |(w.active - {id}).Keys| && |w.active| == |w.active.Keys|;
  }

  lemma {:induction false} NextWithin(w: W.Worker)
    requires WorkerWithin(w.(queue := []))
    requires forall j :: j in w.queue ==> JobWithin(j) && j.awaiting == []
    ensures var n := W.Next(w).w;
            && WorkerWithin(n.(queue := [])) && |n.queue| <= |w.queue|
            && (forall j :: j in n.queue ==> j in w.queue)
    decreases |w.queue|
  {
    if |w.active| < W.Capacity(w) && w.queue != [] {
      var j := w.queue[0];
      assert j in w.queue;
      ActiveInserted(w, j.(body := []));
      var w1 := w.(queue := w.queue[1..], active := w.active[j.id := j.(body := [])]);
      NextWithin(w1);
    }
  }

  lemma NextWithinAll(w: W.Worker)
    requires WorkerWithin(w)
    ensures WorkerWithin(W.Next(w).w)
  {
    NextWithin(w);
  }

  lemma AdmitWithin(w: W.Worker, j: W.Job)
    requires WorkerWithin(w) && JobWithin(j) && j.awaiting == []
    ensures W.Admit(w, j).Some? ==> WorkerWithin(W.Admit(w, j).value.w)
  {
    if |w.queue| < MAX_WAITING {
      NextWithin(w.(queue := w.queue + [j]));
    }
  }

  lemma UpdateWithin(w: W.Worker, j: W.Job)
    requires WorkerWithin(w) && j.id in w.active && JobWithin(j)
    ensures WorkerWithin(w.(active := w.active[j.id := j]))
  {
    ActiveInserted(w, j);
  }

  lemma RetireWithin(w: W.Worker, j: W.Job)
    requires WorkerWithin(w) && JobWithin(j)
    ensures WorkerWithin(W.Next(W.Retire(w, j)).w)
  {
    ActiveRemoved(w, j.id);
    NextWithinAll(W.Retire(w, j));
  }

  lemma FailWithin(w: W.Worker, id: Id, status: int)
    requires WorkerWithin(w)
    ensures WorkerWithin(W.Fail(w, id, status).w)
  {
    if id in w.active {
      UpdateWithin(w, W.Abandon(w.active[id], status, W.CancelAck));
    } else if W.Waiting(w.queue, id) {
      var j := W.Abandon(W.Find(w.queue, id), status, W.Cleared);
      NextWithinAll(w.(queue := W.Without(w.queue, id), gone := w.gone[id := j]));
    }
  }

  lemma ReadWithin(w: W.Worker, f: HFrame)
    requires WorkerWithin(w)
    ensures W.Receive(w, f).Done? ==> WorkerWithin(W.Receive(w, f).out.w)
  {
    if !f.Ping? && !f.Keys? && f.id in w.active && W.Receive(w, f).Done? {
      var j := w.active[f.id];
      if j.cancelled {
        RetireWithin(w, j.(timer := W.Cleared));
      } else {
        match f {
          case Cancel(_) => FailWithin(w, j.id, 504);
          case Response(_, status) => UpdateWithin(w, W.Resolve(j, W.Streamed(status)).(writer := true));
          case Data(_, data) => UpdateWithin(w, j.(awaiting := j.awaiting + [W.Write(data)]));
          case End(_) => UpdateWithin(w, j.(awaiting := j.awaiting + [W.Close]));
        }
      }
    }
  }

  lemma SettledWithin(w: W.Worker, id: Id, ok: bool)
    requires WorkerWithin(w) && id in w.active && w.active[id].awaiting != []
    ensures WorkerWithin(W.Resume(w, id, ok).w)
  {
    var op := w.active[id].awaiting[0];
    assert op in w.active[id].awaiting;
    var j := w.active[id].(awaiting := w.active[id].awaiting[1..]);
    UpdateWithin(w, j);
    if !ok {
      FailWithin(w.(active := w.active[id := j]), id, 499);
    } else if op.Write? {
      UpdateWithin(w, j.(accepted := j.accepted + op.data));
    } else if !j.cancelled {
      RetireWithin(w, j.(timer := W.Cleared, closed := true));
    }
  }

  lemma SeveredWithin(w: W.Worker)
    requires WorkerWithin(w)
    ensures WorkerWithin(W.Disconnect(w)) && WorkerWithin(W.Disconnect(w).(open := true))
  {
    forall id | id in W.SeverQueue(w.queue) ensures JobWithin(W.SeverQueue(w.queue)[id]) {
      var j := W.SeveredFrom(w.queue, id);
      AbandonedWithin(j);
    }
    forall id | id in W.SeverActive(w.active) ensures JobWithin(W.SeverActive(w.active)[id]) {
      AbandonedWithin(w.active[id]);
    }
    GoneWithin(w.gone, W.SeverActive(w.active), W.SeverQueue(w.queue));
  }

  lemma AbandonedWithin(j: W.Job)
    requires JobWithin(j)
    ensures JobWithin(W.Abandon(j, 502, W.Cleared))
  {
  }

  lemma GoneWithin(a: map<Id, W.Job>, b: map<Id, W.Job>, c: map<Id, W.Job>)
    requires forall id :: id in a ==> JobWithin(a[id])
    requires forall id :: id in b ==> JobWithin(b[id])
    requires forall id :: id in c ==> JobWithin(c[id])
    ensures forall id :: id in a + b + c ==> JobWithin((a + b + c)[id])
  {
  }

  lemma WorkerStepWithin(w: W.Worker, e: WorkerEvent)
    requires WorkerWithin(w) && WorkerEnabled(w, e)
    ensures WorkerDo(w, e).Some? ==> WorkerWithin(WorkerDo(w, e).value)
  {
    match e
    case Read(f) => ReadWithin(w, f);
    case Settled(id, ok) => SettledWithin(w, id, ok);
    case Failed(id, status) => FailWithin(w, id, status);
    case Posted(id, meta, body) => AdmitWithin(w, W.NewJob(id, meta, body));
    case Severed => SeveredWithin(w);
    case Opened => SeveredWithin(w);
  }

  lemma {:induction false} WorkerRunWithin(w: W.Worker, es: seq<WorkerEvent>)
    requires WorkerWithin(w)
    ensures WorkerRun(w, es).Some? ==> WorkerWithin(WorkerRun(w, es).value)
    decreases es
  {
    if es != [] && WorkerEnabled(w, es[0]) {
      WorkerStepWithin(w, es[0]);
      var r := WorkerDo(w, es[0]);
      if r.Some? {
        WorkerRunWithin(r.value, es[1..]);
      }
    }
  }

  /**
   Whatever a host sends, a Worker that has not severed it keeps between 1 and 64 slots and no more active
   jobs, at most four waiting; a client is answered with a status between 200 and 599, and its stream is
   given nothing before its response, and no chunk over 512 KiB.
   */
  lemma WorkerIsGuarded(es: seq<WorkerEvent>)
    ensures var r := WorkerRun(W.Worker(false, None, map[], [], map[]), es);
            r.Some? ==>
              var w := r.value;
              && (w.slots.Some? ==> 1 <= w.slots.value <= 64)
              && |w.active| <= (if w.slots.Some? then w.slots.value else 1) && |w.queue| <= 4
              && forall id :: id in w.active ==>
                   var j := w.active[id];
                   && (forall op :: op in j.awaiting ==>
                         j.answer != W.Unanswered && (op.Write? ==> |op.data| <= 512 * 1024))
                   && (j.answer.Streamed? ==> 200 <= j.answer.status <= 599)
  {
    WorkerRunWithin(W.Worker(false, None, map[], [], map[]), es);
  }
}
