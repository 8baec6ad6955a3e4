/**
 The Worker's side of the bridge as functions on values: what each entry point of the host
 object does to its jobs, and which frames it sends. The class in BridgeHost.dfy is proved
 against these functions; BridgeSystem.dfy composes them with the host's session.
 */
module BridgeWorker {
  import opened Prelude
  import opened BridgeFrames

  /** Which of a job's two timers is armed. */
  datatype Timer = Cleared | Deadline | CancelAck

  /** What the job's promise has been resolved with; the first resolve wins. */
  datatype Answer = Unanswered | Streamed(status: int) | Refused(status: int)

  /** A stream operation `webSocketMessage` is still awaiting. */
  datatype Await = Write(data: Bytes) | Close

  /** `posted` and `accepted` are history: the client's upload, and what its stream has taken. */
  datatype Job = Job(
    id: Id, meta: Meta, body: Bytes, cancelled: bool, timer: Timer, answer: Answer,
    writer: bool, awaiting: seq<Await>, posted: Bytes, accepted: Bytes, closed: bool)

  /** `gone` keeps every job that has left the queue and the active map. */
  datatype Worker = Worker(
    open: bool, slots: Option<int>, active: map<Id, Job>, queue: seq<Job>, gone: map<Id, Job>)

  /** A new state and the frames sent on the way. */
  datatype Out = Out(w: Worker, sent: seq<WFrame>)

  /** `Fault` is the catch of `webSocketMessage`: a frame the protocol does not allow. */
  datatype Reaction = Done(out: Out) | Fault

  function NewJob(id: Id, meta: Meta, body: Bytes): Job {
    Job(id, meta, body, false, Deadline, Unanswered, false, [], body, [], false)
  }

  function Resolve(j: Job, a: Answer): Job {
    if j.answer == Unanswered then j.(answer := a) else j
  }

  function Abandon(j: Job, status: int, timer: Timer): Job {
    Resolve(j, Refused(status)).(cancelled := true, timer := timer)
  }

  predicate Waiting(q: seq<Job>, id: Id) {
    exists i :: 0 <= i < |q| && q[i].id == id
  }

  /** `queue.filter(j => j !== job)`. */
  function Without(q: seq<Job>, id: Id): (r: seq<Job>)
    ensures |r| <= |q|
    ensures forall j :: j in r <==> j in q && j.id != id
  {
    if q == [] then []
    else (if q[0].id == id then [] else [q[0]]) + Without(q[1..], id)
  }

  function Find(q: seq<Job>, id: Id): (j: Job)
    requires Waiting(q, id)
    ensures j in q && j.id == id
  {
    if q[0].id == id then q[0]
    else assert Waiting(q[1..], id) by { var i :| 0 <= i < |q| && q[i].id == id; assert q[1..][i - 1] == q[i]; }
         Find(q[1..], id)
  }

  function Capacity(w: Worker): int {
    if w.slots.Some? then w.slots.value else 1
  }

  function Retire(w: Worker, j: Job): Worker {
    w.(active := w.active - {j.id}, gone := w.gone[j.id := j])
  }

  /** `next`: start waiting jobs while there is a free slot. */
  function Next(w: Worker): Out
    decreases |w.queue|
  {
    if |w.active| < Capacity(w) && w.queue != [] then
      var j := w.queue[0];
      var o := Next(w.(queue := w.queue[1..], active := w.active[j.id := j.(body := [])]));
      Out(o.w, StartFrames(j.id, j.meta, j.body) + o.sent)
    else
      Out(w, [])
  }

  /** The tail of `admitRequest`, once the body has been read. */
  function Admit(w: Worker, j: Job): Option<Out> {
    if !w.open || |w.queue| >= MAX_WAITING then None
    else Some(Next(w.(queue := w.queue + [j])))
  }

  /** `fail`: answer the job, and tell the host when it already runs there. */
  function Fail(w: Worker, id: Id, status: int): Out {
    if id in w.active then
      if w.active[id].cancelled then Out(w, [])
      else Out(w.(active := w.active[id := Abandon(w.active[id], status, CancelAck)]), [WFrame.Cancel(id)])
    else if Waiting(w.queue, id) then
      var j := Abandon(Find(w.queue, id), status, Cleared);
      Next(w.(queue := Without(w.queue, id), gone := w.gone[id := j]))
    else Out(w, [])
  }

  /** The running jobs, answered 502 when nothing answered them before. */
  function SeverActive(active: map<Id, Job>): map<Id, Job> {
    map id | id in active :: Abandon(active[id], 502, Cleared)
  }

  /** And the waiting ones. */
  function SeverQueue(q: seq<Job>): map<Id, Job> {
    if q == [] then map[]
    else SeverQueue(q[..|q| - 1])[q[|q| - 1].id := Abandon(q[|q| - 1], 502, Cleared)]
  }

  lemma {:induction false} SeveredFrom(q: seq<Job>, id: Id) returns (j: Job)
    requires id in SeverQueue(q)
    ensures j in q && j.id == id && SeverQueue(q)[id] == Abandon(j, 502, Cleared)
  {
    var last := q[|q| - 1];
    if id == last.id {
      j := last;
    } else {
      j := SeveredFrom(q[..|q| - 1], id);
    }
  }

  lemma {:induction false} SeveredAll(q: seq<Job>)
    ensures forall j :: j in q ==> j.id in SeverQueue(q)
  {
    if q != [] {
      SeveredAll(q[..|q| - 1]);
      assert q == q[..|q| - 1] + [q[|q| - 1]];
    }
  }

  function Disconnect(w: Worker): Worker {
    Worker(false, None, map[], [], w.gone + SeverActive(w.active) + SeverQueue(w.queue))
  }

  function Clamp(slots: Option<int>): int {
    Min(MAX_SLOTS, Max(1, if slots.Some? then slots.value else 1))
  }

  function OnKeys(w: Worker, slots: Option<int>): Reaction {
    if slots.Some? && !(-MAX_SAFE_INTEGER <= slots.value <= MAX_SAFE_INTEGER) then Fault
    else if w.slots.Some? && w.slots.value != Clamp(slots) then Fault
    else Done(Out(w.(slots := Some(Clamp(slots))),
                  [KeysReady(if slots.None? then None else Some(Clamp(slots)))]))
  }

  /** `webSocketMessage` up to its first await; a ping never reaches it. */
  function Receive(w: Worker, f: HFrame): Reaction {
    if f.Ping? then Done(Out(w, [Pong]))
    else if f.Keys? then OnKeys(w, f.slots)
    else if f.id !in w.active then Fault
    else
      var j := w.active[f.id];
      if j.cancelled then
        if f.Ready? then Done(Next(Retire(w, j.(timer := Cleared)))) else Done(Out(w, []))
      else
        match f
        case Cancel(_) => Done(Fail(w, j.id, 504))
        case Response(_, status) =>
          if j.writer || status < 200 || status > 599 then Fault
          else Done(Out(w.(active := w.active[j.id := Resolve(j, Streamed(status)).(writer := true)]), []))
        case Data(_, data) =>
          if !j.writer || |data| > CHUNK then Fault
          else Done(Out(w.(active := w.active[j.id := j.(awaiting := j.awaiting + [Write(data)])]), []))
        case End(_) =>
          if !j.writer then Fault
          else Done(Out(w.(active := w.active[j.id := j.(awaiting := j.awaiting + [Close])]), []))
        case Ready(_) => Fault
  }

  /** What runs after `await job.writer.write` or `await job.writer.close` settles. */
  function Resume(w: Worker, id: Id, ok: bool): Out
    requires id in w.active && w.active[id].awaiting != []
  {
    var op := w.active[id].awaiting[0];
    var j := w.active[id].(awaiting := w.active[id].awaiting[1..]);
    if !ok then Fail(w.(active := w.active[id := j]), id, 499)
    else if op.Write? then
      Out(w.(active := w.active[id := j.(accepted := j.accepted + op.data)]), if j.cancelled then [] else [Ack(id)])
    else if j.cancelled then Out(w.(active := w.active[id := j]), [])
    else
      var o := Next(Retire(w, j.(timer := Cleared, closed := true)));
      Out(o.w, [WFrame.Ready(id)] + o.sent)
  }

  /** Each job is in one place, under its own id. */
  ghost predicate Tidy(w: Worker) {
    && (forall id :: id in w.active ==> w.active[id].id == id && id !in w.gone)
    && (forall j :: j in w.queue ==> j.id !in w.active && j.id !in w.gone)
    && (forall i, k :: 0 <= i < k < |w.queue| ==> w.queue[i].id != w.queue[k].id)
  }
}
