/**
 The Worker's host object in the form it has: a class whose methods update its maps, with the
 frames it has handed to the socket. Every method is proved to do what BridgeWorker says.
 */
module BridgeHost {
  import opened Prelude
  import opened BridgeFrames
  import opened BridgeAnswers
  import opened BridgeSteps
  import W = BridgeWorker

  class Host {
    var open: bool
    var slots: Option<int>
    var active: map<Id, W.Job>
    var queue: seq<W.Job>
    var wire: seq<WFrame>
    ghost var gone: map<Id, W.Job>

    ghost function Abs(): W.Worker
      reads this
    {
      W.Worker(open, slots, active, queue, gone)
    }

    /** Each job is in one place, under its own id. */
    ghost predicate Valid()
      reads this
    {
      W.Tidy(Abs())
    }

    constructor ()
      ensures Valid() && Abs() == W.Worker(false, None, map[], [], map[]) && wire == []
    {
      open, slots, active, queue, wire, gone := false, None, map[], [], [], map[];
    }

    method Send(f: WFrame)
      modifies this`wire
      ensures wire == old(wire) + [f]
    {
      wire := wire + [f];
    }

    /** The request head, the body in chunks, and the end. */
    method Start(job: W.Job)
      modifies this`wire
      ensures wire == old(wire) + StartFrames(job.id, job.meta, job.body)
    {
      Send(Request(job.id, job.meta));
      var i := 0;
      while i < |job.body|
        invariant 0 <= i
        invariant old(wire) + [Request(job.id, job.meta)] + BodyFrames(job.id, job.body)
               == wire + BodyFrames(job.id, job.body[Min(i, |job.body|)..])
      {
        ghost var rest := job.body[i..];
        var next := Min(i + CHUNK, |job.body|);
        Send(Body(job.id, job.body[i..next]));
        assert rest[..Min(CHUNK, |rest|)] == job.body[i..next] && rest[Min(CHUNK, |rest|)..] == job.body[next..];
        HeadTail(Body(job.id, job.body[i..next]), BodyFrames(job.id, job.body[next..]), []);
        i := i + CHUNK;
      }
      assert wire + [] == wire;
      Send(WFrame.End(job.id));
      Assoc(old(wire), [Request(job.id, job.meta)] + BodyFrames(job.id, job.body), [WFrame.End(job.id)]);
      Assoc(old(wire), [Request(job.id, job.meta)], BodyFrames(job.id, job.body));
    }

    /** One turn of the loop in `next`. */
    method StartNext()
      requires queue != []
      modifies this`queue, this`active, this`wire
      ensures Abs() == Started(old(Abs()))
      ensures var job := old(queue[0]); wire == old(wire) + StartFrames(job.id, job.meta, job.body)
    {
      var job := queue[0];
      queue := queue[1..];
      active := active[job.id := job.(body := [])];
      Start(job);
    }

    method Next()
      requires Valid()
      modifies this
      ensures Valid()
      ensures Abs() == W.Next(old(Abs())).w && wire == old(wire) + W.Next(old(Abs())).sent
    {
      ghost var w, wired := Abs(), wire;
      assert Nexting(w, wired, w, wired);
      while |active| < (if slots.Some? then slots.value else 1) && queue != []
        invariant Nexting(w, wired, Abs(), wire)
        decreases |queue|
      {
        NextTurn(w, wired, Abs(), wire);
        StartNext();
      }
      NextEnds(w, wired, Abs(), wire);
      NextTidy(w);
    }

    /** The end of `admitRequest`; false is its 503 or 429. */
    method Enqueue(job: W.Job) returns (admitted: bool)
      requires Valid() && job.id !in Known(Abs())
      modifies this
      ensures Valid()
      ensures admitted == W.Admit(old(Abs()), job).Some?
      ensures admitted ==> Abs() == W.Admit(old(Abs()), job).value.w
                           && wire == old(wire) + W.Admit(old(Abs()), job).value.sent
      ensures !admitted ==> Abs() == old(Abs()) && wire == old(wire)
    {
      if !open || |queue| >= MAX_WAITING {
        return false;
      }
      QueuedTidy(Abs(), job);
      queue := queue + [job];
      Next();
      return true;
    }

    /** `queue.filter(j => j !== job)`. */
    method Filter(id: Id)
      modifies this`queue
      ensures queue == W.Without(old(queue), id)
    {
      var jobs, kept := queue, [];
      for i := 0 to |jobs|
        invariant W.Without(jobs, id) == kept + W.Without(jobs[i..], id)
      {
        assert jobs[i..][1..] == jobs[i + 1..];
        Assoc(kept, if jobs[i].id == id then [] else [jobs[i]], W.Without(jobs[i + 1..], id));
        if jobs[i].id != id {
          kept := kept + [jobs[i]];
        } else {
          assert kept + [] == kept;
        }
      }
      assert kept + [] == kept;
      queue := kept;
    }

    /** `fail` on a job that is still waiting: it leaves the queue, answered. */
    method FailWaiting(id: Id, status: int)
      requires Valid() && id !in active && W.Waiting(queue, id)
      modifies this
      ensures Valid()
      ensures Abs() == W.Next(Filed(old(Abs()), id, status)).w
      ensures wire == old(wire) + W.Next(Filed(old(Abs()), id, status)).sent
    {
      FiledTidy(Abs(), id, status);
      LeaveQueue(id, status);
      Next();
    }

    method LeaveQueue(id: Id, status: int)
      requires W.Waiting(queue, id)
      modifies this`gone, this`queue
      ensures Abs() == Filed(old(Abs()), id, status)
    {
      gone := gone[id := W.Abandon(W.Find(queue, id), status, W.Cleared)];
      Filter(id);
    }

    method Fail(id: Id, status: int)
      requires Valid()
      modifies this
      ensures Valid()
      ensures Abs() == W.Fail(old(Abs()), id, status).w && wire == old(wire) + W.Fail(old(Abs()), id, status).sent
    {
      FailCases(Abs(), id, status);
      assert wire + [] == wire;
      if id in active {
        if active[id].cancelled {
          return;
        }
        UpdateTidy(Abs(), id, W.Abandon(active[id], status, W.CancelAck));
        active := active[id := W.Abandon(active[id], status, W.CancelAck)];
        Send(WFrame.Cancel(id));
      } else if exists i :: 0 <= i < |queue| && queue[i].id == id {
        FailWaiting(id, status);
      }
    }

    /** The running jobs of `disconnect`'s loop. */
    method AnswerActive()
      modifies this`gone
      ensures gone == old(gone) + W.SeverActive(active)
    {
      var ids := active.Keys;
      SeverNone(gone, active);
      while ids != {}
        invariant ids <= active.Keys && gone == old(gone) + Severed(active, active.Keys - ids)
        decreases |ids|
      {
        var id :| id in ids;
        SeverOne(old(gone), active, ids, id);
        gone := gone[id := W.Abandon(active[id], 502, W.Cleared)];
        ids := ids - {id};
      }
      SeverAll(active);
    }

    /** And the waiting ones. */
    method AnswerQueue()
      modifies this`gone
      ensures gone == old(gone) + W.SeverQueue(queue)
    {
      for i := 0 to |queue|
        invariant gone == old(gone) + W.SeverQueue(queue[..i])
      {
        assert queue[..i + 1][..i] == queue[..i];
        gone := gone[queue[i].id := W.Abandon(queue[i], 502, W.Cleared)];
      }
      assert queue[..|queue|] == queue;
    }

    /** Every job still held is answered and dropped, and the socket with it. */
    method Disconnect()
      modifies this
      ensures Valid()
      ensures Abs() == W.Disconnect(old(Abs())) && wire == old(wire)
    {
      DisconnectTidy(Abs());
      open, slots := false, None;
      AnswerActive();
      AnswerQueue();
      active, queue := map[], [];
    }

    /** A host connects: whatever the old socket left is severed before the new one is taken. */
    method Connect()
      modifies this
      ensures Valid()
      ensures Abs() == W.Disconnect(old(Abs())).(open := true) && wire == []
    {
      Disconnect();
      open, wire := true, [];
    }

    /** A key snapshot; false when its slot count is malformed or not the one in force. */
    method OnKeys(count: Option<int>) returns (ok: bool)
      modifies this
      ensures ok == W.OnKeys(old(Abs()), count).Done?
      ensures ok ==> Abs() == W.OnKeys(old(Abs()), count).out.w
                     && wire == old(wire) + W.OnKeys(old(Abs()), count).out.sent
      ensures !ok ==> Abs() == old(Abs()) && wire == old(wire)
    {
      if count.Some? && !(-MAX_SAFE_INTEGER <= count.value <= MAX_SAFE_INTEGER) {
        return false;
      }
      var clamped := Min(64, Max(1, if count.Some? then count.value else 1));
      if slots.Some? && slots.value != clamped {
        return false;
      }
      slots := Some(clamped);
      Send(KeysReady(if count.None? then None else Some(clamped)));
      return true;
    }

    /** A late frame of a cancelled job: only the host's `ready` means anything. */
    method OnCancelled(f: HFrame)
      requires Valid() && !f.Ping? && !f.Keys? && f.id in active && active[f.id].cancelled
      modifies this
      ensures Valid()
      ensures var o := if f.Ready? then W.Next(W.Retire(old(Abs()), old(active[f.id]).(timer := W.Cleared)))
                      else W.Out(old(Abs()), []);
              Abs() == o.w && wire == old(wire) + o.sent
    {
      assert wire + [] == wire;
      if f.Ready? {
        var job := active[f.id].(timer := W.Cleared);
        RetireTidy(Abs(), job);
        gone := gone[job.id := job];
        active := active - {job.id};
        Next();
      }
    }

    /** A frame of a live response; false when the job's stream is not ready for it. */
    method OnResponse(f: HFrame) returns (ok: bool)
      requires (f.Response? || f.Data? || f.End?) && f.id in active && !active[f.id].cancelled
      modifies this`active
      ensures ok == W.Receive(old(Abs()), f).Done?
      ensures ok ==> W.Receive(old(Abs()), f).out == W.Out(Abs(), [])
      ensures !ok ==> active == old(active)
    {
      var job := active[f.id];
      match f {
        case Response(_, status) =>
          if job.writer || status < 200 || status > 599 {
            return false;
          }
          active := active[job.id := W.Resolve(job, W.Streamed(status)).(writer := true)];
        case Data(_, data) =>
          if !job.writer || |data| > CHUNK {
            return false;
          }
          active := active[job.id := job.(awaiting := job.awaiting + [W.Write(data)])];
        case End(_) =>
          if !job.writer {
            return false;
          }
          active := active[job.id := job.(awaiting := job.awaiting + [W.Close])];
      }
      return true;
    }

    /** The body of `webSocketMessage`'s try, up to its first await; false is a throw. */
    method Handle(f: HFrame) returns (ok: bool)
      requires Valid()
      modifies this
      ensures ok == W.Receive(old(Abs()), f).Done?
      ensures ok ==> Abs() == W.Receive(old(Abs()), f).out.w && wire == old(wire) + W.Receive(old(Abs()), f).out.sent
      ensures !ok ==> Abs() == old(Abs()) && wire == old(wire)
    {
      assert wire + [] == wire;
      if f.Ping? {
        Send(Pong);
        return true;
      }
      if f.Keys? {
        ok := OnKeys(f.slots);
        return;
      }
      if f.id !in active {
        return false;
      }
      if active[f.id].cancelled {
        OnCancelled(f);
        return true;
      }
      if f.Cancel? {
        Fail(active[f.id].id, 504);
        return true;
      }
      if f.Ready? {
        return false;
      }
      ok := OnResponse(f);
    }

    method WebSocketMessage(f: HFrame) returns (ok: bool)
      requires Valid()
      modifies this
      ensures Valid()
      ensures ok == W.Receive(old(Abs()), f).Done?
      ensures ok ==> Abs() == W.Receive(old(Abs()), f).out.w && wire == old(wire) + W.Receive(old(Abs()), f).out.sent
      ensures !ok ==> Abs() == W.Disconnect(old(Abs())) && wire == old(wire)
    {
      ghost var w := Abs();
      ok := Handle(f);
      if ok {
        ReceiveTidy(w, f);
      } else {
        Disconnect();
      }
    }

    /** After `await job.writer.close`: the slot is free once the host has its `ready`. */
    method Closed(id: Id, job: W.Job)
      requires Valid() && id in active && job.id == id
      modifies this
      ensures Valid()
      ensures var o := W.Next(W.Retire(old(Abs()), job.(timer := W.Cleared, closed := true)));
              Abs() == o.w && wire == old(wire) + ([WFrame.Ready(id)] + o.sent)
    {
      ghost var w, wired := W.Retire(Abs(), job.(timer := W.Cleared, closed := true)), wire;
      RetireTidy(Abs(), job.(timer := W.Cleared, closed := true));
      gone := gone[job.id := job.(timer := W.Cleared, closed := true)];
      active := active - {job.id};
      Send(WFrame.Ready(id));
      assert Abs() == w;
      Assoc(wired, [WFrame.Ready(id)], W.Next(w).sent);
      Next();
    }

    /** After `await job.writer.write`: the chunk is acknowledged unless the job was cancelled. */
    method Accepted(id: Id, job: W.Job, data: Bytes)
      requires id in active
      modifies this`active, this`wire
      ensures active == old(active)[id := job.(accepted := job.accepted + data)]
      ensures wire == old(wire) + if job.cancelled then [] else [Ack(id)]
    {
      active := active[id := job.(accepted := job.accepted + data)];
      assert wire + [] == wire;
      if !job.cancelled {
        Send(Ack(id));
      }
    }

    /** The rest of `webSocketMessage` once the stream operation it awaits has settled. */
    method Resume(id: Id, ok: bool)
      requires Valid() && id in active && active[id].awaiting != []
      modifies this
      ensures Valid()
      ensures Abs() == W.Resume(old(Abs()), id, ok).w && wire == old(wire) + W.Resume(old(Abs()), id, ok).sent
    {
      assert wire + [] == wire;
      var op := active[id].awaiting[0];
      var job := active[id].(awaiting := active[id].awaiting[1..]);
      ResumeTidy(Abs(), id, ok);
      UpdateTidy(Abs(), id, job);
      if !ok {
        active := active[id := job];
        Fail(id, 499);
      } else if op.Write? {
        Accepted(id, job, op.data);
      } else if job.cancelled {
        active := active[id := job];
      } else {
        Closed(id, job);
      }
    }
  }

  /** A waiting job moved to the record of those that left. */
  function Filed(w: W.Worker, id: Id, status: int): W.Worker
    requires W.Waiting(w.queue, id)
  {
    w.(queue := W.Without(w.queue, id), gone := w.gone[id := W.Abandon(W.Find(w.queue, id), status, W.Cleared)])
  }

  lemma FailCases(w: W.Worker, id: Id, status: int)
    ensures id !in w.active && W.Waiting(w.queue, id) ==> W.Fail(w, id, status) == W.Next(Filed(w, id, status))
    ensures id !in w.active && !W.Waiting(w.queue, id) ==> W.Fail(w, id, status) == W.Out(w, [])
  {
  }

  lemma NextStep(w: W.Worker)
    requires |w.active| < W.Capacity(w) && w.queue != []
    ensures var j, o := w.queue[0], W.Next(Started(w));
            W.Next(w).w == o.w && W.Next(w).sent == StartFrames(j.id, j.meta, j.body) + o.sent
  {
  }

  /** Where `next` stands: what it has done so far, and what it would still do. */
  ghost predicate Nexting(w: W.Worker, wired: seq<WFrame>, now: W.Worker, wire: seq<WFrame>) {
    W.Next(w).w == W.Next(now).w && wired + W.Next(w).sent == wire + W.Next(now).sent
  }

  lemma NextTurn(w: W.Worker, wired: seq<WFrame>, now: W.Worker, wire: seq<WFrame>)
    requires Nexting(w, wired, now, wire) && |now.active| < W.Capacity(now) && now.queue != []
    ensures var j := now.queue[0]; Nexting(w, wired, Started(now), wire + StartFrames(j.id, j.meta, j.body))
  {
    var j := now.queue[0];
    NextStep(now);
    Assoc(wire, StartFrames(j.id, j.meta, j.body), W.Next(Started(now)).sent);
  }

  lemma NextEnds(w: W.Worker, wired: seq<WFrame>, now: W.Worker, wire: seq<WFrame>)
    requires Nexting(w, wired, now, wire) && (|now.active| >= W.Capacity(now) || now.queue == [])
    ensures now == W.Next(w).w && wire == wired + W.Next(w).sent
  {
    assert wire + [] == wire;
  }

  lemma FiledTidy(w: W.Worker, id: Id, status: int)
    requires W.Tidy(w) && id !in w.active && W.Waiting(w.queue, id)
    ensures W.Tidy(Filed(w, id, status))
  {
    var k :| 0 <= k < |w.queue| && w.queue[k].id == id;
    WithoutOne(w.queue, id, k);
    FindOne(w.queue, id, k);
    FiledExtends(w, k, W.Abandon(w.queue[k], status, W.Cleared));
  }

  lemma RetireTidy(w: W.Worker, j: W.Job)
    requires W.Tidy(w) && j.id in w.active
    ensures W.Tidy(W.Retire(w, j))
  {
  }

  /** The running jobs answered so far. */
  ghost function Severed(active: map<Id, W.Job>, done: set<Id>): map<Id, W.Job> {
    map id | id in active && id in done :: W.Abandon(active[id], 502, W.Cleared)
  }

  lemma SeverNone(gone: map<Id, W.Job>, active: map<Id, W.Job>)
    ensures gone == gone + Severed(active, active.Keys - active.Keys)
  {
  }

  lemma SeverOne(gone: map<Id, W.Job>, active: map<Id, W.Job>, left: set<Id>, id: Id)
    requires left <= active.Keys && id in left
    ensures (gone + Severed(active, active.Keys - left))[id := W.Abandon(active[id], 502, W.Cleared)]
            == gone + Severed(active, active.Keys - (left - {id}))
  {
  }

  lemma SeverAll(active: map<Id, W.Job>)
    ensures Severed(active, active.Keys - {}) == W.SeverActive(active)
  {
  }
}
