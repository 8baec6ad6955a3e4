/** Every step of the system keeps its invariant. */
module BridgeSteps {
  import opened Prelude
  import opened BridgeFrames
  import opened BridgeLocal
  import opened BridgeSystem
  import opened BridgeInvariant
  import W = BridgeWorker
  import S = BridgeSession

  // ---- the Worker ----

  /** `s` with an active job changed, its frames sent, and maybe the frame about it taken. */
  function Update(s: Sys, j: W.Job, popDown: bool, up: seq<WFrame>): Sys
    requires popDown ==> s.down != []
  {
    s.(w := s.w.(active := s.w.active[j.id := j]), up := s.up + up, down := if popDown then s.down[1..] else s.down)
  }

  function Retiring(s: Sys, j: W.Job, popDown: bool, up: seq<WFrame>): Sys
    requires popDown ==> s.down != []
  {
    s.(w := W.Retire(s.w, j), up := s.up + up, down := if popDown then s.down[1..] else s.down)
  }

  /** `next` starts the first waiting job. */
  function StartFirst(s: Sys): Sys
    requires s.w.queue != []
  {
    var j := s.w.queue[0];
    s.(w := s.w.(queue := s.w.queue[1..], active := s.w.active[j.id := j.(body := [])]),
       up := s.up + StartFrames(j.id, j.meta, j.body))
  }

  predicate Mine(s: Sys, id: Id, popDown: bool, up: seq<WFrame>) {
    (forall f :: f in up ==> WFor(f, id)) && (popDown ==> s.down != [] && HFor(s.down[0], id))
  }

  lemma AboutUpdate(s: Sys, j: W.Job, popDown: bool, up: seq<WFrame>)
    requires Mine(s, j.id, popDown, up)
    ensures About(s, Update(s, j, popDown, up), j.id, false, popDown, up, [])
  {
  }

  lemma AboutRetiring(s: Sys, j: W.Job, popDown: bool, up: seq<WFrame>)
    requires Mine(s, j.id, popDown, up)
    ensures About(s, Retiring(s, j, popDown, up), j.id, false, popDown, up, [])
  {
  }

  lemma AboutStart(s: Sys)
    requires s.w.queue != []
    ensures var j := s.w.queue[0];
            About(s, StartFirst(s), j.id, false, false, StartFrames(j.id, j.meta, j.body), [])
  {
  }

  /** The view of the job after a step of the Worker about it. */
  function Seen(s: Sys, id: Id, wj: Option<W.Job>, popDown: bool, up: seq<WFrame>): View {
    var v := Look(s, id);
    v.(wj := wj, up := v.up + up, dn := if popDown && v.dn != [] then v.dn[1..] else v.dn)
  }

  lemma UpdateViews(s: Sys, s': Sys, id: Id, popDown: bool, up: seq<WFrame>)
    requires Views(s) && About(s, s', id, false, popDown, up, [])
    requires Get(s'.h.jobs, id) == Get(s.h.jobs, id) && Wrote(s', id) == Wrote(s, id)
    requires Local(id, Seen(s, id, Get(s'.w.active, id), popDown, up))
    ensures Views(s') && forall x :: x != id ==> Look(s', x) == Look(s, x)
  {
    OneJob(s, s', id, false, popDown, up, []);
    assert Look(s', id).dn == (if popDown then Look(s, id).dn[1..] else Look(s, id).dn);
    assert Look(s', id) == Seen(s, id, Get(s'.w.active, id), popDown, up);
    ViewsKept(s, s', id);
  }

  /** An active job changes and the Worker may send frames that neither open nor release a job. */
  lemma Updated(s: Sys, j: W.Job, popDown: bool, up: seq<WFrame>)
    requires Core(s) && j.id in s.w.active && Plain(up) && Mine(s, j.id, popDown, up)
    requires forall f :: f in up ==> !f.KeysReady?
    requires Local(j.id, Seen(s, j.id, Some(j), popDown, up))
    ensures var s' := Update(s, j, popDown, up); Core(s') && (Busy(s) ==> Busy(s'))
  {
    var s' := Update(s, j, popDown, up);
    AboutUpdate(s, j, popDown, up);
    UpdateViews(s, s', j.id, popDown, up);
    assert s'.w.active.Keys == s.w.active.Keys;
    assert |s'.w.active| == |s'.w.active.Keys| && |s.w.active| == |s.w.active.Keys|;
    NegotiationKept(s, s', up);
    KeptKept(s, s', j.id);
    RoomKept(s, s', up);
  }

  /** A job leaves the active map. */
  lemma Retired(s: Sys, j: W.Job, popDown: bool, up: seq<WFrame>)
    requires Core(s) && j.id in s.w.active && Mine(s, j.id, popDown, up)
    requires Record(j, Wrote(s, j.id))
    requires Local(j.id, Seen(s, j.id, None, popDown, up))
    requires up == [WFrame.Ready(j.id)] || (up == [] && j.id !in s.h.jobs && Up(s.up, j.id) == [])
    ensures Core(Retiring(s, j, popDown, up))
  {
    var s' := Retiring(s, j, popDown, up);
    AboutRetiring(s, j, popDown, up);
    UpdateViews(s, s', j.id, popDown, up);
    NegotiationKept(s, s', up);
    KeptKept(s, s', j.id);
    RoomFreed(s, s', j.id, up);
    LoggedMore(s, s', j);
  }

  lemma LoggedMore(s: Sys, s': Sys, j: W.Job)
    requires Logged(s) && s'.w.gone == s.w.gone[j.id := j] && s'.wrote == s.wrote && Record(j, Wrote(s, j.id))
    ensures Logged(s')
  {
  }

  lemma StartViews(s: Sys)
    requires Views(s) && s.w.queue != [] && Untouched(s.w.queue[0]) && Look(s, s.w.queue[0].id) == Nowhere
    ensures Views(StartFirst(s)) && forall x :: x != s.w.queue[0].id ==> Look(StartFirst(s), x) == Look(s, x)
  {
    var j := s.w.queue[0];
    var fs := StartFrames(j.id, j.meta, j.body);
    StartLocal(j, Look(s, j.id));
    assert Seen(s, j.id, Some(j.(body := [])), false, fs)
        == Look(s, j.id).(wj := Some(j.(body := [])), up := Look(s, j.id).up + fs);
    AboutStart(s);
    UpdateViews(s, StartFirst(s), j.id, false, fs);
  }

  lemma StartRoom(s: Sys)
    requires Roomy(s) && Negotiated(s) && s.w.queue != [] && |s.w.active| < Slots(s) && s.w.queue[0].id !in s.w.active
    ensures Roomy(StartFirst(s)) && Negotiated(StartFirst(s))
  {
    var j := s.w.queue[0];
    NegotiationKept(s, StartFirst(s), StartFrames(j.id, j.meta, j.body));
    RoomTaken(s, StartFirst(s), j.id, j.meta, j.body);
  }

  lemma StartKeeps(s: Sys)
    requires Core(s) && s.w.queue != [] && |s.w.active| < Slots(s)
    ensures Core(StartFirst(s))
  {
    assert Look(s, s.w.queue[0].id) == Nowhere;
    StartViews(s);
    StartRoom(s);
    StartFirstKept(s);
  }

  lemma StartFirstKept(s: Sys)
    requires Core(s) && s.w.queue != []
    requires forall x :: x != s.w.queue[0].id ==> Look(StartFirst(s), x) == Look(s, x)
    ensures Kept(StartFirst(s))
  {
    var s' := StartFirst(s);
    assert s.w.queue[0] in s.w.queue;
    forall i | 0 <= i < |s'.w.queue| ensures Untouched(s'.w.queue[i]) && Look(s', s'.w.queue[i].id) == Nowhere {
      assert s'.w.queue[i] == s.w.queue[i + 1];
      assert s.w.queue[0].id != s.w.queue[i + 1].id;
    }
    forall i, k | 0 <= i < k < |s'.w.queue| ensures s'.w.queue[i].id != s'.w.queue[k].id {
      assert s'.w.queue[i] == s.w.queue[i + 1] && s'.w.queue[k] == s.w.queue[k + 1];
    }
  }

  /** `next` fills every free slot, and only when none is free does a job keep waiting. */
  lemma {:induction false} NextKeeps(s: Sys)
    requires Core(s)
    ensures Core(AfterWorker(s, W.Next(s.w))) && Busy(AfterWorker(s, W.Next(s.w)))
    decreases |s.w.queue|
  {
    if |s.w.active| < W.Capacity(s.w) && s.w.queue != [] {
      StartKeeps(s);
      var s1 := StartFirst(s);
      NextKeeps(s1);
      var j := s.w.queue[0];
      Assoc(s.up, StartFrames(j.id, j.meta, j.body), W.Next(s1.w).sent);
      assert AfterWorker(s, W.Next(s.w)) == AfterWorker(s1, W.Next(s1.w));
    } else {
      assert s.up + [] == s.up;
      assert AfterWorker(s, W.Next(s.w)) == s;
    }
  }

  /** A change that touches neither jobs nor any job's frames. */
  lemma Unrelated(s: Sys, s': Sys, up: seq<WFrame>, popDown: bool, down: seq<HFrame>)
    requires Core(s) && s'.live && s'.w.open && Negotiated(s') && s'.h.capacity == s.h.capacity
    requires s'.w.active == s.w.active && s'.w.queue == s.w.queue && s'.w.gone == s.w.gone
    requires s'.h.jobs == s.h.jobs && s'.used == s.used && s'.wrote == s.wrote
    requires s'.up == s.up + up && forall f :: f in up ==> f.KeysReady? || f.Pong?
    requires popDown ==> s.down != [] && (s.down[0].Keys? || s.down[0].Ping?)
    requires s'.down == (if popDown then s.down[1..] else s.down) + down && forall f :: f in down ==> f.Keys? || f.Ping?
    ensures Core(s') && (Busy(s) ==> Busy(s'))
  {
    UnrelatedLook(s, s', up, popDown, down);
    assert Views(s');
    AfterBound(s.h.jobs.Keys, s.up, Slots(s));
    FitsPlain(AfterAll(s.h.jobs.Keys, s.up), up, Slots(s));
    FitsAppend(s.h.jobs.Keys, s.up, up, Slots(s));
    assert Roomy(s');
  }

  lemma UnrelatedLook(s: Sys, s': Sys, up: seq<WFrame>, popDown: bool, down: seq<HFrame>)
    requires s'.w.active == s.w.active && s'.h.jobs == s.h.jobs && s'.wrote == s.wrote
    requires s'.up == s.up + up && forall f :: f in up ==> f.KeysReady? || f.Pong?
    requires popDown ==> s.down != [] && (s.down[0].Keys? || s.down[0].Ping?)
    requires s'.down == (if popDown then s.down[1..] else s.down) + down && forall f :: f in down ==> f.Keys? || f.Ping?
    ensures forall id :: Look(s', id) == Look(s, id)
  {
    forall id ensures Look(s', id) == Look(s, id) {
      UpAppend(s.up, up, id);
      UpNone(up, id);
      DownAppend(if popDown then s.down[1..] else s.down, down, id);
      DownNone(down, id);
    }
  }

  lemma {:induction false} UpNone(fs: seq<WFrame>, id: Id)
    requires forall f :: f in fs ==> !WFor(f, id)
    ensures Up(fs, id) == []
  {
    if fs != [] {
      assert fs[0] in fs;
      UpNone(fs[1..], id);
    }
  }

  lemma {:induction false} DownNone(fs: seq<HFrame>, id: Id)
    requires forall f :: f in fs ==> !HFor(f, id)
    ensures Down(fs, id) == []
  {
    if fs != [] {
      assert fs[0] in fs;
      DownNone(fs[1..], id);
    }
  }

  /** `webSocketMessage` on a `keys` frame: the count it carries is the one already in force. */
  lemma KeysAccepted(s: Sys)
    requires Core(s) && Busy(s) && s.down != [] && s.down[0].Keys?
    ensures var r := W.Receive(s.w, s.down[0]);
            r.Done? && Core(AfterWorker(s.(down := s.down[1..]), r.out))
            && Busy(AfterWorker(s.(down := s.down[1..]), r.out))
  {
    var slots := s.down[0].slots;
    assert s.down[0] in s.down;
    var r := W.OnKeys(s.w, slots);
    var s' := AfterWorker(s.(down := s.down[1..]), r.out);
    var up := [KeysReady(Some(Slots(s)))];
    assert s'.up == s.up + up && s'.down == s.down[1..] + [];
    if s.w.slots.None? {
      AnnouncedFirst(s.up, Some(Slots(s)));
    } else {
      AnnouncedAppend(s.h.negotiated, s.up, up);
    }
    assert Negotiated(s');
    Unrelated(s, s', up, true, []);
  }

  /** The first frame about a job in the channel is the first of its view. */
  lemma DownHead(s: Sys, id: Id)
    requires s.down != [] && HFor(s.down[0], id)
    ensures Look(s, id).dn == [s.down[0]] + Down(s.down[1..], id)
  {
  }

  lemma ActiveLocal(s: Sys, id: Id)
    requires Views(s) && id in s.w.active
    ensures Local(id, Look(s, id)) && Look(s, id).wj == Some(s.w.active[id]) && s.w.active[id].id == id
  {
    assert Local(id, Look(s, id));
  }

  lemma CancelledTurn(s: Sys, id: Id)
    requires Core(s) && Busy(s) && s.down != [] && HFor(s.down[0], id) && id in s.w.active && s.w.active[id].cancelled
    ensures var r := W.Receive(s.w, s.down[0]);
            r.Done? && Core(AfterWorker(s.(down := s.down[1..]), r.out))
            && Busy(AfterWorker(s.(down := s.down[1..]), r.out))
  {
    var v, j := Look(s, id), s.w.active[id];
    DownHead(s, id);
    assert Local(id, v);
    assert v.up + [] == v.up && s.up + [] == s.up;
    if s.down[0].Ready? {
      ConfirmLocal(id, v);
      var j' := j.(timer := W.Cleared);
      Retired(s, j', true, []);
      NextKeeps(Retiring(s, j', true, []));
    } else {
      DrainTurn(s, id);
    }
  }

  /** A late frame of a cancelled job is dropped. */
  lemma DrainTurn(s: Sys, id: Id)
    requires Core(s) && s.down != [] && HFor(s.down[0], id) && !s.down[0].Ready?
    requires id in s.w.active && s.w.active[id].cancelled
    ensures Core(s.(down := s.down[1..])) && (Busy(s) ==> Busy(s.(down := s.down[1..])))
  {
    var v, j := Look(s, id), s.w.active[id];
    DownHead(s, id);
    assert Local(id, v);
    DrainLocal(id, v);
    assert v.up + [] == v.up && s.up + [] == s.up;
    assert s.w.active[id := j] == s.w.active;
    Updated(s, j, true, []);
  }

  /** `fail` on an active job. */
  lemma ActiveFail(s: Sys, id: Id, awaiting: seq<W.Await>, status: int)
    requires Core(s) && id in s.w.active && !s.w.active[id].cancelled
    requires awaiting == s.w.active[id].awaiting
             || (s.w.active[id].awaiting != [] && awaiting == s.w.active[id].awaiting[1..])
    ensures var j := W.Abandon(s.w.active[id].(awaiting := awaiting), status, W.CancelAck);
            Core(Update(s, j, false, [WFrame.Cancel(id)]))
            && (Busy(s) ==> Busy(Update(s, j, false, [WFrame.Cancel(id)])))
  {
    var v := Look(s, id);
    assert Local(id, v);
    FailLocal(id, v, awaiting, status);
    Updated(s, W.Abandon(s.w.active[id].(awaiting := awaiting), status, W.CancelAck), false, [WFrame.Cancel(id)]);
  }

  /** A live job takes a frame of its response. */
  lemma JobTurn(s: Sys, id: Id, j: W.Job)
    requires Core(s) && Busy(s) && s.down != [] && HFor(s.down[0], id) && id in s.w.active && j.id == id
    requires var v := Look(s, id); v.dn != [] && Local(id, v.(wj := Some(j), dn := v.dn[1..]))
    ensures var s' := s.(down := s.down[1..], w := s.w.(active := s.w.active[id := j])); Core(s') && Busy(s')
  {
    assert Look(s, id).up + [] == Look(s, id).up && s.up + [] == s.up;
    Updated(s, j, true, []);
  }

  lemma ResponseTurn(s: Sys, id: Id)
    requires Core(s) && Busy(s) && s.down != [] && HFor(s.down[0], id) && id in s.w.active && !s.w.active[id].cancelled
    requires s.down[0].Response?
    ensures !s.w.active[id].writer && 200 <= s.down[0].status <= 599
    ensures var j := W.Resolve(s.w.active[id], W.Streamed(s.down[0].status)).(writer := true);
            var s' := s.(down := s.down[1..], w := s.w.(active := s.w.active[id := j])); Core(s') && Busy(s')
  {
    ActiveLocal(s, id);
    DownHead(s, id);
    ResponseLocal(id, Look(s, id));
    JobTurn(s, id, W.Resolve(s.w.active[id], W.Streamed(s.down[0].status)).(writer := true));
  }

  lemma DataTurn(s: Sys, id: Id)
    requires Core(s) && Busy(s) && s.down != [] && HFor(s.down[0], id) && id in s.w.active && !s.w.active[id].cancelled
    requires s.down[0].Data?
    ensures s.w.active[id].writer && |s.down[0].data| <= CHUNK
    ensures var j := s.w.active[id].(awaiting := s.w.active[id].awaiting + [W.Write(s.down[0].data)]);
            var s' := s.(down := s.down[1..], w := s.w.(active := s.w.active[id := j])); Core(s') && Busy(s')
  {
    ActiveLocal(s, id);
    DownHead(s, id);
    DataLocal(id, Look(s, id));
    JobTurn(s, id, s.w.active[id].(awaiting := s.w.active[id].awaiting + [W.Write(s.down[0].data)]));
  }

  lemma EndTurn(s: Sys, id: Id)
    requires Core(s) && Busy(s) && s.down != [] && HFor(s.down[0], id) && id in s.w.active && !s.w.active[id].cancelled
    requires s.down[0].End?
    ensures s.w.active[id].writer
    ensures var j := s.w.active[id].(awaiting := s.w.active[id].awaiting + [W.Close]);
            var s' := s.(down := s.down[1..], w := s.w.(active := s.w.active[id := j])); Core(s') && Busy(s')
  {
    ActiveLocal(s, id);
    DownHead(s, id);
    EndLocal(id, Look(s, id));
    JobTurn(s, id, s.w.active[id].(awaiting := s.w.active[id].awaiting + [W.Close]));
  }

  lemma LiveTurn(s: Sys, id: Id)
    requires Core(s) && Busy(s) && s.down != [] && HFor(s.down[0], id) && id in s.w.active && !s.w.active[id].cancelled
    ensures var r := W.Receive(s.w, s.down[0]);
            r.Done? && Core(AfterWorker(s.(down := s.down[1..]), r.out))
            && Busy(AfterWorker(s.(down := s.down[1..]), r.out))
  {
    ActiveLocal(s, id);
    DownHead(s, id);
    NoReadyLocal(id, Look(s, id));
    assert s.up + [] == s.up;
    match s.down[0] {
      case Response(_, _) => ResponseTurn(s, id);
      case Data(_, _) => DataTurn(s, id);
      case End(_) => EndTurn(s, id);
      case Cancel(_) => HostStopTurn(s, id);
    }
  }

  /** The host's own cancel fails the job here, and is then drained like any late frame. */
  lemma HostStopTurn(s: Sys, id: Id)
    requires Core(s) && Busy(s) && s.down != [] && s.down[0] == HFrame.Cancel(id)
    requires id in s.w.active && !s.w.active[id].cancelled
    ensures var o := W.Fail(s.w, id, 504);
            Core(AfterWorker(s.(down := s.down[1..]), o)) && Busy(AfterWorker(s.(down := s.down[1..]), o))
  {
    var j := s.w.active[id];
    ActiveLocal(s, id);
    assert j.(awaiting := j.awaiting) == j;
    ActiveFail(s, id, j.awaiting, 504);
    var s1 := Update(s, W.Abandon(j, 504, W.CancelAck), false, [WFrame.Cancel(id)]);
    DrainTurn(s1, id);
  }

  /** The Worker accepts whatever frame comes next. */
  lemma WorkerTurnKeeps(s: Sys)
    requires Core(s) && Busy(s) && s.down != []
    ensures var r := W.Receive(s.w, s.down[0]);
            r.Done? && Core(AfterWorker(s.(down := s.down[1..]), r.out))
            && Busy(AfterWorker(s.(down := s.down[1..]), r.out))
  {
    var f := s.down[0];
    if f.Ping? {
      assert s.down[1..] + [] == s.down[1..];
      var s' := AfterWorker(s.(down := s.down[1..]), W.Out(s.w, [Pong]));
      PongNegotiation(s, s');
      Unrelated(s, s', [Pong], true, []);
    } else if f.Keys? {
      KeysAccepted(s);
    } else {
      DownHead(s, f.id);
      assert Local(f.id, Look(s, f.id));
      if s.w.active[f.id].cancelled { CancelledTurn(s, f.id); } else { LiveTurn(s, f.id); }
    }
  }

  lemma PongNegotiation(s: Sys, s': Sys)
    requires Negotiated(s) && s'.h == s.h && s'.w == s.w && s'.up == s.up + [Pong]
    requires forall f :: f in s'.down && f.Keys? ==> f in s.down
    ensures Negotiated(s')
  {
    if s.w.slots.Some? {
      AnnouncedAppend(s.h.negotiated, s.up, [Pong]);
    }
  }

  // ---- the Worker's timers, aborts and settled awaits ----

  /** A waiting job leaves the queue before anything was sent for it. */
  function Dequeued(s: Sys, k: nat, j: W.Job): Sys
    requires k < |s.w.queue|
  {
    s.(w := s.w.(queue := s.w.queue[..k] + s.w.queue[k + 1..], gone := s.w.gone[j.id := j]))
  }

  lemma CutQueue(q: seq<W.Job>, k: nat)
    requires k < |q| && forall i, m :: 0 <= i < m < |q| ==> q[i].id != q[m].id
    ensures var r := q[..k] + q[k + 1..];
            && (forall i :: 0 <= i < |r| ==> r[i] == q[if i < k then i else i + 1] && r[i].id != q[k].id)
            && (forall i, m :: 0 <= i < m < |r| ==> r[i].id != r[m].id)
            && (forall j :: j in r ==> j in q && j.id != q[k].id)
  {
    var r := q[..k] + q[k + 1..];
    forall i | 0 <= i < |r| ensures r[i] == q[if i < k then i else i + 1] && r[i].id != q[k].id {
    }
  }

  lemma DequeuedKept(s: Sys, k: nat, j: W.Job)
    requires Kept(s) && k < |s.w.queue| && s.w.queue[k].id == j.id
    requires forall x :: Look(Dequeued(s, k, j), x) == Look(s, x)
    ensures Kept(Dequeued(s, k, j))
  {
    var s' := Dequeued(s, k, j);
    CutQueue(s.w.queue, k);
    assert s.w.queue[k] in s.w.queue;
    assert Look(s, j.id) == Nowhere;
    forall id | id in s'.w.active ensures id !in s'.w.gone {
      assert Look(s, id).wj.Some?;
    }
  }

  lemma DequeuedKeeps(s: Sys, k: nat, j: W.Job)
    requires Core(s) && k < |s.w.queue| && s.w.queue[k].id == j.id && Record(j, [])
    ensures Core(Dequeued(s, k, j))
  {
    var s' := Dequeued(s, k, j);
    assert Look(s, s.w.queue[k].id) == Nowhere;
    forall x ensures Look(s', x) == Look(s, x) && Local(x, Look(s', x)) {
    }
    DequeuedKept(s, k, j);
    LoggedMore(s, s', j);
  }

  lemma {:induction false} WithoutAbsent(q: seq<W.Job>, id: Id)
    requires forall i :: 0 <= i < |q| ==> q[i].id != id
    ensures W.Without(q, id) == q
  {
    if q != [] {
      WithoutAbsent(q[1..], id);
      assert q == [q[0]] + q[1..];
    }
  }

  predicate Distinct(q: seq<W.Job>) {
    forall i, k :: 0 <= i < k < |q| ==> q[i].id != q[k].id
  }

  lemma DistinctTail(q: seq<W.Job>)
    requires Distinct(q) && q != []
    ensures Distinct(q[1..])
  {
    forall i, k | 0 <= i < k < |q[1..]| ensures q[1..][i].id != q[1..][k].id {
      assert q[1..][i] == q[i + 1] && q[1..][k] == q[k + 1];
    }
  }

  lemma {:induction false} FindOne(q: seq<W.Job>, id: Id, k: nat)
    requires Distinct(q) && k < |q| && q[k].id == id
    ensures W.Waiting(q, id) && W.Find(q, id) == q[k]
  {
    if k > 0 {
      DistinctTail(q);
      assert q[1..][k - 1] == q[k];
      FindOne(q[1..], id, k - 1);
      assert q[0].id != id;
    }
  }

  /** In a queue of distinct ids, filtering one out takes exactly its place. */
  lemma {:induction false} WithoutOne(q: seq<W.Job>, id: Id, k: nat)
    requires Distinct(q) && k < |q| && q[k].id == id
    ensures W.Without(q, id) == q[..k] + q[k + 1..]
  {
    if k == 0 {
      WithoutAbsent(q[1..], id);
      assert q[..0] + q[1..] == q[1..];
    } else {
      DistinctTail(q);
      assert q[1..][k - 1] == q[k];
      WithoutOne(q[1..], id, k - 1);
      assert q[0].id != id;
      var front, back := q[1..][..k - 1], q[1..][k..];
      assert [q[0]] + front == q[..k] && back == q[k + 1..];
      Assoc([q[0]], front, back);
    }
  }

  /** A waiting job at `k`, failed: it is taken out, filed, and the next one may start. */
  lemma WaitingFailIs(w: W.Worker, id: Id, status: int, k: nat)
    requires id !in w.active && Distinct(w.queue) && k < |w.queue| && w.queue[k].id == id
    ensures var j := W.Abandon(w.queue[k], status, W.Cleared);
            W.Fail(w, id, status)
            == W.Next(w.(queue := w.queue[..k] + w.queue[k + 1..], gone := w.gone[j.id := j]))
  {
    WithoutOne(w.queue, id, k);
    FindOne(w.queue, id, k);
  }

  /** Every waiting job is as it was admitted, and so is filed in order when it fails. */
  lemma WaitingRecord(s: Sys, k: nat, status: int)
    requires Kept(s) && k < |s.w.queue|
    ensures Record(W.Abandon(s.w.queue[k], status, W.Cleared), []) && Distinct(s.w.queue)
  {
    assert Untouched(s.w.queue[k]);
  }

  lemma WaitingFail(s: Sys, id: Id, status: int)
    requires Core(s) && id !in s.w.active && W.Waiting(s.w.queue, id)
    ensures Core(AfterWorker(s, W.Fail(s.w, id, status))) && Busy(AfterWorker(s, W.Fail(s.w, id, status)))
  {
    var k :| 0 <= k < |s.w.queue| && s.w.queue[k].id == id;
    WaitingRecord(s, k, status);
    WaitingFailIs(s.w, id, status, k);
    WaitingFailKeeps(s, k, W.Abandon(s.w.queue[k], status, W.Cleared));
  }

  lemma WaitingFailKeeps(s: Sys, k: nat, j: W.Job)
    requires Core(s) && k < |s.w.queue| && s.w.queue[k].id == j.id && Record(j, [])
    ensures var s' := Dequeued(s, k, j); Core(AfterWorker(s, W.Next(s'.w))) && Busy(AfterWorker(s, W.Next(s'.w)))
  {
    var s' := Dequeued(s, k, j);
    DequeuedKeeps(s, k, j);
    NextKeeps(s');
    assert AfterWorker(s, W.Next(s'.w)) == AfterWorker(s', W.Next(s'.w));
  }

  lemma FailKeeps(s: Sys, id: Id, status: int)
    requires Core(s) && Busy(s)
    ensures Core(AfterWorker(s, W.Fail(s.w, id, status))) && Busy(AfterWorker(s, W.Fail(s.w, id, status)))
  {
    assert s.up + [] == s.up;
    if id in s.w.active {
      if !s.w.active[id].cancelled {
        var j := s.w.active[id];
        assert j.(awaiting := j.awaiting) == j;
        ActiveLocal(s, id);
        ActiveFail(s, id, j.awaiting, status);
      }
    } else if W.Waiting(s.w.queue, id) {
      WaitingFail(s, id, status);
    }
  }

  lemma ResumeWrite(s: Sys, id: Id)
    requires Core(s) && Busy(s) && id in s.w.active && s.w.active[id].awaiting != []
             && s.w.active[id].awaiting[0].Write?
    ensures Core(AfterWorker(s, W.Resume(s.w, id, true))) && Busy(AfterWorker(s, W.Resume(s.w, id, true)))
  {
    ActiveLocal(s, id);
    var j := s.w.active[id];
    WriteLocal(id, Look(s, id));
    var j' := j.(awaiting := j.awaiting[1..], accepted := j.accepted + j.awaiting[0].data);
    Updated(s, j', false, if j.cancelled then [] else [Ack(id)]);
  }

  lemma ResumeStale(s: Sys, id: Id, ok: bool)
    requires Core(s) && Busy(s) && id in s.w.active && s.w.active[id].awaiting != [] && s.w.active[id].cancelled
    requires ok ==> s.w.active[id].awaiting[0].Close?
    ensures Core(AfterWorker(s, W.Resume(s.w, id, ok))) && Busy(AfterWorker(s, W.Resume(s.w, id, ok)))
  {
    ActiveLocal(s, id);
    StaleLocal(id, Look(s, id));
    assert Look(s, id).up + [] == Look(s, id).up;
    var j := s.w.active[id].(awaiting := s.w.active[id].awaiting[1..]);
    Updated(s, j, false, []);
    assert AfterWorker(s, W.Resume(s.w, id, ok)) == Update(s, j, false, []);
  }

  lemma ResumeClose(s: Sys, id: Id)
    requires Core(s) && Busy(s) && id in s.w.active && !s.w.active[id].cancelled
    requires s.w.active[id].awaiting != [] && s.w.active[id].awaiting[0].Close?
    ensures Core(AfterWorker(s, W.Resume(s.w, id, true))) && Busy(AfterWorker(s, W.Resume(s.w, id, true)))
  {
    ActiveLocal(s, id);
    var j := s.w.active[id];
    CloseLocal(id, Look(s, id));
    var j' := j.(awaiting := j.awaiting[1..], timer := W.Cleared, closed := true);
    Retired(s, j', false, [WFrame.Ready(id)]);
    var s1 := Retiring(s, j', false, [WFrame.Ready(id)]);
    NextKeeps(s1);
    Assoc(s.up, [WFrame.Ready(id)], W.Next(s1.w).sent);
    assert AfterWorker(s, W.Resume(s.w, id, true)) == AfterWorker(s1, W.Next(s1.w));
  }

  lemma ResumeRejected(s: Sys, id: Id)
    requires Core(s) && Busy(s) && id in s.w.active && !s.w.active[id].cancelled && s.w.active[id].awaiting != []
    ensures Core(AfterWorker(s, W.Resume(s.w, id, false))) && Busy(AfterWorker(s, W.Resume(s.w, id, false)))
  {
    ActiveLocal(s, id);
    var j := s.w.active[id];
    ActiveFail(s, id, j.awaiting[1..], 499);
    var j' := W.Abandon(j.(awaiting := j.awaiting[1..]), 499, W.CancelAck);
    assert AfterWorker(s, W.Resume(s.w, id, false)) == Update(s, j', false, [WFrame.Cancel(id)]);
  }

  lemma ResumeKeeps(s: Sys, id: Id, ok: bool)
    requires Core(s) && Busy(s) && id in s.w.active && s.w.active[id].awaiting != []
    ensures Core(AfterWorker(s, W.Resume(s.w, id, ok))) && Busy(AfterWorker(s, W.Resume(s.w, id, ok)))
  {
    if ok && s.w.active[id].awaiting[0].Write? {
      ResumeWrite(s, id);
    } else if s.w.active[id].cancelled {
      ResumeStale(s, id, ok);
    } else if ok {
      ResumeClose(s, id);
    } else {
      ResumeRejected(s, id);
    }
  }

  // ---- arrivals, and the two ends of a socket ----

  lemma ArriveKept(s: Sys, j: W.Job)
    requires Core(s) && Untouched(j) && j.id !in s.used && |s.w.queue| < MAX_WAITING && s.w.slots.Some?
    ensures Core(s.(w := s.w.(queue := s.w.queue + [j]), used := s.used + {j.id}))
  {
    var q := s.w.queue + [j];
    var s' := s.(w := s.w.(queue := q), used := s.used + {j.id});
    assert forall x :: Look(s', x) == Look(s, x);
    forall i | 0 <= i < |s.w.queue| ensures s.w.queue[i].id != j.id {
      assert s.w.queue[i] in s.w.queue;
    }
    forall x | x in q ensures x.id in s'.used && x.id !in s'.w.gone {
      assert x in s.w.queue || x == j;
    }
    assert Kept(s');
  }

  /** Everything the Worker severs is answered; nothing it delivered was out of place. */
  lemma ActiveRecord(s: Sys, id: Id)
    requires Core(s) && id in s.w.active
    ensures Record(W.Abandon(s.w.active[id], 502, W.Cleared), Wrote(s, id)) && id in s.used
  {
    ActiveLocal(s, id);
    var v, j := Look(s, id), s.w.active[id];
    if !j.cancelled && !Uploading(id, j, v) {
      var fl :| Answering(id, j, v, fl);
      FailAnswering(id, j, v, fl, j);
    }
  }

  lemma QueueRecord(s: Sys, j: W.Job)
    requires Core(s) && j in s.w.queue
    ensures Record(W.Abandon(j, 502, W.Cleared), Wrote(s, j.id)) && j.id in s.used
  {
    var i :| 0 <= i < |s.w.queue| && s.w.queue[i] == j;
    assert Untouched(s.w.queue[i]);
  }

  lemma GoneRecord(s: Sys, id: Id)
    requires Core(s) && id in W.Disconnect(s.w).gone
    ensures Record(W.Disconnect(s.w).gone[id], Wrote(s, id)) && id in s.used
  {
    if id in W.SeverQueue(s.w.queue) {
      var j := W.SeveredFrom(s.w.queue, id);
      QueueRecord(s, j);
    } else if id in s.w.active {
      ActiveRecord(s, id);
    }
  }

  lemma SeverLive(s: Sys)
    requires Core(s)
    ensures var w := W.Disconnect(s.w);
            w.gone.Keys <= s.used && forall id :: id in w.gone ==> Record(w.gone[id], Wrote(s, id))
  {
    var w := W.Disconnect(s.w);
    forall id | id in w.gone ensures Record(w.gone[id], Wrote(s, id)) && id in s.used {
      GoneRecord(s, id);
    }
  }

  lemma SeverKeeps(s: Sys)
    requires Inv(s)
    ensures Offline(s.(live := false, w := W.Disconnect(s.w)))
  {
    if s.live {
      SeverLive(s);
    } else {
      assert s.w.gone + W.SeverActive(map[]) + W.SeverQueue([]) == s.w.gone;
    }
  }

  /** A new socket starts from nothing but the announced capacity. */
  lemma ReconnectKeeps(s: Sys, c: int)
    requires Inv(s) && Enabled(s, Reconnect(c))
    ensures Inv(Do(s, Reconnect(c)))
  {
    SeverKeeps(s);
    Fresh(s.(live := false, w := W.Disconnect(s.w)), c);
  }

  lemma Fresh(s: Sys, c: int)
    requires Offline(s) && GoodCapacity(c)
    ensures var s' := s.(w := s.w.(open := true), h := S.Connect(c), up := [], down := [Keys(Some(c))], live := true);
            Core(s') && Busy(s') && s'.wrote.Keys <= s'.used
  {
    var s' := s.(w := s.w.(open := true), h := S.Connect(c), up := [], down := [Keys(Some(c))], live := true);
    forall id ensures Look(s', id) == Nowhere.(wrote := Wrote(s, id)) {
      assert Down([Keys(Some(c))], id) == [];
    }
    assert Negotiated(s') && Roomy(s');
  }
}
