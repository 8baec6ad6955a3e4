/** The hypotheses of the protocol, each shown to be exactly what the code needs, and a state where it fails. */
module BridgeEdges {
  import opened Prelude
  import opened BridgeFrames
  import opened BridgeSystem
  import opened BridgeInvariant
  import opened BridgeTheorems
  import opened BridgeProgress
  import W = BridgeWorker
  import S = BridgeSession

  // ---- runs from any state ----

  /** The state after some steps, when every one of them was enabled. */
  function RunFrom(s: Sys, steps: seq<Step>): Option<Sys>
    decreases |steps|
  {
    if steps == [] then Some(s)
    else if Enabled(s, steps[0]) then RunFrom(Do(s, steps[0]), steps[1..])
    else None
  }

  /** A run that ends in an error branch of either end. */
  predicate Faults(s: Sys, steps: seq<Step>) {
    RunFrom(s, steps).Some? && RunFrom(s, steps).value.fault
  }

  /** The dispatcher reads, and handlers that have nothing else to do return. */
  predicate HostOnly(steps: seq<Step>) {
    forall step :: step in steps ==> step.HostTurn? || (step.Handler? && step.move == S.Return)
  }

  lemma {:induction false} RunJoin(s: Sys, a: seq<Step>, b: seq<Step>)
    requires RunFrom(s, a).Some?
    ensures RunFrom(s, a + b) == RunFrom(RunFrom(s, a).value, b)
    decreases |a|
  {
    if a == [] {
      assert a + b == b;
    } else {
      assert (a + b)[0] == a[0] && (a + b)[1..] == a[1..] + b;
      RunJoin(Do(s, a[0]), a[1..], b);
    }
  }

  lemma RunCons(s: Sys, step: Step, rest: seq<Step>)
    requires Enabled(s, step)
    ensures RunFrom(s, [step] + rest) == RunFrom(Do(s, step), rest)
  {
    assert ([step] + rest)[1..] == rest;
  }

  lemma {:induction false} RunFromKeeps(s: Sys, steps: seq<Step>)
    requires Inv(s)
    ensures RunFrom(s, steps).Some? ==> Inv(RunFrom(s, steps).value)
    decreases |steps|
  {
    if steps != [] && Enabled(s, steps[0]) {
      StepKeeps(s, steps[0]);
      RunFromKeeps(Do(s, steps[0]), steps[1..]);
    }
  }

  /** An upload joins the queue, whatever its path and whatever the state of the negotiation. */
  function Enqueue(s: Sys, j: W.Job): Sys
    requires W.Admit(s.w, j).Some?
  {
    AfterWorker(s, W.Admit(s.w, j).value).(used := s.used + {j.id})
  }

  /** With a free slot it starts at once, and its frames are the last on the wire. */
  lemma EnqueuedAtOnce(s: Sys, j: W.Job)
    requires s.w.open && s.w.queue == [] && |s.w.active| < W.Capacity(s.w)
    ensures W.Admit(s.w, j).Some?
    ensures Enqueue(s, j) == s.(w := Enqueue(s, j).w, used := s.used + {j.id},
                                up := s.up + StartFrames(j.id, j.meta, j.body))
  {
    var w1 := s.w.(queue := s.w.queue + [j]);
    assert w1.queue == [j] && w1.queue[1..] == [];
    var w2 := w1.(queue := [], active := s.w.active[j.id := j.(body := [])]);
    assert W.Next(w2).sent == [];
    assert W.Next(w1).sent == StartFrames(j.id, j.meta, j.body) + [];
  }

  // ---- admission and enqueueing belong to one negotiated socket ----

  /** The host reads up to `n` frames and nothing else happens. */
  function HostReads(s: Sys, n: nat): Sys
    decreases n
  {
    if n == 0 || !Enabled(s, HostTurn) then s else HostReads(Do(s, HostTurn), n - 1)
  }

  lemma {:induction false} ReadsRun(s: Sys, n: nat) returns (steps: seq<Step>)
    ensures RunFrom(s, steps) == Some(HostReads(s, n))
    decreases n
  {
    steps := [];
    if n != 0 && Enabled(s, HostTurn) {
      var more := ReadsRun(Do(s, HostTurn), n - 1);
      steps := [HostTurn] + more;
      RunCons(s, HostTurn, more);
    }
  }

  lemma ReadsKeep(s: Sys, n: nat)
    requires Inv(s)
    ensures Inv(HostReads(s, n))
  {
    var steps := ReadsRun(s, n);
    RunFromKeeps(s, steps);
  }

  lemma {:induction false} SkipPongs(s: Sys, pongs: seq<WFrame>, f: WFrame, rest: seq<WFrame>)
    requires s.live && OnlyPongs(pongs) && s.up == pongs + [f] + rest && S.Dispatch(s.h, f).Fault?
    ensures HostReads(s, |pongs| + 1).fault
    decreases pongs
  {
    if pongs == [] {
      assert s.up[0] == f;
      assert HostReads(s, 1) == HostReads(Do(s, HostTurn), 0);
    } else {
      assert pongs[0] in pongs;
      assert s.up[0] == pongs[0] && s.up[1..] == pongs[1..] + [f] + rest;
      SkipPongs(Do(s, HostTurn), pongs[1..], f, rest);
    }
  }

  /** Before the Worker has seen the socket's `keys`, the request overtakes the `keys_ready`. */
  lemma EpochMissed(s: Sys, j: W.Job)
    requires Inv(s) && s.live && s.w.slots.None?
    ensures W.Admit(s.w, j).Some? && HostReads(Enqueue(s, j), |s.up| + 1).fault
  {
    EnqueuedAtOnce(s, j);
    var fs := StartFrames(j.id, j.meta, j.body);
    assert fs == [fs[0]] + fs[1..];
    Assoc(s.up, [fs[0]], fs[1..]);
    SkipPongs(Enqueue(s, j), s.up, fs[0], fs[1..]);
  }

  lemma EpochMet(s: Sys, j: W.Job, n: nat)
    requires Inv(s) && s.live && s.w.slots.Some? && Untouched(j) && j.id !in s.used && W.Admit(s.w, j).Some?
    ensures !HostReads(Enqueue(s, j), n).fault
  {
    ArriveKeeps(s, j.id, j.meta, j.body);
    ReadsKeep(Enqueue(s, j), n);
  }

  /**
   An upload that completes on this socket meets an error at the host's dispatcher exactly when the
   Worker has not yet seen this socket's `keys`: the request then overtakes the `keys_ready`.
   */
  lemma EpochHypothesis(s: Sys, j: W.Job)
    requires Inv(s) && s.live && Untouched(j) && j.id !in s.used && W.Admit(s.w, j).Some?
    ensures (exists n :: HostReads(Enqueue(s, j), n).fault) <==> s.w.slots.None?
  {
    if s.w.slots.None? {
      EpochMissed(s, j);
    } else {
      forall n: nat ensures !HostReads(Enqueue(s, j), n).fault {
        EpochMet(s, j, n);
      }
    }
  }

  // ---- a path has well-formed escapes ----

  /** The host reads all that is on the wire; where it has to wait, the handler it waits for returns. */
  lemma DrainUp(s: Sys) returns (steps: seq<Step>)
    requires Inv(s) && s.live
    ensures HostOnly(steps) && RunFrom(s, steps).Some?
    ensures var t := RunFrom(s, steps).value; Inv(t) && t.live && t.up == [] && t.w == s.w
    ensures RunFrom(s, steps).value.h.capacity == s.h.capacity
    decreases |s.up|
  {
    if s.up == [] {
      steps := [];
    } else {
      var first, t := ReadOne(s);
      var rest := DrainUp(t);
      steps := first + rest;
      RunJoin(s, first, rest);
    }
  }

  lemma ReadOne(s: Sys) returns (steps: seq<Step>, t: Sys)
    requires Inv(s) && s.live && s.up != []
    ensures HostOnly(steps) && RunFrom(s, steps) == Some(t)
    ensures Inv(t) && t.live && t.up == s.up[1..] && t.w == s.w && t.h.capacity == s.h.capacity
  {
    if S.Dispatch(s.h, s.up[0]).Blocked? {
      WaitEndsAt(s);
      var move := Handler(s.up[0].id, S.Return);
      var u := Do(s, move);
      StepKeeps(s, move);
      assert u.up == s.up && u.w == s.w && u.live && S.Dispatch(u.h, u.up[0]).Go?;
      t := ReadGoes(u);
      steps := [move, HostTurn];
      assert RunFrom(s, steps) == RunFrom(u, [HostTurn]);
    } else {
      t := ReadGoes(s);
      steps := [HostTurn];
    }
  }

  lemma ReadGoes(s: Sys) returns (t: Sys)
    requires Inv(s) && s.live && s.up != [] && !S.Dispatch(s.h, s.up[0]).Blocked?
    ensures RunFrom(s, [HostTurn]) == Some(t)
    ensures Inv(t) && t.live && t.up == s.up[1..] && t.w == s.w && t.h.capacity == s.h.capacity
  {
    StepKeeps(s, HostTurn);
    t := Do(s, HostTurn);
    assert [HostTurn][1..] == [];
    assert !t.fault;
  }

  /** What is put on the wire behind does not change how the host reads what is before it. */
  lemma {:induction false} ReadBefore(s: Sys, s2: Sys, steps: seq<Step>, behind: seq<WFrame>)
    requires s2 == s.(w := s2.w, used := s2.used, up := s.up + behind)
    requires HostOnly(steps) && RunFrom(s, steps).Some? && RunFrom(s, steps).value.live
    ensures var t := RunFrom(s, steps).value;
            RunFrom(s2, steps) == Some(t.(w := s2.w, used := s2.used, up := t.up + behind))
    decreases |steps|
  {
    if steps != [] {
      var step := steps[0];
      assert step in steps && forall x :: x in steps[1..] ==> x in steps;
      var t, t2 := Do(s, step), Do(s2, step);
      if step.HostTurn? {
        assert s2.up[0] == s.up[0] && s2.up[1..] == s.up[1..] + behind;
        StaysDead(t, steps[1..]);
      }
      assert t2 == t.(w := s2.w, used := s2.used, up := t.up + behind);
      ReadBefore(t, t2, steps[1..], behind);
    }
  }

  /** The host's steps do not bring a socket back. */
  lemma {:induction false} StaysDead(s: Sys, steps: seq<Step>)
    requires HostOnly(steps) && RunFrom(s, steps).Some? && RunFrom(s, steps).value.live
    ensures s.live
    decreases |steps|
  {
    if steps != [] {
      assert steps[0] in steps && forall x :: x in steps[1..] ==> x in steps;
      StaysDead(Do(s, steps[0]), steps[1..]);
    }
  }

  /** The body of an upload the host has begun to read, up to its `end`. */
  lemma {:induction false} ReadBody(s: Sys, id: Id, meta: Meta, got: Bytes, rest: Bytes) returns (steps: seq<Step>)
    requires s.live && id in s.h.jobs && s.h.jobs[id] == S.Receiving(meta, got) && |got| + |rest| <= MAX_BODY
    requires s.up == BodyFrames(id, rest) + [WFrame.End(id)]
    ensures HostOnly(steps) && RunFrom(s, steps).Some? && AtEnd(RunFrom(s, steps).value, id, meta, got + rest)
    decreases |rest|
  {
    if rest == [] {
      steps := [];
      assert BodyFrames(id, rest) + [WFrame.End(id)] == [WFrame.End(id)] && got + rest == got;
    } else {
      var n := Min(CHUNK, |rest|);
      BodyRead(s, id, meta, got, rest, n);
      var more := ReadBody(Do(s, HostTurn), id, meta, got + rest[..n], rest[n..]);
      steps := [HostTurn] + more;
      OneMoreTurn(s, more);
      assert rest == rest[..n] + rest[n..];
      Assoc(got, rest[..n], rest[n..]);
    }
  }

  /** All but the `end` of an upload has been read. */
  ghost predicate AtEnd(s: Sys, id: Id, meta: Meta, body: Bytes) {
    s.live && s.up == [WFrame.End(id)] && id in s.h.jobs && s.h.jobs[id] == S.Receiving(meta, body)
  }

  lemma OneMoreTurn(s: Sys, more: seq<Step>)
    requires Enabled(s, HostTurn) && HostOnly(more)
    ensures HostOnly([HostTurn] + more) && RunFrom(s, [HostTurn] + more) == RunFrom(Do(s, HostTurn), more)
  {
    RunCons(s, HostTurn, more);
  }

  lemma BodyRead(s: Sys, id: Id, meta: Meta, got: Bytes, rest: Bytes, n: nat)
    requires s.live && id in s.h.jobs && s.h.jobs[id] == S.Receiving(meta, got) && |got| + |rest| <= MAX_BODY
    requires rest != [] && n == Min(CHUNK, |rest|) && s.up == BodyFrames(id, rest) + [WFrame.End(id)]
    ensures Enabled(s, HostTurn)
    ensures var t := Do(s, HostTurn);
            && t.live && t.up == BodyFrames(id, rest[n..]) + [WFrame.End(id)]
            && id in t.h.jobs && t.h.jobs[id] == S.Receiving(meta, got + rest[..n])
  {
    HeadTail(WFrame.Body(id, rest[..n]), BodyFrames(id, rest[n..]), [WFrame.End(id)]);
  }

  /** Of a whole upload; at its `end` the session is over exactly when the path is malformed. */
  lemma ReadUpload(s: Sys, id: Id, meta: Meta, body: Bytes) returns (steps: seq<Step>)
    requires s.live && !s.fault && s.up == StartFrames(id, meta, body) && |body| <= MAX_BODY
    requires s.h.negotiated && |s.h.jobs| < s.h.limit && id !in s.h.jobs && GoodId(id) && AdmissibleMeta(meta)
    ensures HostOnly(steps) && RunFrom(s, steps).Some?
    ensures RunFrom(s, steps).value.fault <==> !EscapesParse(meta.path)
  {
    var begun := Do(s, HostTurn);
    Assoc([Request(id, meta)], BodyFrames(id, body), [WFrame.End(id)]);
    assert s.up[0] == Request(id, meta) && s.up[1..] == BodyFrames(id, body) + [WFrame.End(id)];
    var turns := ReadBody(begun, id, meta, [], body);
    var ended := RunFrom(begun, turns).value;
    NoFaultYet(begun, turns);
    steps := [HostTurn] + turns + [HostTurn];
    assert ([HostTurn] + turns)[1..] == turns;
    assert RunFrom(s, [HostTurn] + turns) == Some(ended);
    RunJoin(s, [HostTurn] + turns, [HostTurn]);
    assert [HostTurn][1..] == [];
  }

  /** A session still live has not failed. */
  lemma {:induction false} NoFaultYet(s: Sys, steps: seq<Step>)
    requires HostOnly(steps) && !s.fault && RunFrom(s, steps).Some? && RunFrom(s, steps).value.live
    ensures !RunFrom(s, steps).value.fault
    decreases |steps|
  {
    if steps != [] {
      assert steps[0] in steps && forall x :: x in steps[1..] ==> x in steps;
      StaysDead(Do(s, steps[0]), steps[1..]);
      NoFaultYet(Do(s, steps[0]), steps[1..]);
    }
  }

  /** With nothing left to read, the host has room for every job the Worker has a slot for. */
  lemma RoomForOne(s: Sys, id: Id)
    requires Inv(s) && s.live && s.up == [] && s.w.slots.Some? && |s.w.active| < Slots(s) && id !in s.used
    ensures s.h.negotiated && |s.h.jobs| < s.h.limit && id !in s.h.jobs
  {
    assert AfterAll(s.h.jobs.Keys, s.up) == s.h.jobs.Keys;
    Shrinks(s.h.jobs.Keys, s.w.active.Keys);
    assert |s.h.jobs| == |s.h.jobs.Keys| && |s.w.active| == |s.w.active.Keys|;
    assert id in s.w.active ==> id in s.used;
  }

  lemma FreeSlot(s: Sys)
    requires Inv(s) && s.live && s.w.slots.Some? && |s.w.active| < Slots(s)
    ensures s.w.open && s.w.queue == [] && |s.w.active| < W.Capacity(s.w)
  {
  }

  lemma BadEscapeFaults(s: Sys, id: Id, meta: Meta, body: Bytes) returns (steps: seq<Step>)
    requires Inv(s) && s.live && s.w.slots.Some? && |s.w.active| < Slots(s)
    requires id !in s.used && GoodId(id) && AdmissibleMeta(meta) && |body| <= MAX_BODY && !EscapesParse(meta.path)
    ensures W.Admit(s.w, W.NewJob(id, meta, body)).Some?
    ensures HostOnly(steps) && Faults(Enqueue(s, W.NewJob(id, meta, body)), steps)
  {
    var j := W.NewJob(id, meta, body);
    FreeSlot(s);
    EnqueuedAtOnce(s, j);
    var before := DrainUp(s);
    var t, s2 := RunFrom(s, before).value, Enqueue(s, j);
    assert t.used == s.used by { UsedStays(s, before); }
    RoomForOne(t, id);
    ReadBefore(s, s2, before, StartFrames(id, meta, body));
    var t2 := RunFrom(s2, before).value;
    assert t2.up == StartFrames(id, meta, body);
    var upload := ReadUpload(t2, id, meta, body);
    RunJoin(s2, before, upload);
    steps := before + upload;
  }

  lemma {:induction false} UsedStays(s: Sys, steps: seq<Step>)
    requires HostOnly(steps) && RunFrom(s, steps).Some?
    ensures RunFrom(s, steps).value.used == s.used
    decreases |steps|
  {
    if steps != [] {
      assert steps[0] in steps && forall x :: x in steps[1..] ==> x in steps;
      UsedStays(Do(s, steps[0]), steps[1..]);
    }
  }

  lemma GoodEscapeHolds(s: Sys, id: Id, meta: Meta, body: Bytes, steps: seq<Step>)
    requires Inv(s) && s.live && s.w.slots.Some? && W.Admit(s.w, W.NewJob(id, meta, body)).Some?
    requires id !in s.used && GoodId(id) && GoodMeta(meta) && |body| <= MAX_BODY
    ensures !Faults(Enqueue(s, W.NewJob(id, meta, body)), steps)
  {
    ArriveKeeps(s, id, meta, body);
    RunFromKeeps(Enqueue(s, W.NewJob(id, meta, body)), steps);
  }

  /**
   A client's upload that the Worker lets through, for which a slot is free, ends the host's session -
   with the jobs of everybody else - exactly when its path has a malformed escape: then the host only
   has to read it, whatever else is on the wire before it; and otherwise no run from there ever fails.
   */
  lemma EscapeHypothesis(s: Sys, id: Id, meta: Meta, body: Bytes)
    requires Inv(s) && s.live && s.w.slots.Some? && |s.w.active| < Slots(s)
    requires id !in s.used && GoodId(id) && AdmissibleMeta(meta) && |body| <= MAX_BODY
    ensures var j := W.NewJob(id, meta, body);
            && W.Admit(s.w, j).Some?
            && ((exists steps :: HostOnly(steps) && Faults(Enqueue(s, j), steps)) <==> !EscapesParse(meta.path))
            && ((exists steps :: Faults(Enqueue(s, j), steps)) <==> !EscapesParse(meta.path))
  {
    var j := W.NewJob(id, meta, body);
    FreeSlot(s);
    EnqueuedAtOnce(s, j);
    if EscapesParse(meta.path) {
      forall steps ensures !Faults(Enqueue(s, j), steps) {
        GoodEscapeHolds(s, id, meta, body, steps);
      }
    } else {
      var steps := BadEscapeFaults(s, id, meta, body);
      assert Faults(Enqueue(s, j), steps);
    }
  }

  /** A percent sign at `i`, before any query, is followed by two hexadecimal digits. */
  predicate EscapedAt(path: string, i: nat) {
    i < |path| && path[i] == '%' && '?' !in path[..i] ==> i + 2 < |path| && Hex(path[i + 1]) && Hex(path[i + 2])
  }

  lemma EscapedLater(path: string, k: nat, i: nat)
    requires k <= i && k <= |path| && '?' !in path[..k]
    ensures EscapedAt(path, i) <==> EscapedAt(path[k..], i - k)
  {
    if i < |path| {
      assert path[..i] == path[..k] + path[k..][..i - k];
    }
  }

  /** Escapes are well-formed exactly when each percent sign before the query starts one. */
  lemma {:induction false} EscapesExactly(path: string)
    ensures EscapesParse(path) <==> forall i: nat :: EscapedAt(path, i)
  {
    if path != "" {
      if path[0] == '?' {
        forall i: nat ensures EscapedAt(path, i) {
          assert 0 < i < |path| ==> path[..i][0] == '?';
        }
      } else {
        var k := if path[0] == '%' then 3 else 1;
        assert EscapedAt(path, 0) <==> (path[0] == '%' ==> |path| >= 3 && Hex(path[1]) && Hex(path[2]));
        if EscapedAt(path, 0) {
          assert '?' !in path[..k] && forall j :: 0 < j < k ==> path[j] != '%';
          EscapesExactly(path[k..]);
          forall i: nat | k <= i ensures EscapedAt(path, i) <==> EscapedAt(path[k..], i - k) {
            EscapedLater(path, k, i);
          }
          forall j: nat ensures EscapedAt(path[k..], j) <==> EscapedAt(path, j + k) {
            EscapedLater(path, k, j + k);
          }
        }
      }
    }
  }

  // ---- a snapshot has a slot count ----

  /**
   The snapshot without slots that the host sends when it cannot list its keys is refused by the
   Worker exactly when another slot count than one is in force.
   */
  lemma SlotlessKeys(s: Sys)
    requires Reachable(s) && s.live
    ensures W.Receive(s.w, Keys(None)).Fault? <==> s.w.slots.Some? && Slots(s) != 1
  {
    ReachableInv(s);
  }

  // ---- states in which they fail ----

  /** A host has connected and the Worker has not read its `keys` yet; and then it has. */
  function Connected(c: int): Sys
    requires GoodCapacity(c)
  {
    Do(Initial, Reconnect(c))
  }

  function Negotiating(c: int): Sys
    requires GoodCapacity(c)
  {
    Do(Connected(c), WorkerTurn)
  }

  lemma ConnectedReachable(c: int)
    requires GoodCapacity(c)
    ensures Reachable(Connected(c)) && Reachable(Negotiating(c))
    ensures Connected(c).live && Connected(c).w.slots.None? && Connected(c).used == {}
    ensures var s := Negotiating(c);
            s.live && s.w.slots == Some(Min(MAX_SLOTS, c)) && s.w.active == map[] && s.w.queue == [] && s.used == {}
  {
    var one, two := [Reconnect(c)], [Reconnect(c), WorkerTurn];
    assert one[..0] == [] && two[..1] == one;
    assert Run([]) == Some(Initial);
    assert Run(one) == Some(Connected(c));
    assert Run(two) == Some(Negotiating(c));
  }

  /** Any upload enqueued just after a reconnect, before the Worker has read the new `keys`, ends the new session. */
  lemma EpochFails(j: W.Job)
    requires Untouched(j)
    ensures var s := Connected(2);
            && Reachable(s) && s.live && j.id !in s.used && W.Admit(s.w, j).Some?
            && HostReads(Enqueue(s, j), |s.up| + 1).fault
  {
    ConnectedReachable(2);
    ReachableInv(Connected(2));
    EpochMissed(Connected(2), j);
  }

  /** Such as this one. */
  lemma AnUpload()
    ensures Untouched(W.NewJob("a", Meta("GET", "/v1/"), []))
  {
    NoPercent("/v1/");
  }

  lemma {:induction false} NoPercent(path: string)
    requires '%' !in path
    ensures EscapesParse(path)
  {
    if path != "" && path[0] != '?' {
      NoPercent(path[1..]);
    }
  }

  /** With two slots in force, a failed listing of the keys ends the session. */
  lemma SlotlessFails()
    ensures var s := Negotiating(2);
            Reachable(s) && s.live && s.w.slots == Some(2) && W.Receive(s.w, Keys(None)).Fault?
  {
    ConnectedReachable(2);
  }

  /** The path `/v1/%` passes the Worker, and has a bad escape. */
  lemma BadEscapeAdmitted()
    ensures AdmissibleMeta(Meta("GET", "/v1/%")) && !GoodMeta(Meta("GET", "/v1/%"))
  {
    var path := "/v1/%";
    assert path[1..][0] == 'v' && path[1..][1..][0] == '1' && path[1..][1..][1..][0] == '/';
    assert path[1..][1..][1..][1..] == "%";
    assert !EscapesParse("%");
  }

  /** So a `GET /v1/%` to a host that has just connected ends its session. */
  lemma EscapeFails() returns (steps: seq<Step>)
    ensures var s, j := Negotiating(1), W.NewJob("a", Meta("GET", "/v1/%"), []);
            && Reachable(s) && s.live && s.w.slots.Some? && W.Admit(s.w, j).Some?
            && HostOnly(steps) && Faults(Enqueue(s, j), steps)
  {
    ConnectedReachable(1);
    ReachableInv(Negotiating(1));
    BadEscapeAdmitted();
    steps := BadEscapeFaults(Negotiating(1), "a", Meta("GET", "/v1/%"), []);
  }
}
