/**
 The invariant of the whole system: every job's view is local, the slot count is negotiated
 before any request reaches the host, and the host never has to hold more jobs than slots.
 */
module BridgeInvariant {
  import opened Prelude
  import opened BridgeFrames
  import opened BridgeLocal
  import opened BridgeSystem
  import W = BridgeWorker

  const Nowhere := View(None, None, [], [], [])

  function Look(s: Sys, id: Id): View {
    View(Get(s.w.active, id), Get(s.h.jobs, id), Up(s.up, id), Down(s.down, id), Wrote(s, id))
  }

  /** The slot count both ends will use. */
  function Slots(s: Sys): int {
    W.Clamp(Some(s.h.capacity))
  }

  // ---- what the channel to the host will do to its job map ----

  function AfterFrame(jobs: set<Id>, f: WFrame): set<Id> {
    if f.Request? then jobs + {f.id} else if f.Ready? then jobs - {f.id} else jobs
  }

  function AfterAll(jobs: set<Id>, up: seq<WFrame>): set<Id>
    decreases up
  {
    if up == [] then jobs else AfterAll(AfterFrame(jobs, up[0]), up[1..])
  }

  /** However far the host reads, it holds at most `slots` jobs. */
  predicate Fits(jobs: set<Id>, up: seq<WFrame>, slots: int)
    decreases up
  {
    |jobs| <= slots && (up != [] ==> Fits(AfterFrame(jobs, up[0]), up[1..], slots))
  }

  lemma Shrinks(a: set<Id>, b: set<Id>)
    requires a <= b
    ensures |a| <= |b|
  {
    assert b == a + (b - a);
  }

  lemma {:induction false} FitsSubset(a: set<Id>, b: set<Id>, up: seq<WFrame>, slots: int)
    requires a <= b && Fits(b, up, slots)
    ensures Fits(a, up, slots) && AfterAll(a, up) <= AfterAll(b, up)
    decreases up
  {
    Shrinks(a, b);
    if up != [] {
      FitsSubset(AfterFrame(a, up[0]), AfterFrame(b, up[0]), up[1..], slots);
    }
  }

  lemma {:induction false} FitsAppend(jobs: set<Id>, up: seq<WFrame>, more: seq<WFrame>, slots: int)
    requires Fits(jobs, up, slots) && Fits(AfterAll(jobs, up), more, slots)
    ensures Fits(jobs, up + more, slots)
    ensures AfterAll(jobs, up + more) == AfterAll(AfterAll(jobs, up), more)
    decreases up
  {
    if up == [] {
      assert up + more == more;
    } else {
      assert up == [up[0]] + up[1..];
      HeadTail(up[0], up[1..], more);
      FitsAppend(AfterFrame(jobs, up[0]), up[1..], more, slots);
    }
  }

  /** Frames that neither open nor release a job. */
  predicate Plain(fs: seq<WFrame>) {
    forall f :: f in fs ==> !f.Request? && !f.Ready?
  }

  lemma {:induction false} FitsPlain(jobs: set<Id>, fs: seq<WFrame>, slots: int)
    requires Plain(fs) && |jobs| <= slots
    ensures Fits(jobs, fs, slots) && AfterAll(jobs, fs) == jobs
    decreases fs
  {
    if fs != [] {
      assert fs[0] in fs;
      FitsPlain(jobs, fs[1..], slots);
    }
  }

  lemma {:induction false} AfterBound(jobs: set<Id>, up: seq<WFrame>, slots: int)
    requires Fits(jobs, up, slots)
    ensures |AfterAll(jobs, up)| <= slots
    decreases up
  {
    if up != [] {
      AfterBound(AfterFrame(jobs, up[0]), up[1..], slots);
    }
  }

  /** A job the host does not hold and no frame names will not be held. */
  lemma {:induction false} NotAfter(jobs: set<Id>, up: seq<WFrame>, id: Id)
    requires id !in jobs && Up(up, id) == []
    ensures id !in AfterAll(jobs, up)
    decreases up
  {
    if up != [] {
      assert !WFor(up[0], id);
      NotAfter(AfterFrame(jobs, up[0]), up[1..], id);
    }
  }

  // ---- negotiation ----

  /** The host is negotiated, or will be before it reads a request. */
  predicate Announced(negotiated: bool, up: seq<WFrame>)
    decreases up
  {
    negotiated || (up != [] && !up[0].Request? && Announced(up[0].KeysReady?, up[1..]))
  }

  lemma {:induction false} AnnouncedAppend(negotiated: bool, up: seq<WFrame>, more: seq<WFrame>)
    requires Announced(negotiated, up)
    ensures Announced(negotiated, up + more)
    decreases up
  {
    if !negotiated {
      assert up == [up[0]] + up[1..];
      HeadTail(up[0], up[1..], more);
      AnnouncedAppend(up[0].KeysReady?, up[1..], more);
    }
  }

  predicate OnlyPongs(up: seq<WFrame>) {
    forall f :: f in up ==> f.Pong?
  }

  lemma {:induction false} AnnouncedFirst(up: seq<WFrame>, slots: Option<int>)
    requires OnlyPongs(up)
    ensures Announced(false, up + [KeysReady(slots)])
    decreases up
  {
    if up != [] {
      assert up[0] in up;
      assert up == [up[0]] + up[1..];
      HeadTail(up[0], up[1..], [KeysReady(slots)]);
      AnnouncedFirst(up[1..], slots);
    }
  }

  predicate Negotiated(s: Sys) {
    && GoodCapacity(s.h.capacity)
    && (forall f :: f in s.down && f.Keys? ==> f.slots == Some(s.h.capacity))
    && (forall f :: f in s.up && f.KeysReady? ==> f.slots == Some(Slots(s)))
    && (s.h.negotiated ==> s.h.limit == Slots(s))
    && if s.w.slots.None? then s.w.queue == [] && s.w.active == map[] && !s.h.negotiated && OnlyPongs(s.up)
       else s.w.slots.value == Slots(s) && Announced(s.h.negotiated, s.up)
  }

  // ---- the rest ----

  ghost predicate Views(s: Sys) {
    forall id :: Local(id, Look(s, id))
  }

  /** A job still in the queue: nothing has happened to it. */
  predicate Untouched(j: W.Job) {
    j == W.NewJob(j.id, j.meta, j.body) && GoodId(j.id) && GoodMeta(j.meta) && |j.body| <= MAX_BODY
  }

  ghost predicate Kept(s: Sys) {
    && (forall i :: 0 <= i < |s.w.queue| ==> Untouched(s.w.queue[i]) && Look(s, s.w.queue[i].id) == Nowhere)
    && (forall i, k :: 0 <= i < k < |s.w.queue| ==> s.w.queue[i].id != s.w.queue[k].id)
    && (forall j :: j in s.w.queue ==> j.id in s.used && j.id !in s.w.gone)
    && (forall id :: id in s.w.active ==> id in s.used && id !in s.w.gone)
    && (forall id :: id !in s.used ==> Look(s, id) == Nowhere && id !in s.w.gone)
  }

  predicate Roomy(s: Sys) {
    && |s.w.queue| <= MAX_WAITING
    && |s.w.active| <= Slots(s)
    && Fits(s.h.jobs.Keys, s.up, Slots(s))
    && AfterAll(s.h.jobs.Keys, s.up) <= s.w.active.Keys
  }

  /** A job waits only while every negotiated slot is taken. */
  predicate Busy(s: Sys) {
    s.w.queue != [] ==> |s.w.active| == Slots(s)
  }

  /** A job that has left was answered, holds no timer, and delivered no byte out of place. */
  predicate Record(j: W.Job, wrote: Bytes) {
    && j.answer != W.Unanswered && j.timer == W.Cleared
    && j.accepted <= wrote && (j.closed || j.cancelled)
    && (j.closed ==> j.accepted == wrote && j.answer.Streamed? && !j.cancelled)
  }

  predicate Logged(s: Sys) {
    forall id :: id in s.w.gone ==> Record(s.w.gone[id], Wrote(s, id))
  }

  ghost predicate Core(s: Sys) {
    s.live && s.w.open && Views(s) && Negotiated(s) && Kept(s) && Roomy(s) && Logged(s)
  }

  /** Between sockets the Worker holds nothing. */
  predicate Offline(s: Sys) {
    && !s.live && !s.w.open && s.w.slots == None && s.w.active == map[] && s.w.queue == []
    && Logged(s) && s.w.gone.Keys <= s.used && s.wrote.Keys <= s.used
  }

  ghost predicate Inv(s: Sys) {
    !s.fault && (if s.live then Core(s) && Busy(s) && s.wrote.Keys <= s.used else Offline(s))
  }

  // ---- a step about one job ----

  /** `s'` differs from `s` only in what concerns `id`: frames taken from and put on the channels. */
  ghost predicate About(s: Sys, s': Sys, id: Id, popUp: bool, popDown: bool, up: seq<WFrame>, down: seq<HFrame>) {
    && (forall f :: f in up ==> WFor(f, id)) && (forall f :: f in down ==> HFor(f, id))
    && (popUp ==> s.up != [] && WFor(s.up[0], id)) && (popDown ==> s.down != [] && HFor(s.down[0], id))
    && s'.up == (if popUp then s.up[1..] else s.up) + up
    && s'.down == (if popDown then s.down[1..] else s.down) + down
    && (forall x :: x != id ==> Get(s'.w.active, x) == Get(s.w.active, x))
    && (forall x :: x != id ==> Get(s'.h.jobs, x) == Get(s.h.jobs, x))
    && (forall x :: x != id ==> Wrote(s', x) == Wrote(s, x))
  }

  lemma OneJob(s: Sys, s': Sys, id: Id, popUp: bool, popDown: bool, up: seq<WFrame>, down: seq<HFrame>)
    requires About(s, s', id, popUp, popDown, up, down)
    ensures forall x :: x != id ==> Look(s', x) == Look(s, x)
    ensures popUp ==> Look(s, id).up != [] && Look(s, id).up[0] == s.up[0]
    ensures popDown ==> Look(s, id).dn != [] && Look(s, id).dn[0] == s.down[0]
    ensures Look(s', id).up == (if popUp then Look(s, id).up[1..] else Look(s, id).up) + up
    ensures Look(s', id).dn == (if popDown then Look(s, id).dn[1..] else Look(s, id).dn) + down
  {
    forall x ensures Up(s'.up, x) == Up(if popUp then s.up[1..] else s.up, x) + if x == id then up else [] {
      UpAppend(if popUp then s.up[1..] else s.up, up, x);
      UpOwn(up, id, x);
    }
    forall x
      ensures Down(s'.down, x) == Down(if popDown then s.down[1..] else s.down, x) + if x == id then down else [] {
      DownAppend(if popDown then s.down[1..] else s.down, down, x);
      DownOwn(down, id, x);
    }
  }

  lemma ViewsKept(s: Sys, s': Sys, id: Id)
    requires Views(s) && Local(id, Look(s', id))
    requires forall x :: x != id ==> Look(s', x) == Look(s, x)
    ensures Views(s')
  {
    forall x ensures Local(x, Look(s', x)) {
      if x != id {
        assert Look(s', x) == Look(s, x);
      }
    }
  }

  /** Frames other than the slot count leave the negotiation alone. */
  lemma NegotiationKept(s: Sys, s': Sys, up: seq<WFrame>)
    requires Negotiated(s) && s.w.slots.Some? && s'.w.slots == s.w.slots
    requires s'.h == s.h && s'.up == s.up + up && forall f :: f in up ==> !f.KeysReady?
    requires forall f :: f in s'.down && f.Keys? ==> f in s.down
    ensures Negotiated(s')
  {
    AnnouncedAppend(s.h.negotiated, s.up, up);
  }

  /** A step about a known job that is not waiting leaves the queue and the fresh ids alone. */
  lemma KeptKept(s: Sys, s': Sys, id: Id)
    requires Kept(s) && Look(s, id) != Nowhere && (id in s.w.gone ==> s'.w.gone == s.w.gone)
    requires forall x :: x != id ==> Look(s', x) == Look(s, x)
    requires s'.w.queue == s.w.queue && s'.used == s.used
    requires s'.w.gone.Keys <= s.w.gone.Keys + {id} && (id in s'.w.active ==> s'.w.gone == s.w.gone)
    requires id in s'.w.active ==> id in s.w.active
    ensures Kept(s')
  {
    forall x | x in s'.w.active ensures x in s'.used && x !in s'.w.gone {
      if x != id {
        assert Look(s', x) == Look(s, x);
        assert x in s.w.active;
      }
    }
    forall j | j in s'.w.queue ensures j.id in s'.used && j.id !in s'.w.gone {
      assert Look(s, j.id) == Nowhere;
    }
    assert id in s.used;
  }

  lemma RoomKept(s: Sys, s': Sys, up: seq<WFrame>)
    requires Roomy(s) && s'.h == s.h && s'.up == s.up + up && |s'.w.queue| <= MAX_WAITING
    requires Plain(up) && s'.w.active.Keys == s.w.active.Keys
    ensures Roomy(s')
  {
    AfterBound(s.h.jobs.Keys, s.up, Slots(s));
    FitsPlain(AfterAll(s.h.jobs.Keys, s.up), up, Slots(s));
    FitsAppend(s.h.jobs.Keys, s.up, up, Slots(s));
    assert |s'.w.active| == |s'.w.active.Keys|;
    assert |s.w.active| == |s.w.active.Keys|;
  }

  lemma RoomFreed(s: Sys, s': Sys, id: Id, up: seq<WFrame>)
    requires Roomy(s) && s'.h == s.h && s'.up == s.up + up && |s'.w.queue| <= MAX_WAITING
    requires id in s.w.active && s'.w.active.Keys == s.w.active.Keys - {id}
    requires up == [WFrame.Ready(id)] || (up == [] && id !in s.h.jobs && Up(s.up, id) == [])
    ensures Roomy(s')
  {
    var jobs, later := s.h.jobs.Keys, AfterAll(s.h.jobs.Keys, s.up);
    AfterBound(jobs, s.up, Slots(s));
    Shrinks(later - {id}, later);
    Shrinks(s'.w.active.Keys, s.w.active.Keys);
    assert |s'.w.active| == |s'.w.active.Keys| && |s.w.active| == |s.w.active.Keys|;
    if up == [] {
      NotAfter(jobs, s.up, id);
      assert s.up + up == s.up;
    } else {
      assert AfterAll(later, up) == AfterAll(later - {id}, up[1..]) == later - {id};
      FitsAppend(jobs, s.up, up, Slots(s));
    }
  }

  lemma StartFrameSets(id: Id, meta: Meta, bytes: Bytes, jobs: set<Id>, slots: int)
    requires |jobs| <= slots && |jobs + {id}| <= slots
    ensures Fits(jobs, StartFrames(id, meta, bytes), slots)
    ensures AfterAll(jobs, StartFrames(id, meta, bytes)) == jobs + {id}
  {
    var rest := BodyFrames(id, bytes) + [WFrame.End(id)];
    FitsPlain(jobs + {id}, rest, slots);
    var all := StartFrames(id, meta, bytes);
    HeadTail(Request(id, meta), BodyFrames(id, bytes), [WFrame.End(id)]);
    assert all[1..] == rest;
  }

  lemma RoomTaken(s: Sys, s': Sys, id: Id, meta: Meta, bytes: Bytes)
    requires Roomy(s) && s'.h == s.h && s'.up == s.up + StartFrames(id, meta, bytes)
    requires |s'.w.queue| <= MAX_WAITING && |s.w.active| < Slots(s)
    requires id !in s.w.active && s'.w.active.Keys == s.w.active.Keys + {id}
    ensures Roomy(s')
  {
    var jobs, later := s.h.jobs.Keys, AfterAll(s.h.jobs.Keys, s.up);
    assert |s.w.active| == |s.w.active.Keys| && |s'.w.active| == |s'.w.active.Keys|;
    Shrinks(later, s.w.active.Keys);
    Shrinks(later + {id}, s.w.active.Keys + {id});
    StartFrameSets(id, meta, bytes, later, Slots(s));
    FitsAppend(jobs, s.up, StartFrames(id, meta, bytes), Slots(s));
  }
}
