/** The host's steps keep the invariant, and its dispatcher accepts whatever frame comes next. */
module BridgeHostSteps {
  import opened Prelude
  import opened BridgeFrames
  import opened BridgeLocal
  import opened BridgeLocalHost
  import opened BridgeSystem
  import opened BridgeInvariant
  import opened BridgeSteps
  import S = BridgeSession

  function With(jobs: map<Id, S.Job>, id: Id, hj: Option<S.Job>): map<Id, S.Job> {
    if hj.Some? then jobs[id := hj.value] else jobs - {id}
  }

  /** `s` with the host's entry for one job changed, its frame taken, its frames sent, its bytes written. */
  function HostUpdate(s: Sys, id: Id, hj: Option<S.Job>, popUp: bool, down: seq<HFrame>, wrote: map<Id, Bytes>): Sys
    requires popUp ==> s.up != []
  {
    s.(h := s.h.(jobs := With(s.h.jobs, id, hj)), up := if popUp then s.up[1..] else s.up,
       down := s.down + down, wrote := wrote)
  }

  predicate HostMine(s: Sys, id: Id, popUp: bool, down: seq<HFrame>, wrote: map<Id, Bytes>) {
    && (forall f :: f in down ==> HFor(f, id)) && (popUp ==> s.up != [] && WFor(s.up[0], id))
    && (forall x :: x in s.wrote.Keys + wrote.Keys && x != id ==> x in s.wrote && x in wrote && wrote[x] == s.wrote[x])
  }

  lemma AboutHost(s: Sys, id: Id, hj: Option<S.Job>, popUp: bool, down: seq<HFrame>, wrote: map<Id, Bytes>)
    requires HostMine(s, id, popUp, down, wrote)
    ensures About(s, HostUpdate(s, id, hj, popUp, down, wrote), id, popUp, false, [], down)
  {
    var s' := HostUpdate(s, id, hj, popUp, down, wrote);
    assert s'.up == s'.up + [];
    forall x | x != id ensures Wrote(s', x) == Wrote(s, x) {
      if x in s.wrote || x in wrote { assert x in s.wrote.Keys + wrote.Keys; }
    }
  }

  function HostSeen(s: Sys, id: Id, hj: Option<S.Job>, popUp: bool, down: seq<HFrame>, wrote: map<Id, Bytes>): View {
    var v := Look(s, id);
    v.(hj := hj, up := if popUp && v.up != [] then v.up[1..] else v.up, dn := v.dn + down,
       wrote := if id in wrote then wrote[id] else [])
  }

  lemma HostViews(s: Sys, id: Id, hj: Option<S.Job>, popUp: bool, down: seq<HFrame>, wrote: map<Id, Bytes>)
    requires Views(s) && HostMine(s, id, popUp, down, wrote)
    requires Local(id, HostSeen(s, id, hj, popUp, down, wrote))
    ensures var s' := HostUpdate(s, id, hj, popUp, down, wrote);
            Views(s') && forall x :: x != id ==> Look(s', x) == Look(s, x)
  {
    var s' := HostUpdate(s, id, hj, popUp, down, wrote);
    AboutHost(s, id, hj, popUp, down, wrote);
    OneJob(s, s', id, popUp, false, [], down);
    assert Look(s', id).up == HostSeen(s, id, hj, popUp, down, wrote).up;
    assert Look(s', id) == HostSeen(s, id, hj, popUp, down, wrote);
    ViewsKept(s, s', id);
  }

  /** Reading a frame leaves the negotiation as it is. */
  lemma PopNegotiation(s: Sys, s': Sys)
    requires Negotiated(s) && s.up != [] && !s.up[0].KeysReady? && s'.up == s.up[1..] && s'.w == s.w
    requires s'.h == s.h.(jobs := s'.h.jobs) && forall f :: f in s'.down && f.Keys? ==> f in s.down
    ensures Negotiated(s')
  {
    assert forall f :: f in s'.up ==> f in s.up;
  }

  lemma HostRoom(s: Sys, s': Sys, popUp: bool)
    requires Roomy(s) && s'.w == s.w && s'.h.capacity == s.h.capacity && (popUp ==> s.up != [])
    requires s'.up == (if popUp then s.up[1..] else s.up)
    requires s'.h.jobs.Keys <= (if popUp then AfterFrame(s.h.jobs.Keys, s.up[0]) else s.h.jobs.Keys)
    ensures Roomy(s')
  {
    FitsSubset(s'.h.jobs.Keys, if popUp then AfterFrame(s.h.jobs.Keys, s.up[0]) else s.h.jobs.Keys, s'.up, Slots(s));
  }

  lemma HostKept(s: Sys, s': Sys, id: Id)
    requires Kept(s) && Look(s, id) != Nowhere && s'.w == s.w && s'.used == s.used
    requires forall x :: x != id ==> Look(s', x) == Look(s, x)
    ensures Kept(s') && id in s.used
  {
    KeptKept(s, s', id);
  }

  lemma HostLogged(s: Sys, id: Id, hj: Option<S.Job>, popUp: bool, down: seq<HFrame>, wrote: map<Id, Bytes>)
    requires Logged(s) && HostMine(s, id, popUp, down, wrote)
    requires id in s.w.gone ==> (if id in wrote then wrote[id] else []) == Wrote(s, id)
    ensures Logged(HostUpdate(s, id, hj, popUp, down, wrote))
  {
    var s' := HostUpdate(s, id, hj, popUp, down, wrote);
    AboutHost(s, id, hj, popUp, down, wrote);
    forall x | x in s'.w.gone ensures Wrote(s', x) == Wrote(s, x) {
    }
  }

  /** The host's frames about one job leave the negotiation alone. */
  lemma HostNegotiated(s: Sys, id: Id, hj: Option<S.Job>, popUp: bool, down: seq<HFrame>, wrote: map<Id, Bytes>)
    requires Negotiated(s) && HostMine(s, id, popUp, down, wrote)
    ensures Negotiated(HostUpdate(s, id, hj, popUp, down, wrote))
  {
    var s' := HostUpdate(s, id, hj, popUp, down, wrote);
    forall f | f in s'.down && f.Keys? ensures f in s.down {
      assert f in down ==> HFor(f, id);
    }
    if popUp {
      PopNegotiation(s, s');
    }
  }

  /** Any step of the host about one job. */
  lemma HostUpdated(s: Sys, id: Id, hj: Option<S.Job>, popUp: bool, down: seq<HFrame>, wrote: map<Id, Bytes>)
    requires Core(s) && HostMine(s, id, popUp, down, wrote) && Look(s, id) != Nowhere
    requires Local(id, HostSeen(s, id, hj, popUp, down, wrote))
    requires With(s.h.jobs, id, hj).Keys <= (if popUp then AfterFrame(s.h.jobs.Keys, s.up[0]) else s.h.jobs.Keys)
    requires id in s.w.gone ==> (if id in wrote then wrote[id] else []) == Wrote(s, id)
    ensures var s' := HostUpdate(s, id, hj, popUp, down, wrote);
            Core(s') && (Busy(s) ==> Busy(s')) && id in s.used
  {
    var s' := HostUpdate(s, id, hj, popUp, down, wrote);
    HostViews(s, id, hj, popUp, down, wrote);
    HostKept(s, s', id);
    HostRoom(s, s', popUp);
    HostNegotiated(s, id, hj, popUp, down, wrote);
    HostLogged(s, id, hj, popUp, down, wrote);
  }

  lemma UpHead(s: Sys, id: Id)
    requires s.up != [] && WFor(s.up[0], id)
    ensures Look(s, id).up == [s.up[0]] + Up(s.up[1..], id)
  {
  }

  /** The dispatcher on a frame about a job: the entry it writes is the one the local lemmas give. */
  lemma JobDispatch(s: Sys, id: Id, hj: Option<S.Job>)
    requires Core(s) && Busy(s) && s.up != [] && WFor(s.up[0], id)
    requires var v := Look(s, id); v.up != [] ==> Local(id, v.(hj := hj, up := v.up[1..]))
    requires With(s.h.jobs, id, hj).Keys <= AfterFrame(s.h.jobs.Keys, s.up[0])
    ensures var s' := s.(h := s.h.(jobs := With(s.h.jobs, id, hj)), up := s.up[1..]); Core(s') && Busy(s')
  {
    UpHead(s, id);
    assert Look(s, id).dn + [] == Look(s, id).dn && s.down + [] == s.down;
    HostUpdated(s, id, hj, true, [], s.wrote);
  }

  lemma RequestDispatch(s: Sys, id: Id)
    requires Core(s) && Busy(s) && s.up != [] && WFor(s.up[0], id) && s.up[0].Request?
    ensures var r := S.Dispatch(s.h, s.up[0]); r.Go? && Core(HostTake(s, r)) && Busy(HostTake(s, r))
  {
    UpHead(s, id);
    assert Local(id, Look(s, id));
    RequestLocal(id, Look(s, id));
    assert s.up[0] in s.up;
    assert s.h.negotiated;
    // After this frame the host holds one job more, which still fits.
    assert Fits(AfterFrame(s.h.jobs.Keys, s.up[0]), s.up[1..], Slots(s));
    assert |s.h.jobs.Keys + {id}| == |s.h.jobs.Keys| + 1;
    assert |s.h.jobs| == |s.h.jobs.Keys|;
    JobDispatch(s, id, Some(S.Receiving(s.up[0].meta, [])));
    assert s.down + [] == s.down;
  }

  lemma BodyDispatch(s: Sys, id: Id)
    requires Core(s) && Busy(s) && s.up != [] && WFor(s.up[0], id) && s.up[0].Body?
    ensures var r := S.Dispatch(s.h, s.up[0]); r.Go? && Core(HostTake(s, r)) && Busy(HostTake(s, r))
  {
    UpHead(s, id);
    assert Local(id, Look(s, id));
    BodyLocal(id, Look(s, id));
    var r := s.h.jobs[id];
    JobDispatch(s, id, Some(S.Receiving(r.meta, r.body + s.up[0].data)));
    assert s.down + [] == s.down;
  }

  /** The handler of a request whose `end` has come. */
  function Begun(r: S.Job): S.Job {
    S.Running(r.meta, r.body, S.FreshWriter, false, false, false, false)
  }

  lemma EndAccepted(s: Sys, id: Id)
    requires Views(s) && s.up != [] && WFor(s.up[0], id) && s.up[0].End?
    ensures id in s.h.jobs && S.Dispatch(s.h, s.up[0]) == S.Go(s.h.(jobs := s.h.jobs[id := Begun(s.h.jobs[id])]), [])
    ensures var v := Look(s, id); v.up != [] && Local(id, v.(hj := Some(Begun(s.h.jobs[id])), up := v.up[1..]))
  {
    UpHead(s, id);
    assert Local(id, Look(s, id));
    RequestEndLocal(id, Look(s, id));
  }

  lemma EndDispatch(s: Sys, id: Id)
    requires Core(s) && Busy(s) && s.up != [] && WFor(s.up[0], id) && s.up[0].End?
    ensures var r := S.Dispatch(s.h, s.up[0]); r.Go? && Core(HostTake(s, r)) && Busy(HostTake(s, r))
  {
    EndAccepted(s, id);
    JobDispatch(s, id, Some(Begun(s.h.jobs[id])));
    assert s.down + [] == s.down;
  }

  lemma AckDispatch(s: Sys, id: Id)
    requires Core(s) && Busy(s) && s.up != [] && s.up[0] == Ack(id)
    ensures var r := S.Dispatch(s.h, s.up[0]); r.Go? && Core(HostTake(s, r)) && Busy(HostTake(s, r))
  {
    UpHead(s, id);
    var v := Look(s, id);
    assert Local(id, v);
    AckLocal(id, v);
    assert v.hj == Some(s.h.jobs[id]);
    JobDispatch(s, id, Some(v.hj.value.(acked := true)));
    assert s.down + [] == s.down;
  }

  lemma CancelAccepted(s: Sys, id: Id)
    requires Views(s) && s.up != [] && WFor(s.up[0], id) && s.up[0].Cancel?
    ensures id in s.h.jobs && s.h.jobs[id].Running?
    ensures var r := s.h.jobs[id].(settling := true, stopped := true);
            S.Dispatch(s.h, s.up[0]) == S.Go(s.h.(jobs := s.h.jobs[id := r]), [])
            && var v := Look(s, id); v.up != [] && Local(id, v.(hj := Some(r), up := v.up[1..]))
  {
    UpHead(s, id);
    assert Local(id, Look(s, id));
    HostCancelLocal(id, Look(s, id));
  }

  lemma CancelDispatch(s: Sys, id: Id)
    requires Core(s) && Busy(s) && s.up != [] && WFor(s.up[0], id) && s.up[0].Cancel?
    ensures var r := S.Dispatch(s.h, s.up[0]); r.Go? && Core(HostTake(s, r)) && Busy(HostTake(s, r))
  {
    CancelAccepted(s, id);
    JobDispatch(s, id, Some(s.h.jobs[id].(settling := true, stopped := true)));
    assert s.down + [] == s.down;
  }

  lemma ReadyAccepted(s: Sys, id: Id)
    requires Views(s) && s.up != [] && WFor(s.up[0], id) && s.up[0].Ready?
    ensures id in s.h.jobs && s.h.jobs[id].Running?
    ensures S.Dispatch(s.h, s.up[0])
            == if s.h.jobs[id].done then S.Go(s.h.(jobs := With(s.h.jobs, id, None)), []) else S.Blocked
    ensures var v := Look(s, id); v.up != [] && Local(id, v.(hj := None, up := v.up[1..]))
  {
    UpHead(s, id);
    assert Local(id, Look(s, id));
    HostReadyLocal(id, Look(s, id));
  }

  lemma ReadyDispatch(s: Sys, id: Id)
    requires Core(s) && Busy(s) && s.up != [] && WFor(s.up[0], id) && s.up[0].Ready?
    ensures var r := S.Dispatch(s.h, s.up[0]); !r.Fault? && Core(HostTake(s, r)) && Busy(HostTake(s, r))
  {
    ReadyAccepted(s, id);
    if s.h.jobs[id].done {
      JobDispatch(s, id, None);
      assert s.down + [] == s.down;
    }
  }

  /** A frame about no job has been read. */
  lemma NoJobTaken(s: Sys, s': Sys)
    requires Core(s) && Busy(s) && s.up != [] && (s.up[0].KeysReady? || s.up[0].Pong?)
    requires Negotiated(s') && s' == s.(h := s'.h, up := s.up[1..])
    requires s'.h.capacity == s.h.capacity && s'.h.jobs == s.h.jobs
    ensures Core(s') && Busy(s')
  {
    assert forall id :: Look(s', id) == Look(s, id);
    HostRoom(s, s', true);
    SameViews(s, s');
  }

  lemma SameViews(s: Sys, s': Sys)
    requires Views(s) && forall id :: Look(s', id) == Look(s, id)
    ensures Views(s')
  {
  }

  lemma KeysReadyNegotiated(s: Sys)
    requires Negotiated(s) && s.up != [] && s.up[0].KeysReady?
    ensures var r := S.OnKeysReady(s.h, s.up[0].slots);
            r.Go? && r.sent == [] && Negotiated(s.(h := r.h, up := s.up[1..]))
  {
    assert s.up[0] in s.up;
    assert forall f :: f in s.up[1..] ==> f in s.up;
  }

  lemma KeysReadyDispatch(s: Sys)
    requires Core(s) && Busy(s) && s.up != [] && s.up[0].KeysReady?
    ensures var r := S.Dispatch(s.h, s.up[0]); r.Go? && Core(HostTake(s, r)) && Busy(HostTake(s, r))
  {
    KeysReadyNegotiated(s);
    assert s.down + [] == s.down;
    NoJobTaken(s, HostTake(s, S.OnKeysReady(s.h, s.up[0].slots)));
  }

  lemma PongDispatch(s: Sys)
    requires Core(s) && Busy(s) && s.up != [] && s.up[0].Pong?
    ensures var r := S.Dispatch(s.h, s.up[0]); r.Go? && Core(HostTake(s, r)) && Busy(HostTake(s, r))
  {
    assert s.down + [] == s.down;
    PopNegotiation(s, s.(up := s.up[1..]));
    NoJobTaken(s, s.(up := s.up[1..]));
  }

  /** The dispatcher accepts whatever frame comes next; at most it first waits for a handler to return. */
  lemma HostTurnKeeps(s: Sys)
    requires Core(s) && Busy(s) && s.up != []
    ensures var r := S.Dispatch(s.h, s.up[0]);
            !r.Fault? && (r.Blocked? ==> s.up[0].Ready?) && Core(HostTake(s, r)) && Busy(HostTake(s, r))
  {
    match s.up[0] {
      case Request(id, _) => RequestDispatch(s, id);
      case Body(id, _) => BodyDispatch(s, id);
      case End(id) => EndDispatch(s, id);
      case Ack(id) => AckDispatch(s, id);
      case Cancel(id) => CancelDispatch(s, id);
      case Ready(id) => ReadyDispatch(s, id);
      case KeysReady(_) => KeysReadyDispatch(s);
      case Pong => PongDispatch(s);
    }
  }

  lemma JoinKeeps(s: Sys, id: Id)
    requires Core(s) && Busy(s) && S.CanSettle(s.h, id)
    ensures var s' := s.(h := s.h.(jobs := s.h.jobs - {id}), down := s.down + [HFrame.Ready(id)]);
            Core(s') && Busy(s')
  {
    var v := Look(s, id);
    assert Local(id, v);
    SettleLocal(id, v);
    assert HostSeen(s, id, None, false, [HFrame.Ready(id)], s.wrote) == v.(hj := None, dn := v.dn + [HFrame.Ready(id)]);
    HostUpdated(s, id, None, false, [HFrame.Ready(id)], s.wrote);
  }

  /** A handler's move, as HostUpdated wants it: whose frames they are, and the view they leave. */
  lemma HandlerMoved(s: Sys, id: Id, m: S.Move)
    requires Views(s) && Enabled(s, Handler(id, m))
    ensures var (j', sent) := S.MoveJob(id, s.h.jobs[id], m);
            var wrote := s.wrote[id := Wrote(s, id) + S.Written(s.h.jobs[id], m)];
            HostMine(s, id, false, sent, wrote) && Local(id, HostSeen(s, id, Some(j'), false, sent, wrote))
  {
    var v, j := Look(s, id), s.h.jobs[id];
    assert Local(id, v);
    MoveLocal(id, v, m);
    SoundMove(id, j, m);
    var (j', sent) := S.MoveJob(id, j, m);
    var wrote := s.wrote[id := Wrote(s, id) + S.Written(j, m)];
    assert HostSeen(s, id, Some(j'), false, sent, wrote)
        == v.(hj := Some(j'), dn := v.dn + sent, wrote := v.wrote + S.Written(j, m));
  }

  /** A handler whose job the Worker has let go of writes nothing more. */
  lemma GoneWritesNothing(s: Sys, id: Id, m: S.Move)
    requires Views(s) && Kept(s) && Enabled(s, Handler(id, m)) && id in s.w.gone
    ensures S.Written(s.h.jobs[id], m) == []
  {
    var v := Look(s, id);
    assert Local(id, v) && v.wj.None?;
    ReleasedMove(id, v, m);
  }

  lemma HandlerKeeps(s: Sys, id: Id, m: S.Move)
    requires Core(s) && Busy(s) && s.wrote.Keys <= s.used && Enabled(s, Handler(id, m))
    ensures var s' := Do(s, Handler(id, m)); Core(s') && Busy(s') && s'.wrote.Keys <= s'.used
  {
    HandlerMoved(s, id, m);
    if id in s.w.gone {
      GoneWritesNothing(s, id, m);
      assert Wrote(s, id) + [] == Wrote(s, id);
    }
    var (j', sent) := S.MoveJob(id, s.h.jobs[id], m);
    HandlerUpdated(s, id, j', sent, s.wrote[id := Wrote(s, id) + S.Written(s.h.jobs[id], m)]);
  }

  lemma HandlerUpdated(s: Sys, id: Id, j': S.Job, sent: seq<HFrame>, wrote: map<Id, Bytes>)
    requires Core(s) && Busy(s) && s.wrote.Keys <= s.used && id in s.h.jobs && wrote.Keys == s.wrote.Keys + {id}
    requires HostMine(s, id, false, sent, wrote) && Local(id, HostSeen(s, id, Some(j'), false, sent, wrote))
    requires id in s.w.gone ==> wrote[id] == Wrote(s, id)
    ensures var s' := HostUpdate(s, id, Some(j'), false, sent, wrote); Core(s') && Busy(s') && s'.wrote.Keys <= s'.used
  {
    assert Look(s, id).hj.Some?;
    assert With(s.h.jobs, id, Some(j')).Keys == s.h.jobs.Keys;
    HostUpdated(s, id, Some(j'), false, sent, wrote);
  }

  lemma AnnounceKeeps(s: Sys, f: HFrame)
    requires Core(s) && Busy(s) && (f == Ping || f == Keys(Some(s.h.capacity)))
    ensures Core(s.(down := s.down + [f])) && Busy(s.(down := s.down + [f]))
  {
    var s' := s.(down := s.down + [f]);
    assert s.up + [] == s.up;
    assert Negotiated(s');
    Unrelated(s, s', [], false, [f]);
  }
}
