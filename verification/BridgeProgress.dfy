/** Nothing waits for something that will not come: every job the Worker runs has a next step. */
module BridgeProgress {
  import opened Prelude
  import opened BridgeFrames
  import opened BridgeLocal
  import opened BridgeSystem
  import opened BridgeInvariant
  import opened BridgeSteps
  import opened BridgeHostSteps
  import opened BridgeTheorems
  import W = BridgeWorker
  import S = BridgeSession

  /** A move a handler can make that is not its deadline's. */
  function NextMove(r: S.Job): S.Move
    requires r.Running?
  {
    if r.w.awaiting then (if r.acked then S.TakeAck else S.Give)
    else if r.w.rest != [] then S.Fill
    else if r.w.said != S.Nothing then S.Return
    else if r.w.closing then S.Leave
    else S.Finish(false)
  }

  predicate HandlerMoves(r: S.Job) {
    r.Running? && S.CanMove(r, NextMove(r))
  }

  /** Something of the job is under way: a frame, an operation on the client's stream, its handler, or the join. */
  predicate UnderWay(v: View) {
    || v.up != [] || v.dn != []
    || (v.wj.Some? && v.wj.value.awaiting != [])
    || (v.hj.Some? && HandlerMoves(v.hj.value))
    || (v.hj.Some? && v.hj.value.Running? && v.hj.value.settling && v.hj.value.done)
  }

  lemma AnsweringGoesOn(id: Id, j: W.Job, v: View, fl: Flight)
    requires v.wj == Some(j) && Answering(id, j, v, fl)
    ensures UnderWay(v)
  {
    var r := v.hj.value;
    if !r.done && r.w.awaiting {
      assert Unacked(j, r, v.up, fl) == 1;
    } else if r.done && j.awaiting != [W.Close] {
      assert fl.tail != S.Nothing && |TailFrames(id, fl.tail)| == 1;
    }
  }

  lemma CancellingGoesOn(id: Id, j: W.Job, v: View)
    requires v.wj == Some(j) && Cancelling(id, j, v)
    ensures UnderWay(v)
  {
    if CancelTaken(id, v) {
      var r := v.hj.value;
      assert r.stopped;
    }
  }

  /**
   No deadlock: of every job the Worker has active, either a frame is on its way, or the client's
   stream is being offered something, or its handler can go on by itself - if it waits for an
   acknowledgement, that has come or its request was cancelled - or it has returned and is being
   joined. No timer is needed for it.
   */
  lemma NothingIsStuck(s: Sys, id: Id)
    requires Reachable(s) && s.live && id in s.w.active
    ensures || Up(s.up, id) != [] || Down(s.down, id) != [] || s.w.active[id].awaiting != []
            || (id in s.h.jobs && HandlerMoves(s.h.jobs[id])) || S.CanSettle(s.h, id)
  {
    ReachableInv(s);
    ActiveLocal(s, id);
    var j, v := s.w.active[id], Look(s, id);
    if j.cancelled {
      CancellingGoesOn(id, j, v);
    } else if !Uploading(id, j, v) {
      var fl :| Answering(id, j, v, fl);
      AnsweringGoesOn(id, j, v, fl);
    }
  }

  /** Where a handler's unacknowledged chunk is, when it waits for one and was not cancelled: in one place. */
  lemma AckWillCome(s: Sys, id: Id)
    requires Reachable(s) && s.live && id in s.w.active && !s.w.active[id].cancelled
    requires id in s.h.jobs && s.h.jobs[id].Running? && s.h.jobs[id].w.awaiting
    ensures var places := Bit(exists f :: f in Down(s.down, id) && f.Data?)
                          + Bit(s.w.active[id].awaiting != [] && s.w.active[id].awaiting[0].Write?)
                          + Bit(Ack(id) in Up(s.up, id)) + Bit(s.h.jobs[id].acked);
            places == 1
  {
    ReachableInv(s);
    ActiveLocal(s, id);
    var j, v := s.w.active[id], Look(s, id);
    var fl :| Answering(id, j, v, fl);
    var r := v.hj.value;
    assert Unacked(j, r, v.up, fl) == 1;
    WireOnce(id, fl);
    if fl.data.Some? {
      assert Wire(id, fl) == HeadFrames(id, fl.head) + [Data(id, fl.data.value)] + TailFrames(id, fl.tail);
      assert Data(id, fl.data.value) in v.dn;
    }
    assert v.up != [] <==> Ack(id) in v.up;
  }

  lemma BlockedOnReady(h: S.Session, f: WFrame)
    requires S.Dispatch(h, f).Blocked?
    ensures f.Ready? && f.id in h.jobs && h.jobs[f.id].Running? && !h.jobs[f.id].done
  {
  }

  /** Of a job the Worker still runs, the next frame to the host is not a `ready`. */
  lemma NotReadyYet(id: Id, v: View)
    requires Local(id, v) && v.wj.Some?
    ensures v.up == [] || v.up[0] != WFrame.Ready(id)
  {
    var j := v.wj.value;
    if !j.cancelled && !Uploading(id, j, v) {
      var fl :| Answering(id, j, v, fl);
    }
  }

  lemma ReadyReturns(id: Id, v: View)
    requires Local(id, v) && v.up != [] && v.up[0] == WFrame.Ready(id)
    requires v.hj.Some? && v.hj.value.Running? && !v.hj.value.done
    ensures NextMove(v.hj.value) == S.Return && HandlerMoves(v.hj.value) && SoundJob(v.hj.value) && !v.hj.value.settling
  {
    if v.wj.Some? {
      NotReadyYet(id, v);
    }
  }

  lemma WaitEndsAt(s: Sys)
    requires Inv(s) && s.live && s.up != [] && S.Dispatch(s.h, s.up[0]).Blocked?
    ensures s.up[0].Ready? && s.up[0].id in s.h.jobs
    ensures var r := s.h.jobs[s.up[0].id];
            r.Running? && NextMove(r) == S.Return && HandlerMoves(r) && SoundJob(r) && !r.settling
  {
    BlockedOnReady(s.h, s.up[0]);
    var id := s.up[0].id;
    UpHead(s, id);
    assert Local(id, Look(s, id));
    ReadyReturns(id, Look(s, id));
  }

  /** The dispatcher waits only for a handler whose next move is to return. */
  lemma WaitEnds(s: Sys)
    requires Reachable(s) && s.live && s.up != [] && S.Dispatch(s.h, s.up[0]).Blocked?
    ensures s.up[0].id in s.h.jobs && NextMove(s.h.jobs[s.up[0].id]) == S.Return && HandlerMoves(s.h.jobs[s.up[0].id])
  {
    ReachableInv(s);
    WaitEndsAt(s);
  }
}
