/** What holds in every state the bridge can reach. */
module BridgeTheorems {
  import opened Prelude
  import opened BridgeFrames
  import opened BridgeLocal
  import opened BridgeLocalHost
  import opened BridgeSystem
  import opened BridgeInvariant
  import opened BridgeSteps
  import opened BridgeHostSteps
  import W = BridgeWorker
  import S = BridgeSession

  lemma ArriveKeeps(s: Sys, id: Id, meta: Meta, body: Bytes)
    requires Inv(s) && Enabled(s, Arrive(id, meta, body))
    ensures Inv(Do(s, Arrive(id, meta, body)))
  {
    var j := W.NewJob(id, meta, body);
    if W.Admit(s.w, j).Some? {
      ArriveKept(s, j);
      NextKeeps(s.(w := s.w.(queue := s.w.queue + [j]), used := s.used + {id}));
    }
  }

  lemma WorkerKeeps(s: Sys, step: Step)
    requires Inv(s) && Enabled(s, step) && (step.WorkerTurn? || step.WorkerResume? || step.WorkerFail?)
    ensures Inv(Do(s, step))
  {
    match step {
      case WorkerTurn => WorkerTurnKeeps(s);
      case WorkerResume(id, ok) => ResumeKeeps(s, id, ok);
      case WorkerFail(id, status) => FailKeeps(s, id, status);
    }
  }

  lemma HostKeeps(s: Sys, step: Step)
    requires Inv(s) && Enabled(s, step)
             && (step.HostTurn? || step.HostJoin? || step.Handler? || step.Reload? || step.Heartbeat?)
    ensures Inv(Do(s, step))
  {
    match step {
      case HostTurn => HostTurnKeeps(s);
      case HostJoin(id) => JoinKeeps(s, id);
      case Handler(id, m) => HandlerKeeps(s, id, m);
      case Reload => AnnounceKeeps(s, Keys(Some(s.h.capacity)));
      case Heartbeat => AnnounceKeeps(s, Ping);
    }
  }

  /** Every step, under every interleaving, keeps the invariant. */
  lemma StepKeeps(s: Sys, step: Step)
    requires Inv(s) && Enabled(s, step)
    ensures Inv(Do(s, step))
  {
    match step {
      case Arrive(id, meta, body) => ArriveKeeps(s, id, meta, body);
      case Drop => SeverKeeps(s);
      case Unwind(_) =>
      case Reconnect(c) => ReconnectKeeps(s, c);
      case WorkerTurn | WorkerResume(_, _) | WorkerFail(_, _) => WorkerKeeps(s, step);
      case HostTurn | HostJoin(_) | Handler(_, _) | Reload | Heartbeat => HostKeeps(s, step);
    }
  }

  lemma {:induction false} RunKeeps(steps: seq<Step>)
    ensures Run(steps).Some? ==> Inv(Run(steps).value)
  {
    if steps != [] {
      var front := steps[..|steps| - 1];
      RunKeeps(front);
      if Run(steps).Some? {
        StepKeeps(Run(front).value, steps[|steps| - 1]);
      }
    }
  }

  lemma ReachableInv(s: Sys)
    requires Reachable(s)
    ensures Inv(s)
  {
    var steps :| Run(steps) == Some(s);
    RunKeeps(steps);
  }

  /**
   No frame is ever unexpected: in every reachable state each end accepts the next frame it will
   read, and no run has ever taken an error branch. When the dispatcher has to wait it is for a
   handler that has already sent its `end`.
   */
  lemma NoUnexpectedFrame(s: Sys)
    requires Reachable(s)
    ensures !s.fault
    ensures s.live && s.down != [] ==> W.Receive(s.w, s.down[0]).Done?
    ensures s.live && s.up != [] ==> !S.Dispatch(s.h, s.up[0]).Fault?
    ensures s.live && s.up != [] && S.Dispatch(s.h, s.up[0]).Blocked? ==>
              s.up[0].Ready? && s.h.jobs[s.up[0].id].w.said == S.SaidEnd
  {
    ReachableInv(s);
    if s.live {
      if s.down != [] { WorkerTurnKeeps(s); }
      if s.up != [] {
        HostTurnKeeps(s);
        if s.up[0].Ready? { ReadyFindsEnd(s); }
      }
    }
  }

  lemma ReadyFindsEnd(s: Sys)
    requires Views(s) && s.up != [] && s.up[0].Ready?
    ensures s.up[0].id in s.h.jobs && s.h.jobs[s.up[0].id].Running? && s.h.jobs[s.up[0].id].w.said == S.SaidEnd
  {
    var id := s.up[0].id;
    UpHead(s, id);
    assert Local(id, Look(s, id));
    HostReadyLocal(id, Look(s, id));
  }

  /**
   Slots: the Worker never has more active jobs than the negotiated count, the host never holds
   more (so never runs more handlers), every job the host holds is active at the Worker or has its
   `ready` on the way, at most four jobs wait, and a job waits only while every slot is taken.
   */
  lemma SlotsHold(s: Sys)
    requires Reachable(s) && s.live
    ensures Slots(s) == Min(MAX_SLOTS, s.h.capacity) >= 1
    ensures |s.w.active| <= Slots(s) && |s.h.jobs| <= Slots(s)
    ensures s.w.slots.Some? ==> s.w.slots.value == Slots(s)
    ensures s.h.negotiated ==> s.h.limit == Slots(s)
    ensures forall id :: id in s.h.jobs ==> id in s.w.active || WFrame.Ready(id) in s.up
    ensures |s.w.queue| <= MAX_WAITING
    ensures s.w.queue != [] ==> |s.w.active| == Slots(s)
  {
    ReachableInv(s);
    assert Fits(s.h.jobs.Keys, s.up, Slots(s));
    assert |s.h.jobs| == |s.h.jobs.Keys|;
    forall id | id in s.h.jobs && id !in s.w.active ensures WFrame.Ready(id) in s.up {
      assert Local(id, Look(s, id));
      UpMember(s.up, id, WFrame.Ready(id));
      assert WFrame.Ready(id) in Look(s, id).up;
    }
  }

  /**
   Bytes: a handler runs on exactly what the client posted, what a client stream has accepted is
   always a prefix of what the handler wrote, and all of it once the stream was closed on `end`.
   */
  lemma BytesArrive(s: Sys, id: Id)
    requires Reachable(s)
    ensures s.live && id in s.w.active && id in s.h.jobs && s.h.jobs[id].Running? && !s.h.jobs[id].settling ==>
              s.h.jobs[id].body == s.w.active[id].posted
    ensures s.live && id in s.w.active ==> s.w.active[id].accepted <= Wrote(s, id)
    ensures id in s.w.gone ==> s.w.gone[id].accepted <= Wrote(s, id)
    ensures id in s.w.gone && s.w.gone[id].closed ==> s.w.gone[id].accepted == Wrote(s, id)
  {
    ReachableInv(s);
    if s.live && id in s.w.active {
      ActiveLocal(s, id);
      ActiveBytes(id, Look(s, id));
    }
  }

  lemma ActiveBytes(id: Id, v: View)
    requires v.wj.Some? && Local(id, v)
    ensures v.wj.value.accepted <= v.wrote
    ensures v.hj.Some? && v.hj.value.Running? && !v.hj.value.settling ==> v.hj.value.body == v.wj.value.posted
  {
    var j := v.wj.value;
    if !j.cancelled && !Uploading(id, j, v) {
      var fl :| Answering(id, j, v, fl);
      FailAnswering(id, j, v, fl, j);
    }
  }

  /** The bytes of the chunks among some frames. */
  function DataOf(dn: seq<HFrame>): Bytes {
    if dn == [] then [] else (if dn[0].Data? then dn[0].data else []) + DataOf(dn[1..])
  }

  lemma {:induction false} DataAppend(a: seq<HFrame>, b: seq<HFrame>)
    ensures DataOf(a + b) == DataOf(a) + DataOf(b)
  {
    if a == [] {
      assert a + b == b;
    } else {
      assert a == [a[0]] + a[1..];
      HeadTail(a[0], a[1..], b);
      DataAppend(a[1..], b);
      Assoc(if a[0].Data? then a[0].data else [], DataOf(a[1..]), DataOf(b));
    }
  }

  lemma WireBytes(id: Id, fl: Flight)
    ensures DataOf(Wire(id, fl)) == if fl.data.Some? then fl.data.value else []
  {
    DataAppend(HeadFrames(id, fl.head) + DataFrames(id, fl.data), TailFrames(id, fl.tail));
    DataAppend(HeadFrames(id, fl.head), DataFrames(id, fl.data));
    OneFrame(HeadFrames(id, fl.head));
    OneFrame(DataFrames(id, fl.data));
    OneFrame(TailFrames(id, fl.tail));
  }

  lemma OneFrame(fs: seq<HFrame>)
    requires |fs| <= 1
    ensures DataOf(fs) == if fs != [] && fs[0].Data? then fs[0].data else []
  {
    if fs != [] {
      assert fs[1..] == [];
    }
  }

  /** The bytes of a response on their way: accepted by the client, offered to it, on the wire, in the writer. */
  function OnTheWay(s: Sys, id: Id): Bytes
    requires id in s.w.active && id in s.h.jobs && s.h.jobs[id].Running?
  {
    var j, w := s.w.active[id], s.h.jobs[id].w;
    j.accepted + Offered(j.awaiting) + DataOf(Down(s.down, id)) + w.buf + w.rest
  }

  /**
   No byte is missing: while a response is neither cancelled nor broken, what its handler has written is,
   in this order, what the client has, is being offered, is on the wire and is still in the writer; and
   the 100 ms flush leaves nothing in the writer.
   */
  lemma NoByteMissing(s: Sys, id: Id)
    requires Reachable(s) && s.live && id in s.w.active && !s.w.active[id].cancelled
    requires id in s.h.jobs && s.h.jobs[id].Running? && !s.h.jobs[id].w.err
    ensures OnTheWay(s, id) == Wrote(s, id)
    ensures Enabled(s, Handler(id, S.Tick)) ==>
              var t := Do(s, Handler(id, S.Tick));
              t.h.jobs[id].w.buf + t.h.jobs[id].w.rest == [] && OnTheWay(t, id) == Wrote(s, id)
  {
    ReachableInv(s);
    Conserved(s, id);
    if Enabled(s, Handler(id, S.Tick)) {
      StepKeeps(s, Handler(id, S.Tick));
      Conserved(Do(s, Handler(id, S.Tick)), id);
    }
  }

  lemma Conserved(s: Sys, id: Id)
    requires Inv(s) && s.live && id in s.w.active && !s.w.active[id].cancelled
    requires id in s.h.jobs && s.h.jobs[id].Running? && !s.h.jobs[id].w.err
    ensures OnTheWay(s, id) == Wrote(s, id)
  {
    ActiveLocal(s, id);
    var j, v := s.w.active[id], Look(s, id);
    var fl :| Answering(id, j, v, fl);
    WireBytes(id, fl);
  }

  /**
   Chunks: no data frame on the wire is over CHUNK bytes, and no job, cancelled or not, has two there.
   Of a job that is not cancelled nothing else of the response is unacknowledged then: the chunk is on
   the wire, or offered to the client, or its `ack` is on the way back, and only one of these.
   */
  lemma OneChunkInFlight(s: Sys, id: Id)
    requires Reachable(s) && s.live
    ensures forall f :: f in s.down && f.Data? ==> |f.data| <= CHUNK
    ensures Chunks(Down(s.down, id)) <= 1
    ensures id in s.w.active && !s.w.active[id].cancelled ==>
              OneChunk(s.w.active[id], Down(s.down, id), Ack(id) in s.up)
  {
    ReachableInv(s);
    forall f | f in s.down && f.Data? ensures |f.data| <= CHUNK {
      assert Local(f.id, Look(s, f.id));
      DownMember(s.down, f.id, f);
      FramesFit(f.id, Look(s, f.id));
    }
    assert Local(id, Look(s, id));
    FramesFit(id, Look(s, id));
    if id in s.w.active && !s.w.active[id].cancelled {
      LiveChunk(s, id);
    }
  }

  lemma FramesFit(id: Id, v: View)
    requires Local(id, v)
    ensures (forall f :: f in v.dn && f.Data? ==> |f.data| <= CHUNK) && Chunks(v.dn) <= 1
  {
    if v.wj.Some? {
      var j := v.wj.value;
      if j.cancelled {
        CancelledFit(id, j, v);
      } else if !Uploading(id, j, v) {
        var fl :| Answering(id, j, v, fl);
        WireChunks(id, fl);
        WireDrains(id, fl);
      }
    }
  }

  lemma CancelledFit(id: Id, j: W.Job, v: View)
    requires Cancelling(id, j, v)
    ensures (forall f :: f in v.dn && f.Data? ==> |f.data| <= CHUNK) && Chunks(v.dn) <= 1
  {
    if CancelDone(id, v) {
      assert v.dn == v.dn[..|v.dn| - 1] + [HFrame.Ready(id)];
    }
  }

  lemma LiveChunk(s: Sys, id: Id)
    requires Inv(s) && s.live && id in s.w.active && !s.w.active[id].cancelled
    ensures OneChunk(s.w.active[id], Down(s.down, id), Ack(id) in s.up)
  {
    ActiveLocal(s, id);
    UpMember(s.up, id, Ack(id));
    var j, v := s.w.active[id], Look(s, id);
    if Uploading(id, j, v) {
      NoAckYet(id, v);
    } else {
      var fl :| Answering(id, j, v, fl);
      OneChunkFlight(id, j, v, fl);
    }
  }

  /** A chunk on the wire, a chunk offered to the client and an `ack` exclude each other. */
  predicate OneChunk(j: W.Job, dn: seq<HFrame>, acked: bool) {
    && |j.awaiting| <= 1
    && (forall f :: f in dn && f.Data? ==> |f.data| <= CHUNK && j.awaiting == [] && !acked)
    && (forall i, k :: 0 <= i < k < |dn| && dn[i].Data? ==> !dn[k].Data?)
    && (acked ==> j.awaiting == [])
  }

  lemma NoAckYet(id: Id, v: View)
    requires v.wj.Some? && Uploading(id, v.wj.value, v)
    ensures Ack(id) !in v.up && v.dn == []
  {
    var j := v.wj.value;
    if v.hj.None? {
      assert forall f :: f in [Request(id, j.meta)] + BodyFrames(id, j.posted) ==> !f.Ack?;
    } else {
      assert forall f :: f in BodyFrames(id, j.posted[|v.hj.value.body|..]) ==> !f.Ack?;
    }
  }

  lemma OneChunkFlight(id: Id, j: W.Job, v: View, fl: Flight)
    requires Answering(id, j, v, fl)
    ensures OneChunk(j, v.dn, Ack(id) in v.up)
  {
    WireOnce(id, fl);
    assert v.up == [] || v.up == [Ack(id)];
    assert Unacked(j, v.hj.value, v.up, fl) <= 1;
    assert j.awaiting == [] || j.awaiting[0].Write? || j.awaiting == [W.Close];
  }

  lemma WireOnce(id: Id, fl: Flight)
    ensures forall f :: f in Wire(id, fl) && f.Data? ==> fl.data == Some(f.data)
    ensures forall i, k :: 0 <= i < k < |Wire(id, fl)| && Wire(id, fl)[i].Data? ==> !Wire(id, fl)[k].Data?
  {
  }

  /**
   Every job the Worker still holds has a live timer (the request deadline, or after a cancel the
   host's deadline to confirm it), and no job has left without an answer and a cleared timer.
   */
  lemma HeldOrAnswered(s: Sys)
    requires Reachable(s)
    ensures forall id :: id in s.w.gone ==>
              && s.w.gone[id].answer != W.Unanswered && s.w.gone[id].timer == W.Cleared
              && (s.w.gone[id].closed <==> !s.w.gone[id].cancelled)
    ensures forall j :: j in s.w.queue ==> j.timer == W.Deadline && j.answer == W.Unanswered
    ensures forall id :: id in s.w.active ==>
              s.w.active[id].timer == (if s.w.active[id].cancelled then W.CancelAck else W.Deadline)
              && (s.w.active[id].cancelled ==> s.w.active[id].answer != W.Unanswered)
  {
    ReachableInv(s);
    if s.live {
      forall id | id in s.w.active
        ensures s.w.active[id].timer == (if s.w.active[id].cancelled then W.CancelAck else W.Deadline)
                && (s.w.active[id].cancelled ==> s.w.active[id].answer != W.Unanswered)
      {
        ActiveLocal(s, id);
      }
      forall j | j in s.w.queue ensures Untouched(j) {
        var i :| 0 <= i < |s.w.queue| && s.w.queue[i] == j;
      }
    }
  }
}
