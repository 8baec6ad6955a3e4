/** Who answers a client, and with what; and who is turned away. */
module BridgeVerdicts {
  import opened Prelude
  import opened BridgeFrames
  import opened BridgeSystem
  import opened BridgeInvariant
  import opened BridgeSteps
  import opened BridgeTheorems
  import A = BridgeAnswers
  import L = BridgeLocal
  import S = BridgeSession
  import W = BridgeWorker

  predicate Holds(w: W.Worker, id: Id) {
    id in w.active || W.Waiting(w.queue, id)
  }

  /** The answer a step gives a client that has none yet. */
  function NewAnswer(s: Sys, step: Step, id: Id): Option<W.Answer> {
    match step
    case WorkerFail(x, status) => if x == id && Holds(s.w, id) then Some(W.Refused(status)) else None
    case WorkerTurn =>
      if s.down == [] then None
      else if s.down[0] == HFrame.Cancel(id) then Some(W.Refused(504))
      else if s.down[0].Response? && s.down[0].id == id then Some(W.Streamed(s.down[0].status))
      else None
    case Drop => if Holds(s.w, id) then Some(W.Refused(502)) else None
    case _ => None
  }

  /** Nobody waiting has been answered. */
  ghost predicate Unanswered(w: W.Worker) {
    forall j :: j in w.queue ==> j.answer == W.Unanswered
  }

  ghost predicate SameAnswers(w: W.Worker, w': W.Worker) {
    forall id :: A.Answered(w', id) == A.Answered(w, id)
  }

  lemma StartedAnswers(w: W.Worker)
    requires W.Tidy(w) && Unanswered(w) && w.queue != []
    ensures SameAnswers(w, A.Started(w)) && Unanswered(A.Started(w))
  {
    assert w.queue[0] in w.queue;
  }

  lemma {:induction false} NextAnswers(w: W.Worker)
    requires W.Tidy(w) && Unanswered(w)
    ensures SameAnswers(w, W.Next(w).w)
    decreases |w.queue|
  {
    if |w.active| < W.Capacity(w) && w.queue != [] {
      A.StartedTidy(w);
      StartedAnswers(w);
      A.NextStarted(w);
      NextAnswers(A.Started(w));
    }
  }

  /** `w'` has the answers of `w`, and the client of `id` has `a`. */
  ghost predicate AnswersWith(w: W.Worker, w': W.Worker, id: Id, a: Option<W.Answer>) {
    A.Answered(w', id) == a && forall x :: x != id ==> A.Answered(w', x) == A.Answered(w, x)
  }

  /** An active client that has no answer has not been cancelled. */
  ghost predicate CancelledAnswered(w: W.Worker) {
    forall id :: id in w.active && w.active[id].cancelled ==> w.active[id].answer != W.Unanswered
  }

  lemma FailAnswers(w: W.Worker, id: Id, status: int)
    requires W.Tidy(w) && Unanswered(w) && CancelledAnswered(w)
    ensures var was := A.Answered(w, id);
            AnswersWith(w, W.Fail(w, id, status).w, id,
                        if was.None? && Holds(w, id) then Some(W.Refused(status)) else was)
  {
    if id !in w.active && W.Waiting(w.queue, id) {
      WaitingAnswers(w, id, status);
    }
  }

  lemma WaitingAnswers(w: W.Worker, id: Id, status: int)
    requires W.Tidy(w) && Unanswered(w) && id !in w.active && W.Waiting(w.queue, id)
    ensures AnswersWith(w, W.Fail(w, id, status).w, id, Some(W.Refused(status)))
  {
    var k :| 0 <= k < |w.queue| && w.queue[k].id == id;
    WithoutOne(w.queue, id, k);
    FindOne(w.queue, id, k);
    var j := W.Abandon(w.queue[k], status, W.Cleared);
    var w1 := w.(queue := w.queue[..k] + w.queue[k + 1..], gone := w.gone[id := j]);
    A.FiledExtends(w, k, j);
    FiledAnswers(w, w1, k, j);
    NextAnswers(w1);
    assert W.Fail(w, id, status) == W.Next(w1);
  }

  lemma FiledAnswers(w: W.Worker, w1: W.Worker, k: nat, j: W.Job)
    requires W.Tidy(w) && Unanswered(w) && k < |w.queue| && w.queue[k].id == j.id && j.answer != W.Unanswered
    requires w1 == w.(queue := w.queue[..k] + w.queue[k + 1..], gone := w.gone[j.id := j])
    ensures AnswersWith(w, w1, j.id, Some(j.answer)) && Unanswered(w1)
  {
    assert w.queue[k] in w.queue;
  }

  lemma RetireAnswers(w: W.Worker, j: W.Job)
    requires W.Tidy(w) && Unanswered(w) && j.id in w.active && j.answer == w.active[j.id].answer != W.Unanswered
    ensures SameAnswers(w, W.Next(W.Retire(w, j)).w)
  {
    A.RetireExtends(w, j);
    NextAnswers(W.Retire(w, j));
  }

  lemma ReceiveAnswers(w: W.Worker, f: HFrame, id: Id)
    requires W.Tidy(w) && Unanswered(w) && CancelledAnswered(w) && W.Receive(w, f).Done?
    requires A.Answered(w, id).None?
    ensures A.Answered(W.Receive(w, f).out.w, id)
            == if f == HFrame.Cancel(id) then Some(W.Refused(504))
               else if f.Response? && f.id == id then Some(W.Streamed(f.status)) else None
  {
    if !f.Ping? && !f.Keys? {
      var j := w.active[f.id];
      if j.cancelled && f.Ready? {
        RetireAnswers(w, j.(timer := W.Cleared));
      } else if !j.cancelled && f.Cancel? {
        FailAnswers(w, j.id, 504);
      }
    }
  }

  lemma DisconnectAnswers(w: W.Worker, id: Id)
    requires W.Tidy(w) && Unanswered(w) && A.Answered(w, id).None?
    ensures A.Answered(W.Disconnect(w), id) == if Holds(w, id) then Some(W.Refused(502)) else None
  {
    SeveredIds(w.queue, id);
    if id in W.SeverQueue(w.queue) {
      var j := W.SeveredFrom(w.queue, id);
    }
  }

  lemma SeveredIds(q: seq<W.Job>, id: Id)
    ensures id in W.SeverQueue(q) <==> W.Waiting(q, id)
  {
    W.SeveredAll(q);
    if id in W.SeverQueue(q) {
      var j := W.SeveredFrom(q, id);
    } else {
      forall i | 0 <= i < |q| ensures q[i].id != id {
        assert q[i] in q;
      }
    }
  }

  lemma ResumeAnswers(w: W.Worker, id: Id, ok: bool)
    requires W.Tidy(w) && Unanswered(w) && CancelledAnswered(w)
    requires id in w.active && w.active[id].awaiting != [] && w.active[id].answer != W.Unanswered
    ensures SameAnswers(w, W.Resume(w, id, ok).w)
  {
    var j := w.active[id].(awaiting := w.active[id].awaiting[1..]);
    if !ok {
      UpdateAnswers(w, j);
      FailAnswers(w.(active := w.active[id := j]), id, 499);
    } else if w.active[id].awaiting[0].Close? && !j.cancelled {
      RetireAnswers(w, j.(timer := W.Cleared, closed := true));
    }
  }

  lemma UpdateAnswers(w: W.Worker, j: W.Job)
    requires W.Tidy(w) && Unanswered(w) && CancelledAnswered(w)
    requires j.id in w.active && j.answer == w.active[j.id].answer && j.cancelled == w.active[j.id].cancelled
    ensures var w1 := w.(active := w.active[j.id := j]);
            W.Tidy(w1) && Unanswered(w1) && CancelledAnswered(w1) && SameAnswers(w, w1)
  {
    A.UpdateTidy(w, j.id, j);
  }

  lemma AwaitingAnswered(s: Sys, id: Id)
    requires Inv(s) && s.live && id in s.w.active && s.w.active[id].awaiting != []
    ensures s.w.active[id].answer != W.Unanswered
  {
    ActiveLocal(s, id);
  }

  lemma WorkerAnswers(s: Sys)
    requires Inv(s)
    ensures Unanswered(s.w) && CancelledAnswered(s.w)
  {
    if s.live {
      forall j | j in s.w.queue ensures j.answer == W.Unanswered {
        var i :| 0 <= i < |s.w.queue| && s.w.queue[i] == j;
      }
      forall id | id in s.w.active && s.w.active[id].cancelled ensures s.w.active[id].answer != W.Unanswered {
        ActiveLocal(s, id);
      }
    }
  }

  /**
   Who answers a client: a client without an answer gets one exactly when its response begins, with that
   status; when its job fails at the Worker, with what it failed with; when the host gives it up, 504;
   and when the socket goes, 502.
   */
  lemma AnswerIs(s: Sys, step: Step, id: Id)
    requires Reachable(s) && Enabled(s, step) && A.Answered(s.w, id).None?
    ensures A.Answered(Do(s, step).w, id) == NewAnswer(s, step, id)
  {
    ReachableInv(s);
    A.TidyInv(s);
    WorkerAnswers(s);
    match step {
      case Arrive(x, meta, body) => ArriveAnswers(s, step, id);
      case WorkerTurn =>
        NoUnexpectedFrame(s);
        ReceiveAnswers(s.w, s.down[0], id);
      case WorkerResume(x, ok) =>
        AwaitingAnswered(s, x);
        ResumeAnswers(s.w, x, ok);
      case WorkerFail(x, status) => FailAnswers(s.w, x, status);
      case HostTurn => NoUnexpectedFrame(s);
      case Drop => DisconnectAnswers(s.w, id);
      case Reconnect(_) => DisconnectAnswers(s.w, id);
      case HostJoin(_) | Handler(_, _) | Reload | Heartbeat | Unwind(_) =>
    }
  }

  lemma ArriveAnswers(s: Sys, step: Step, id: Id)
    requires Inv(s) && W.Tidy(s.w) && Unanswered(s.w) && step.Arrive? && Enabled(s, step)
    ensures A.Answered(Do(s, step).w, id) == A.Answered(s.w, id)
  {
    A.KnownUsed(s);
    AdmitAnswers(s.w, W.NewJob(step.id, step.meta, step.body));
  }

  lemma AdmitAnswers(w: W.Worker, j: W.Job)
    requires W.Tidy(w) && Unanswered(w) && j.id !in A.Known(w) && j.answer == W.Unanswered
    ensures W.Admit(w, j).Some? ==> SameAnswers(w, W.Admit(w, j).value.w)
  {
    A.QueuedTidy(w, j);
    NextAnswers(w.(queue := w.queue + [j]));
  }

  /** A host that is there turns an upload away exactly when every slot is taken and four already wait. */
  lemma TurnedAwayExactly(s: Sys, j: W.Job)
    requires Reachable(s) && s.live
    ensures W.Admit(s.w, j).None? <==> |s.w.active| == Slots(s) && |s.w.queue| == 4
  {
    ReachableInv(s);
  }

  /** What is not about a job is answered at once: a ping with a pong, the host's keys with the slot count. */
  lemma SmallTalk(s: Sys)
    requires Reachable(s) && s.live && s.down != [] && (s.down[0].Ping? || s.down[0].Keys?)
    ensures var t := Do(s, WorkerTurn);
            && t.up == s.up + [if s.down[0].Ping? then Pong else KeysReady(Some(Slots(s)))]
            && t.w == (if s.down[0].Ping? then s.w else s.w.(slots := Some(Slots(s))))
            && t.down == s.down[1..]
  {
    ReachableInv(s);
    assert s.down[0] in s.down;
  }

  // ---- when a handler is told to stop ----

  /** What ends the request context of a handler. */
  predicate Stops(s: Sys, step: Step, id: Id)
    requires id in s.h.jobs && s.h.jobs[id].Running?
  {
    match step
    case HostTurn => s.up != [] && s.up[0] == WFrame.Cancel(id)
    case Handler(x, m) => x == id && (m.TimeOut? || m.Return? || (m.Leave? && s.h.jobs[id].w.err))
    case Unwind(x) => x == id
    case _ => false
  }

  /**
   The context of a running handler ends exactly when the Worker cancels the job, an acknowledgement does not
   come in time, the response ends in an error, the handler returns, or the session is over.
   */
  lemma StoppedExactly(s: Sys, step: Step, id: Id)
    requires Reachable(s) && Enabled(s, step) && id in s.h.jobs && s.h.jobs[id].Running? && !s.h.jobs[id].stopped
    requires id in Do(s, step).h.jobs
    ensures var j := Do(s, step).h.jobs[id];
            j.Running? && (j.stopped <==> Stops(s, step, id))
  {
    match step {
      case HostTurn =>
        NoUnexpectedFrame(s);
        SettlingStopped(s, id);
        DispatchStops(s.h, s.up[0], id);
      case Handler(x, m) =>
        if x == id {
          MoveStops(x, s.h.jobs[x], m);
        }
      case Arrive(_, _, _) | WorkerTurn | WorkerResume(_, _) | WorkerFail(_, _) => NoUnexpectedFrame(s);
      case HostJoin(_) | Reload | Heartbeat | Drop | Unwind(_) | Reconnect(_) =>
    }
  }

  lemma SettlingStopped(s: Sys, id: Id)
    requires Reachable(s) && s.live && id in s.h.jobs && s.h.jobs[id].Running? && !s.h.jobs[id].stopped
    ensures !s.h.jobs[id].settling
  {
    ReachableInv(s);
    assert L.Local(id, Look(s, id));
  }

  lemma DispatchStops(h: S.Session, f: WFrame, id: Id)
    requires id in h.jobs && h.jobs[id].Running? && !h.jobs[id].stopped && !h.jobs[id].settling
    ensures var r := S.Dispatch(h, f);
            r.Go? && id in r.h.jobs ==> r.h.jobs[id].Running? && (r.h.jobs[id].stopped <==> f == WFrame.Cancel(id))
  {
  }

  lemma MoveStops(id: Id, j: S.Job, m: S.Move)
    requires S.CanMove(j, m) && |j.w.buf| <= CHUNK && !j.stopped
    ensures var j' := S.MoveJob(id, j, m).0;
            j'.Running? && (j'.stopped <==> m.TimeOut? || m.Return? || (m.Leave? && j.w.err))
  {
  }
}
