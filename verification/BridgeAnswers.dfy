/** Every job is accounted for from its admission on, and its answer is given once. */
module BridgeAnswers {
  import opened Prelude
  import opened BridgeFrames
  import opened BridgeSystem
  import opened BridgeInvariant
  import opened BridgeSteps
  import opened BridgeTheorems
  import L = BridgeLocal
  import W = BridgeWorker
  import S = BridgeSession

  function WaitingIds(q: seq<W.Job>): set<Id> {
    set j | j in q :: j.id
  }

  /** The jobs the Worker knows of: running, waiting, or gone. */
  function Known(w: W.Worker): set<Id> {
    w.active.Keys + WaitingIds(w.queue) + w.gone.Keys
  }

  /** How a job's promise was resolved, if it was; a waiting job's never is. */
  function Answered(w: W.Worker, id: Id): Option<W.Answer> {
    if id in w.active && w.active[id].answer != W.Unanswered then Some(w.active[id].answer)
    else if id in w.gone then Some(w.gone[id].answer)
    else None
  }

  /** Nothing forgotten, and no answer changed. */
  ghost predicate Extends(w: W.Worker, w': W.Worker) {
    Known(w) <= Known(w') && forall id :: Answered(w, id).Some? ==> Answered(w', id) == Answered(w, id)
  }

  lemma TidyInv(s: Sys)
    requires Inv(s)
    ensures W.Tidy(s.w)
  {
    if s.live {
      forall id | id in s.w.active ensures s.w.active[id].id == id { ActiveLocal(s, id); }
      forall j | j in s.w.queue ensures j.id !in s.w.active {
        var i :| 0 <= i < |s.w.queue| && s.w.queue[i] == j;
        assert Look(s, s.w.queue[i].id) == Nowhere;
      }
    }
  }

  lemma Transitive(a: W.Worker, b: W.Worker, c: W.Worker)
    requires Extends(a, b) && Extends(b, c)
    ensures Extends(a, c)
  {
  }

  /** The Worker after `next` has started the first waiting job. */
  function Started(w: W.Worker): W.Worker
    requires w.queue != []
  {
    var j := w.queue[0];
    w.(queue := w.queue[1..], active := w.active[j.id := j.(body := [])])
  }

  lemma StartedTidy(w: W.Worker)
    requires W.Tidy(w) && w.queue != []
    ensures W.Tidy(Started(w))
  {
    var j, w1 := w.queue[0], Started(w);
    assert j in w.queue;
    forall x | x in w1.queue ensures x in w.queue && x.id != j.id {
      var i :| 0 <= i < |w1.queue| && w1.queue[i] == x;
      assert w.queue[i + 1] == x;
    }
    forall i, k | 0 <= i < k < |w1.queue| ensures w1.queue[i].id != w1.queue[k].id {
      assert w1.queue[i] == w.queue[i + 1] && w1.queue[k] == w.queue[k + 1];
    }
  }

  lemma StartedExtends(w: W.Worker)
    requires W.Tidy(w) && w.queue != []
    ensures Extends(w, Started(w)) && Known(Started(w)) == Known(w)
  {
    var j, w1 := w.queue[0], Started(w);
    assert j in w.queue;
    assert w.queue == [j] + w1.queue;
    assert WaitingIds(w.queue) == {j.id} + WaitingIds(w1.queue);
    assert w1.active.Keys == w.active.Keys + {j.id};
  }

  lemma NextStarted(w: W.Worker)
    requires |w.active| < W.Capacity(w) && w.queue != []
    ensures W.Next(w).w == W.Next(Started(w)).w
  {
  }

  lemma {:induction false} NextExtends(w: W.Worker)
    requires W.Tidy(w)
    ensures Extends(w, W.Next(w).w) && Known(W.Next(w).w) == Known(w)
    decreases |w.queue|
  {
    if |w.active| < W.Capacity(w) && w.queue != [] {
      NextStarted(w);
      StartedTidy(w);
      StartedExtends(w);
      NextExtends(Started(w));
      Transitive(w, Started(w), W.Next(w).w);
    }
  }

  lemma {:induction false} NextTidy(w: W.Worker)
    requires W.Tidy(w)
    ensures W.Tidy(W.Next(w).w)
    decreases |w.queue|
  {
    if |w.active| < W.Capacity(w) && w.queue != [] {
      NextStarted(w);
      StartedTidy(w);
      NextTidy(Started(w));
    }
  }

  lemma RetireExtends(w: W.Worker, j: W.Job)
    requires W.Tidy(w) && j.id in w.active && j.answer != W.Unanswered
    requires w.active[j.id].answer != W.Unanswered ==> j.answer == w.active[j.id].answer
    ensures Extends(w, W.Retire(w, j)) && W.Tidy(W.Retire(w, j))
  {
  }

  lemma WaitingIdsCut(q: seq<W.Job>, k: nat)
    requires k < |q|
    ensures WaitingIds(q) == {q[k].id} + WaitingIds(q[..k] + q[k + 1..])
  {
    var r := q[..k] + q[k + 1..];
    assert q == q[..k] + ([q[k]] + q[k + 1..]);
    assert forall x :: x in q <==> x == q[k] || x in r;
  }

  /** A waiting job fails: it is answered where it is filed. */
  lemma FiledExtends(w: W.Worker, k: nat, j: W.Job)
    requires W.Tidy(w) && k < |w.queue| && w.queue[k].id == j.id
    ensures var w1 := w.(queue := w.queue[..k] + w.queue[k + 1..], gone := w.gone[j.id := j]);
            W.Tidy(w1) && Extends(w, w1) && Known(w1) == Known(w)
  {
    CutQueue(w.queue, k);
    WaitingIdsCut(w.queue, k);
    assert w.queue[k] in w.queue;
  }

  lemma WaitingFailExtends(w: W.Worker, id: Id, status: int)
    requires W.Tidy(w) && id !in w.active && W.Waiting(w.queue, id)
    ensures var w' := W.Fail(w, id, status).w; Extends(w, w') && Known(w') == Known(w) && W.Tidy(w')
  {
    var k :| 0 <= k < |w.queue| && w.queue[k].id == id;
    WithoutOne(w.queue, id, k);
    FindOne(w.queue, id, k);
    var j := W.Abandon(w.queue[k], status, W.Cleared);
    FiledExtends(w, k, j);
    var w1 := w.(queue := w.queue[..k] + w.queue[k + 1..], gone := w.gone[id := j]);
    NextExtends(w1);
    NextTidy(w1);
    Transitive(w, w1, W.Next(w1).w);
  }

  lemma ActiveFailExtends(w: W.Worker, id: Id, status: int)
    requires W.Tidy(w) && id in w.active
    ensures var w' := W.Fail(w, id, status).w; Extends(w, w') && Known(w') == Known(w) && W.Tidy(w')
  {
    assert w.active.Keys + {id} == w.active.Keys;
  }

  lemma FailExtends(w: W.Worker, id: Id, status: int)
    requires W.Tidy(w)
    ensures var w' := W.Fail(w, id, status).w; Extends(w, w') && Known(w') == Known(w) && W.Tidy(w')
  {
    if id in w.active {
      ActiveFailExtends(w, id, status);
    } else if W.Waiting(w.queue, id) {
      WaitingFailExtends(w, id, status);
    }
  }

  lemma DisconnectExtends(w: W.Worker)
    requires W.Tidy(w)
    ensures Extends(w, W.Disconnect(w))
  {
    W.SeveredAll(w.queue);
    forall id | id in W.SeverQueue(w.queue) ensures id !in w.active && id !in w.gone {
      var j := W.SeveredFrom(w.queue, id);
    }
  }

  lemma ReceiveExtends(w: W.Worker, f: HFrame)
    requires W.Tidy(w) && forall id :: id in w.active && w.active[id].cancelled ==> w.active[id].answer != W.Unanswered
    ensures var r := W.Receive(w, f); r.Done? ==> Extends(w, r.out.w)
  {
    if !f.Ping? && !f.Keys? && f.id in w.active {
      var j := w.active[f.id];
      if j.cancelled && f.Ready? {
        RetireExtends(w, j.(timer := W.Cleared));
        NextExtends(W.Retire(w, j.(timer := W.Cleared)));
      } else if f.Cancel? {
        FailExtends(w, j.id, 504);
      }
    }
  }

  lemma ResumeExtends(w: W.Worker, id: Id, ok: bool)
    requires W.Tidy(w) && id in w.active && w.active[id].awaiting != []
    requires w.active[id].cancelled || w.active[id].awaiting[0].Write? || w.active[id].answer != W.Unanswered
    ensures Extends(w, W.Resume(w, id, ok).w)
  {
    var j := w.active[id].(awaiting := w.active[id].awaiting[1..]);
    var w1 := w.(active := w.active[id := j]);
    if !ok {
      assert Extends(w, w1) && W.Tidy(w1);
      FailExtends(w1, id, 499);
    } else if !j.cancelled && w.active[id].awaiting[0].Close? {
      var j' := j.(timer := W.Cleared, closed := true);
      RetireExtends(w, j');
      NextExtends(W.Retire(w, j'));
    }
  }

  lemma QueuedTidy(w: W.Worker, j: W.Job)
    requires W.Tidy(w) && j.id !in Known(w)
    ensures var w1 := w.(queue := w.queue + [j]);
            W.Tidy(w1) && Extends(w, w1) && Known(w1) == Known(w) + {j.id}
  {
    var w1 := w.(queue := w.queue + [j]);
    forall i | 0 <= i < |w.queue| ensures w.queue[i].id != j.id {
      assert w.queue[i] in w.queue;
    }
    assert WaitingIds(w1.queue) == WaitingIds(w.queue) + {j.id};
  }

  lemma AdmitExtends(w: W.Worker, j: W.Job)
    requires W.Tidy(w) && j.id !in Known(w)
    ensures var r := W.Admit(w, j); r.Some? ==> Extends(w, r.value.w) && Known(r.value.w) == Known(w) + {j.id}
  {
    var w1 := w.(queue := w.queue + [j]);
    QueuedTidy(w, j);
    NextExtends(w1);
    Transitive(w, w1, W.Next(w1).w);
  }

  // ---- each entry point keeps the Worker tidy ----

  lemma ReceiveTidy(w: W.Worker, f: HFrame)
    requires W.Tidy(w) && W.Receive(w, f).Done?
    ensures W.Tidy(W.Receive(w, f).out.w)
  {
    if !f.Ping? && !f.Keys? {
      var j := w.active[f.id];
      if j.cancelled && f.Ready? {
        NextTidy(W.Retire(w, j.(timer := W.Cleared)));
      } else if !j.cancelled && f.Cancel? {
        FailExtends(w, j.id, 504);
      }
    }
  }

  lemma ResumeTidy(w: W.Worker, id: Id, ok: bool)
    requires W.Tidy(w) && id in w.active && w.active[id].awaiting != []
    ensures W.Tidy(W.Resume(w, id, ok).w)
  {
    var j := w.active[id].(awaiting := w.active[id].awaiting[1..]);
    if !ok {
      FailExtends(w.(active := w.active[id := j]), id, 499);
    } else if !j.cancelled && w.active[id].awaiting[0].Close? {
      NextTidy(W.Retire(w, j.(timer := W.Cleared, closed := true)));
    }
  }

  lemma DisconnectTidy(w: W.Worker)
    ensures W.Tidy(W.Disconnect(w))
  {
  }

  /** A job's entry changes where it is. */
  lemma UpdateTidy(w: W.Worker, id: Id, j: W.Job)
    requires W.Tidy(w) && id in w.active && j.id == id
    ensures W.Tidy(w.(active := w.active[id := j]))
  {
  }

  lemma WorkerExtends(s: Sys, step: Step)
    requires Reachable(s) && Enabled(s, step) && (step.WorkerTurn? || step.WorkerResume? || step.WorkerFail?)
    requires Inv(s) && W.Tidy(s.w)
    ensures Extends(s.w, Do(s, step).w)
  {
    match step {
      case WorkerTurn =>
        HeldOrAnswered(s);
        NoUnexpectedFrame(s);
        ReceiveExtends(s.w, s.down[0]);
      case WorkerResume(id, ok) =>
        CloseAnswered(s, id);
        ResumeExtends(s.w, id, ok);
      case WorkerFail(id, status) => FailExtends(s.w, id, status);
    }
  }

  lemma ArriveExtends(s: Sys, step: Step)
    requires Inv(s) && W.Tidy(s.w) && step.Arrive? && Enabled(s, step)
    ensures Extends(s.w, Do(s, step).w)
    ensures Do(s, step).used <= s.used + Known(Do(s, step).w)
  {
    KnownUsed(s);
    AdmitExtends(s.w, W.NewJob(step.id, step.meta, step.body));
  }

  lemma HostExtends(s: Sys)
    requires Reachable(s) && Enabled(s, HostTurn)
    ensures Do(s, HostTurn).w == s.w
  {
    NoUnexpectedFrame(s);
  }

  lemma SocketExtends(s: Sys, step: Step)
    requires W.Tidy(s.w) && Enabled(s, step) && (step.Drop? || step.Reconnect?)
    ensures Extends(s.w, Do(s, step).w)
  {
    DisconnectExtends(s.w);
    var w, w' := W.Disconnect(s.w), Do(s, step).w;
    assert Known(w') == Known(w) && forall id :: Answered(w', id) == Answered(w, id);
  }

  lemma Aloof(s: Sys, step: Step)
    requires Enabled(s, step) && (step.HostJoin? || step.Handler? || step.Reload? || step.Heartbeat? || step.Unwind?)
    ensures Do(s, step).w == s.w
  {
  }

  /** Answered exactly once: no step forgets a job, and the first answer a job gets is its last. */
  lemma AnsweredOnce(s: Sys, step: Step)
    requires Reachable(s) && Enabled(s, step)
    ensures Extends(s.w, Do(s, step).w)
  {
    ReachableInv(s);
    TidyInv(s);
    if step.Arrive? {
      ArriveExtends(s, step);
    } else if step.WorkerTurn? || step.WorkerResume? || step.WorkerFail? {
      WorkerExtends(s, step);
    } else if step.Drop? || step.Reconnect? {
      SocketExtends(s, step);
    } else if step.HostTurn? {
      HostExtends(s);
    } else {
      Aloof(s, step);
    }
  }

  /** A stream being closed has been handed to the client, which is the answer. */
  lemma CloseAnswered(s: Sys, id: Id)
    requires Inv(s) && s.live && id in s.w.active && s.w.active[id].awaiting != []
    ensures s.w.active[id].cancelled || s.w.active[id].awaiting[0].Write? || s.w.active[id].answer != W.Unanswered
  {
    ActiveLocal(s, id);
  }

  lemma KnownUsed(s: Sys)
    requires Inv(s)
    ensures Known(s.w) <= s.used
  {
  }

  lemma UsedGrows(s: Sys, step: Step)
    requires Inv(s) && Enabled(s, step)
    ensures Do(s, step).used <= s.used + Known(Do(s, step).w)
  {
    if step.Arrive? {
      TidyInv(s);
      ArriveExtends(s, step);
    }
  }

  lemma UsedKnown(s: Sys, step: Step)
    requires Reachable(s) && Enabled(s, step) && s.used == Known(s.w)
    ensures Do(s, step).used == Known(Do(s, step).w)
  {
    AnsweredOnce(s, step);
    ReachableInv(s);
    UsedGrows(s, step);
    StepKeeps(s, step);
    KnownUsed(Do(s, step));
  }

  /** Every id ever admitted is running, waiting, or gone with an answer. */
  lemma {:induction false} NoneForgotten(steps: seq<Step>)
    ensures Run(steps).Some? ==> Run(steps).value.used == Known(Run(steps).value.w)
  {
    if steps != [] && Run(steps).Some? {
      var front := steps[..|steps| - 1];
      NoneForgotten(front);
      UsedKnown(Run(front).value, steps[|steps| - 1]);
    }
  }

  /**
   A handler's place is freed only after it has returned, at the end of a session as well; and while
   the session lasts it has then said its last word.
   */
  lemma FreedAfterReturn(s: Sys, step: Step, id: Id)
    requires Reachable(s) && Enabled(s, step)
    requires id in s.h.jobs && s.h.jobs[id].Running? && id !in Do(s, step).h.jobs
    ensures s.h.jobs[id].done && (s.live ==> s.h.jobs[id].w.said != S.Nothing)
  {
    ReachableInv(s);
    FreedDone(s, step, id);
    if s.live {
      HandlerSaid(s, id);
    }
  }

  lemma FreedDone(s: Sys, step: Step, id: Id)
    requires Enabled(s, step)
    requires id in s.h.jobs && s.h.jobs[id].Running? && id !in Do(s, step).h.jobs
    ensures s.h.jobs[id].done
  {
  }

  lemma HandlerSaid(s: Sys, id: Id)
    requires Inv(s) && s.live && id in s.h.jobs && s.h.jobs[id].Running? && s.h.jobs[id].done
    ensures s.h.jobs[id].w.said != S.Nothing
  {
    assert L.Local(id, Look(s, id));
  }
}
