/**
 What reaches the other end is what was given at this one: the request a client posted, the status its
 handler wrote, and the order of both, each told from the steps of the run alone.
 */
module BridgeHistory {
  import opened Prelude
  import opened BridgeFrames
  import opened BridgeLocal
  import opened BridgeSystem
  import opened BridgeInvariant
  import opened BridgeSteps
  import opened BridgeTheorems
  import A = BridgeAnswers
  import W = BridgeWorker
  import S = BridgeSession

  // ---- what the steps of a run say ----

  /** What a client posted, and after how many steps. */
  datatype Post = Post(meta: Meta, body: Bytes, at: nat)

  type Posts = map<Id, Post>
  type Heads = map<Id, int>

  /** The status a move gives the response, when it is the first to give it one. */
  function Opening(m: S.Move): Option<int> {
    match m
    case Head(status, _) => Some(status)
    case Put(_, _) => Some(200)
    case Finish(_) => Some(200)
    case _ => None
  }

  function Posting(step: Step, posts: Posts, at: nat): Posts {
    if step.Arrive? then posts[step.id := Post(step.meta, step.body, at)] else posts
  }

  function Heading(step: Step, heads: Heads): Heads {
    if step.Handler? && Opening(step.move).Some? && step.id !in heads
    then heads[step.id := Opening(step.move).value] else heads
  }

  /** The last upload under each id. */
  function PostsOf(steps: seq<Step>): Posts {
    if steps == [] then map[] else Posting(steps[|steps| - 1], PostsOf(steps[..|steps| - 1]), |steps|)
  }

  /** The status each handler gave its response first. */
  function HeadsOf(steps: seq<Step>): Heads {
    if steps == [] then map[] else Heading(steps[|steps| - 1], HeadsOf(steps[..|steps| - 1]))
  }

  // ---- both ends and both channels tell the same ----

  predicate JobTrue(id: Id, j: W.Job, heads: Heads, posts: Posts) {
    && id in posts && j.meta == posts[id].meta && j.posted == posts[id].body
    && (j.answer.Streamed? ==> id in heads && heads[id] == j.answer.status)
  }

  predicate WaitingTrue(j: W.Job, heads: Heads, posts: Posts) {
    JobTrue(j.id, j, heads, posts) && j.id !in heads
  }

  ghost predicate WorkerTrue(w: W.Worker, heads: Heads, posts: Posts) {
    && (forall id :: id in w.active ==> w.active[id].id == id && JobTrue(id, w.active[id], heads, posts))
    && (forall id :: id in w.gone ==> JobTrue(id, w.gone[id], heads, posts))
    && (forall j :: j in w.queue ==> WaitingTrue(j, heads, posts))
  }

  /** A request says what was posted, and comes before its handler has written. */
  predicate UpFrameTrue(f: WFrame, heads: Heads, posts: Posts) {
    && (f.Request? ==> f.id !in heads && f.id in posts && f.meta == posts[f.id].meta)
    && (f.End? ==> f.id !in heads)
  }

  ghost predicate UpTrue(up: seq<WFrame>, heads: Heads, posts: Posts) {
    forall f :: f in up ==> UpFrameTrue(f, heads, posts)
  }

  predicate DownFrameTrue(f: HFrame, heads: Heads) {
    f.Response? ==> f.id in heads && heads[f.id] == f.status
  }

  ghost predicate DownTrue(down: seq<HFrame>, heads: Heads) {
    forall f :: f in down ==> DownFrameTrue(f, heads)
  }

  predicate HeldTrue(id: Id, j: S.Job, heads: Heads, posts: Posts) {
    && id in posts && j.meta == posts[id].meta
    && (id in heads <==> j.Running? && j.w.sent)
  }

  ghost predicate HostTrue(h: S.Session, heads: Heads, posts: Posts) {
    forall id :: id in h.jobs ==> HeldTrue(id, h.jobs[id], heads, posts)
  }

  ghost predicate True(s: Sys, heads: Heads, posts: Posts) {
    && WorkerTrue(s.w, heads, posts)
    && (s.live ==> UpTrue(s.up, heads, posts) && DownTrue(s.down, heads) && HostTrue(s.h, heads, posts))
  }

  // ---- the Worker ----

  lemma StartTrue(j: W.Job, heads: Heads, posts: Posts)
    requires WaitingTrue(j, heads, posts)
    ensures UpTrue(StartFrames(j.id, j.meta, j.body), heads, posts)
  {
  }

  lemma StartedTrue(w: W.Worker, heads: Heads, posts: Posts)
    requires WorkerTrue(w, heads, posts) && w.queue != []
    ensures WorkerTrue(A.Started(w), heads, posts) && WaitingTrue(w.queue[0], heads, posts)
  {
    assert w.queue[0] in w.queue;
  }

  lemma {:induction false} NextTrue(w: W.Worker, heads: Heads, posts: Posts)
    requires WorkerTrue(w, heads, posts)
    ensures WorkerTrue(W.Next(w).w, heads, posts) && UpTrue(W.Next(w).sent, heads, posts)
    decreases |w.queue|
  {
    if |w.active| < W.Capacity(w) && w.queue != [] {
      StartedTrue(w, heads, posts);
      StartTrue(w.queue[0], heads, posts);
      NextTrue(A.Started(w), heads, posts);
    }
  }

  lemma AdmitTrue(w: W.Worker, j: W.Job, heads: Heads, posts: Posts)
    requires WorkerTrue(w, heads, posts) && WaitingTrue(j, heads, posts)
    ensures var r := W.Admit(w, j);
            r.Some? ==> WorkerTrue(r.value.w, heads, posts) && UpTrue(r.value.sent, heads, posts)
  {
    NextTrue(w.(queue := w.queue + [j]), heads, posts);
  }

  lemma FailTrue(w: W.Worker, id: Id, status: int, heads: Heads, posts: Posts)
    requires WorkerTrue(w, heads, posts)
    ensures var o := W.Fail(w, id, status); WorkerTrue(o.w, heads, posts) && UpTrue(o.sent, heads, posts)
  {
    if id !in w.active && W.Waiting(w.queue, id) {
      var j := W.Find(w.queue, id);
      assert WaitingTrue(j, heads, posts);
      NextTrue(w.(queue := W.Without(w.queue, id), gone := w.gone[id := W.Abandon(j, status, W.Cleared)]),
              heads, posts);
    }
  }

  lemma DisconnectTrue(w: W.Worker, heads: Heads, posts: Posts)
    requires WorkerTrue(w, heads, posts)
    ensures WorkerTrue(W.Disconnect(w), heads, posts)
  {
    forall id | id in W.SeverQueue(w.queue) ensures JobTrue(id, W.SeverQueue(w.queue)[id], heads, posts) {
      var j := W.SeveredFrom(w.queue, id);
      assert WaitingTrue(j, heads, posts);
    }
  }

  /** A job that leaves for good is what it was. */
  lemma RetireTrue(w: W.Worker, j: W.Job, heads: Heads, posts: Posts)
    requires WorkerTrue(w, heads, posts) && JobTrue(j.id, j, heads, posts)
    ensures WorkerTrue(W.Retire(w, j), heads, posts)
  {
  }

  lemma UpdateTrue(w: W.Worker, j: W.Job, heads: Heads, posts: Posts)
    requires WorkerTrue(w, heads, posts) && JobTrue(j.id, j, heads, posts)
    ensures WorkerTrue(w.(active := w.active[j.id := j]), heads, posts)
  {
  }

  lemma ReceiveTrue(w: W.Worker, f: HFrame, heads: Heads, posts: Posts)
    requires WorkerTrue(w, heads, posts) && DownFrameTrue(f, heads)
    ensures var r := W.Receive(w, f);
            r.Done? ==> WorkerTrue(r.out.w, heads, posts) && UpTrue(r.out.sent, heads, posts)
  {
    if !f.Ping? && !f.Keys? && f.id in w.active {
      var j := w.active[f.id];
      assert JobTrue(j.id, j, heads, posts);
      if j.cancelled {
        RetireTrue(w, j.(timer := W.Cleared), heads, posts);
        NextTrue(W.Retire(w, j.(timer := W.Cleared)), heads, posts);
      } else {
        FailTrue(w, j.id, 504, heads, posts);
      }
    }
  }

  lemma ResumeTrue(w: W.Worker, id: Id, ok: bool, heads: Heads, posts: Posts)
    requires WorkerTrue(w, heads, posts) && id in w.active && w.active[id].awaiting != []
    ensures var o := W.Resume(w, id, ok); WorkerTrue(o.w, heads, posts) && UpTrue(o.sent, heads, posts)
  {
    var op, j := w.active[id].awaiting[0], w.active[id].(awaiting := w.active[id].awaiting[1..]);
    UpdateTrue(w, j, heads, posts);
    if !ok {
      FailTrue(w.(active := w.active[id := j]), id, 499, heads, posts);
    } else if op.Close? && !j.cancelled {
      var last := j.(timer := W.Cleared, closed := true);
      RetireTrue(w, last, heads, posts);
      NextTrue(W.Retire(w, last), heads, posts);
    }
  }

  // ---- the host ----

  lemma DispatchTrue(h: S.Session, f: WFrame, heads: Heads, posts: Posts)
    requires HostTrue(h, heads, posts) && UpFrameTrue(f, heads, posts)
    ensures var r := S.Dispatch(h, f); r.Go? ==> HostTrue(r.h, heads, posts) && DownTrue(r.sent, heads)
  {
  }

  lemma MoveTrue(id: Id, j: S.Job, m: S.Move, heads: Heads, posts: Posts)
    requires HeldTrue(id, j, heads, posts) && S.CanMove(j, m) && |j.w.buf| <= CHUNK
    ensures var (j', sent) := S.MoveJob(id, j, m);
            var now := Heading(Handler(id, m), heads);
            HeldTrue(id, j', now, posts) && DownTrue(sent, now)
  {
  }

  /** A handler that runs has its whole request, and nothing of it is on the wire any more. */
  lemma NothingToRead(s: Sys, id: Id)
    requires Inv(s) && s.live && id in s.h.jobs && s.h.jobs[id].Running?
    ensures forall f :: f in s.up && (f.Request? || f.End?) ==> f.id != id
  {
    assert Local(id, Look(s, id));
    forall f | f in s.up && (f.Request? || f.End?) && f.id == id ensures false {
      UpMember(s.up, id, f);
      QuietUp(id, Look(s, id), f);
    }
  }

  lemma QuietUp(id: Id, v: View, f: WFrame)
    requires Local(id, v) && v.hj.Some? && v.hj.value.Running? && (f.Request? || f.End?)
    ensures f !in v.up
  {
  }

  lemma NotWaiting(s: Sys, id: Id)
    requires Inv(s) && s.live && id in s.h.jobs
    ensures forall j :: j in s.w.queue ==> j.id != id
  {
    forall j | j in s.w.queue ensures j.id != id {
      var i :| 0 <= i < |s.w.queue| && s.w.queue[i] == j;
      assert Look(s, s.w.queue[i].id) == Nowhere;
    }
  }

  lemma HandlerTrue(s: Sys, id: Id, m: S.Move, heads: Heads, posts: Posts)
    requires Inv(s) && True(s, heads, posts) && Enabled(s, Handler(id, m))
    ensures True(Do(s, Handler(id, m)), Heading(Handler(id, m), heads), posts)
  {
    var j, now := s.h.jobs[id], Heading(Handler(id, m), heads);
    MoveTrue(id, j, m, heads, posts);
    NothingToRead(s, id);
    NotWaiting(s, id);
    HeadsGrow(s, id, heads, now, posts);
    HandlerHeld(s.h, id, S.MoveJob(id, j, m).0, heads, now, posts);
    HandlerParts(s, id, m);
  }

  /** Only its own record, and the frames it sends, change with a handler's move. */
  lemma HandlerParts(s: Sys, id: Id, m: S.Move)
    requires Enabled(s, Handler(id, m))
    ensures var t, r := Do(s, Handler(id, m)), S.MoveJob(id, s.h.jobs[id], m);
            && t.w == s.w && t.up == s.up && t.live == s.live && t.down == s.down + r.1
            && t.h.jobs == s.h.jobs[id := r.0]
  {
  }

  ghost predicate Same(heads: Heads, now: Heads, id: Id) {
    forall x: Id :: x != id ==> (x in heads <==> x in now) && (x in heads ==> now[x] == heads[x])
  }

  lemma HeadsGrow(s: Sys, id: Id, heads: Heads, now: Heads, posts: Posts)
    requires WorkerTrue(s.w, heads, posts) && UpTrue(s.up, heads, posts) && DownTrue(s.down, heads)
    requires Same(heads, now, id) && (id in heads ==> now == heads)
    requires forall f :: f in s.up && (f.Request? || f.End?) ==> f.id != id
    requires forall j :: j in s.w.queue ==> j.id != id
    ensures WorkerTrue(s.w, now, posts) && UpTrue(s.up, now, posts) && DownTrue(s.down, now)
  {
    forall j | j in s.w.queue ensures WaitingTrue(j, now, posts) {
      assert WaitingTrue(j, heads, posts);
    }
    forall f | f in s.up ensures UpFrameTrue(f, now, posts) {
      assert UpFrameTrue(f, heads, posts);
    }
    forall f | f in s.down ensures DownFrameTrue(f, now) {
      assert DownFrameTrue(f, heads);
    }
  }

  lemma HandlerHeld(h: S.Session, id: Id, j: S.Job, heads: Heads, now: Heads, posts: Posts)
    requires HostTrue(h, heads, posts) && Same(heads, now, id) && HeldTrue(id, j, now, posts)
    ensures HostTrue(h.(jobs := h.jobs[id := j]), now, posts)
  {
  }

  // ---- every step ----

  /** An id that was never used is nowhere, so its upload can be told anew. */
  lemma ArriveTrue(s: Sys, id: Id, meta: Meta, body: Bytes, heads: Heads, posts: Posts, at: nat)
    requires Inv(s) && True(s, heads, posts) && Enabled(s, Arrive(id, meta, body)) && heads.Keys <= s.used
    ensures True(Do(s, Arrive(id, meta, body)), heads, posts[id := Post(meta, body, at)])
  {
    var now := posts[id := Post(meta, body, at)];
    if s.live {
      NowhereToSee(s, id);
    }
    ToldAnew(s, id, heads, posts, now);
    AdmitTrue(s.w, W.NewJob(id, meta, body), heads, now);
  }

  lemma ToldAnew(s: Sys, id: Id, heads: Heads, posts: Posts, now: Posts)
    requires True(s, heads, posts) && forall x: Id :: x != id && x in posts ==> x in now && now[x] == posts[x]
    requires id !in s.w.active && id !in s.w.gone && forall j :: j in s.w.queue ==> j.id != id
    requires s.live ==> id !in s.h.jobs && forall f :: f in s.up && f.Request? ==> f.id != id
    ensures True(s, heads, now)
  {
    forall j | j in s.w.queue ensures WaitingTrue(j, heads, now) {
      assert WaitingTrue(j, heads, posts);
    }
    if s.live {
      forall f | f in s.up ensures UpFrameTrue(f, heads, now) {
        assert UpFrameTrue(f, heads, posts);
      }
    }
  }

  lemma NowhereToSee(s: Sys, id: Id)
    requires Inv(s) && s.live && id !in s.used
    ensures id !in s.w.active && id !in s.w.gone && id !in s.h.jobs
    ensures forall f :: f in s.up && f.Request? ==> f.id != id
    ensures forall j :: j in s.w.queue ==> j.id != id
  {
    assert Look(s, id) == Nowhere;
    forall f | f in s.up && f.Request? && f.id == id ensures false {
      UpMember(s.up, id, f);
    }
  }

  lemma WorkerStepTrue(s: Sys, step: Step, heads: Heads, posts: Posts)
    requires Inv(s) && True(s, heads, posts) && Enabled(s, step)
    requires step.WorkerTurn? || step.WorkerResume? || step.WorkerFail?
    ensures True(Do(s, step), heads, posts)
  {
    match step {
      case WorkerTurn =>
        WorkerTurnKeeps(s);
        ReceiveTrue(s.w, s.down[0], heads, posts);
      case WorkerResume(id, ok) => ResumeTrue(s.w, id, ok, heads, posts);
      case WorkerFail(id, status) => FailTrue(s.w, id, status, heads, posts);
    }
  }

  lemma HostStepTrue(s: Sys, step: Step, heads: Heads, posts: Posts)
    requires Inv(s) && True(s, heads, posts) && Enabled(s, step)
    requires step.HostTurn? || step.HostJoin? || step.Reload? || step.Heartbeat? || step.Unwind?
    ensures True(Do(s, step), heads, posts)
  {
    if step.HostTurn? {
      HostKeeps(s, step);
      DispatchTrue(s.h, s.up[0], heads, posts);
    }
  }

  lemma SocketTrue(s: Sys, step: Step, heads: Heads, posts: Posts)
    requires True(s, heads, posts) && Enabled(s, step) && (step.Drop? || step.Reconnect?)
    ensures True(Do(s, step), heads, posts)
  {
    DisconnectTrue(s.w, heads, posts);
  }

  lemma StepTrue(s: Sys, step: Step, heads: Heads, posts: Posts, at: nat)
    requires Inv(s) && True(s, heads, posts) && Enabled(s, step) && heads.Keys <= s.used
    ensures True(Do(s, step), Heading(step, heads), Posting(step, posts, at))
    ensures Heading(step, heads).Keys <= Do(s, step).used
  {
    HeadsUsed(s, step, heads);
    match step {
      case Arrive(id, meta, body) => ArriveTrue(s, id, meta, body, heads, posts, at);
      case WorkerTurn | WorkerResume(_, _) | WorkerFail(_, _) => WorkerStepTrue(s, step, heads, posts);
      case Handler(id, m) => HandlerTrue(s, id, m, heads, posts);
      case HostTurn | HostJoin(_) | Reload | Heartbeat | Unwind(_) => HostStepTrue(s, step, heads, posts);
      case Drop | Reconnect(_) => SocketTrue(s, step, heads, posts);
    }
  }

  lemma HeadsUsed(s: Sys, step: Step, heads: Heads)
    requires Inv(s) && Enabled(s, step) && heads.Keys <= s.used
    ensures Heading(step, heads).Keys <= Do(s, step).used
  {
    if step.Handler? {
      assert Look(s, step.id) != Nowhere;
    }
  }

  lemma {:induction false} RunTrue(steps: seq<Step>)
    ensures Run(steps).Some? ==>
              True(Run(steps).value, HeadsOf(steps), PostsOf(steps)) && HeadsOf(steps).Keys <= Run(steps).value.used
  {
    if steps != [] && Run(steps).Some? {
      var front := steps[..|steps| - 1];
      RunTrue(front);
      RunKeeps(front);
      StepTrue(Run(front).value, steps[|steps| - 1], HeadsOf(front), PostsOf(front), |steps|);
    }
  }

  // ---- what arrives ----

  /**
   The status arrives: whenever a client's promise has been resolved with a response, running or gone,
   its status is the one the handler gave first - that of the first `WriteHeader`, or 200 when bytes
   or the end came first.
   */
  lemma StatusArrives(steps: seq<Step>, id: Id)
    requires Run(steps).Some?
    ensures var s := Run(steps).value;
            var heads := HeadsOf(steps);
            && (id in s.w.active && s.w.active[id].answer.Streamed? ==>
                  id in heads && s.w.active[id].answer.status == heads[id])
            && (id in s.w.gone && s.w.gone[id].answer.Streamed? ==>
                  id in heads && s.w.gone[id].answer.status == heads[id])
  {
    RunTrue(steps);
  }

  /** The request arrives: a handler runs on the method, the path and the bytes the client posted. */
  lemma RequestArrives(steps: seq<Step>, id: Id)
    requires Run(steps).Some? && Run(steps).value.live
    requires id in Run(steps).value.h.jobs && Run(steps).value.h.jobs[id].Running?
    ensures var s := Run(steps).value;
            var r := s.h.jobs[id];
            && id in PostsOf(steps) && r.meta == PostsOf(steps)[id].meta
            && (id in s.w.active && !r.settling ==> r.body == PostsOf(steps)[id].body)
  {
    RunTrue(steps);
    var s := Run(steps).value;
    assert Reachable(s);
    BytesArrive(s, id);
  }

  /** A response that was closed is whole: the status written, and all the bytes. */
  lemma ResponseArrives(steps: seq<Step>, id: Id)
    requires Run(steps).Some? && id in Run(steps).value.w.gone && Run(steps).value.w.gone[id].closed
    ensures var s := Run(steps).value;
            && id in HeadsOf(steps) && s.w.gone[id].answer == W.Streamed(HeadsOf(steps)[id])
            && s.w.gone[id].accepted == Wrote(s, id)
  {
    RunTrue(steps);
    RunKeeps(steps);
    StatusArrives(steps, id);
  }

  // ---- and in the order in which it was posted ----

  predicate Earlier(a: Id, b: Id, posts: Posts) {
    a in posts && b in posts && posts[a].at < posts[b].at
  }

  /** Jobs wait in the order they were posted in, behind all that run. */
  ghost predicate Ordered(w: W.Worker, posts: Posts) {
    && (forall i, k :: 0 <= i < k < |w.queue| ==> Earlier(w.queue[i].id, w.queue[k].id, posts))
    && (forall id, k :: id in w.active && 0 <= k < |w.queue| ==> Earlier(id, w.queue[k].id, posts))
  }

  lemma {:induction false} NextOrdered(w: W.Worker, posts: Posts)
    requires Ordered(w, posts)
    ensures Ordered(W.Next(w).w, posts)
    decreases |w.queue|
  {
    if |w.active| < W.Capacity(w) && w.queue != [] {
      NextOrdered(A.Started(w), posts);
    }
  }

  lemma AdmitOrdered(w: W.Worker, j: W.Job, posts: Posts)
    requires Ordered(w, posts)
    requires forall i :: 0 <= i < |w.queue| ==> Earlier(w.queue[i].id, j.id, posts)
    requires forall id :: id in w.active ==> Earlier(id, j.id, posts)
    ensures W.Admit(w, j).Some? ==> Ordered(W.Admit(w, j).value.w, posts)
  {
    NextOrdered(w.(queue := w.queue + [j]), posts);
  }

  /** One job less, in the queue or among the active. */
  lemma CutOrdered(w: W.Worker, k: nat, posts: Posts)
    requires Ordered(w, posts) && k < |w.queue|
    ensures Ordered(w.(queue := w.queue[..k] + w.queue[k + 1..]), posts)
  {
  }

  lemma FailOrdered(w: W.Worker, id: Id, status: int, posts: Posts)
    requires Ordered(w, posts) && W.Tidy(w)
    ensures Ordered(W.Fail(w, id, status).w, posts)
  {
    if id !in w.active && W.Waiting(w.queue, id) {
      var k :| 0 <= k < |w.queue| && w.queue[k].id == id;
      WithoutOne(w.queue, id, k);
      CutOrdered(w, k, posts);
      NextOrdered(w.(queue := W.Without(w.queue, id),
                     gone := w.gone[id := W.Abandon(W.Find(w.queue, id), status, W.Cleared)]), posts);
    }
  }

  lemma SameJobsOrdered(w: W.Worker, w': W.Worker, posts: Posts)
    requires Ordered(w, posts) && w'.queue == w.queue && w'.active.Keys == w.active.Keys
    ensures Ordered(w', posts)
  {
  }

  lemma ReceiveOrdered(w: W.Worker, f: HFrame, posts: Posts)
    requires Ordered(w, posts) && W.Tidy(w)
    ensures W.Receive(w, f).Done? ==> Ordered(W.Receive(w, f).out.w, posts)
  {
    if W.Receive(w, f).Done? {
      if f.Ping? || f.Keys? {
        SameJobsOrdered(w, W.Receive(w, f).out.w, posts);
      } else {
        var j := w.active[f.id];
        if j.cancelled && f.Ready? {
          RetireOrdered(w, j.(timer := W.Cleared), posts);
        } else if !j.cancelled && f.Cancel? {
          FailOrdered(w, j.id, 504, posts);
        } else {
          SameJobsOrdered(w, W.Receive(w, f).out.w, posts);
        }
      }
    }
  }

  lemma ResumeOrdered(w: W.Worker, id: Id, ok: bool, posts: Posts)
    requires Ordered(w, posts) && W.Tidy(w) && id in w.active && w.active[id].awaiting != []
    ensures Ordered(W.Resume(w, id, ok).w, posts)
  {
    var j := w.active[id].(awaiting := w.active[id].awaiting[1..]);
    A.UpdateTidy(w, id, j);
    UpdateOrdered(w, id, j, posts);
    if !ok {
      FailOrdered(w.(active := w.active[id := j]), id, 499, posts);
    } else {
      RetireOrdered(w, j.(timer := W.Cleared, closed := true), posts);
    }
  }

  lemma UpdateOrdered(w: W.Worker, id: Id, j: W.Job, posts: Posts)
    requires Ordered(w, posts) && id in w.active
    ensures Ordered(w.(active := w.active[id := j]), posts)
  {
  }

  lemma RetireOrdered(w: W.Worker, j: W.Job, posts: Posts)
    requires Ordered(w, posts)
    ensures Ordered(W.Next(W.Retire(w, j)).w, posts)
  {
    NextOrdered(W.Retire(w, j), posts);
  }

  /** An upload is later than every other. */
  lemma ArriveOrdered(s: Sys, step: Step, posts: Posts, at: nat)
    requires Inv(s) && Enabled(s, step) && step.Arrive? && Ordered(s.w, posts)
    requires forall x :: x in posts ==> posts[x].at < at
    requires forall id :: id in s.w.active ==> id in posts
    requires forall j :: j in s.w.queue ==> j.id in posts
    ensures Ordered(Do(s, step).w, Posting(step, posts, at))
  {
    if s.live {
      NowhereToSee(s, step.id);
    }
    LatestOrdered(s.w, step.id, Post(step.meta, step.body, at), posts);
    AdmitOrdered(s.w, W.NewJob(step.id, step.meta, step.body), Posting(step, posts, at));
  }

  lemma LatestOrdered(w: W.Worker, id: Id, post: Post, posts: Posts)
    requires Ordered(w, posts) && id !in w.active && forall j :: j in w.queue ==> j.id != id && j.id in posts
    requires forall x :: x in posts ==> posts[x].at < post.at
    requires forall x :: x in w.active ==> x in posts
    ensures var now := posts[id := post];
            && Ordered(w, now)
            && (forall i :: 0 <= i < |w.queue| ==> Earlier(w.queue[i].id, id, now))
            && (forall x :: x in w.active ==> Earlier(x, id, now))
  {
    forall i | 0 <= i < |w.queue| ensures w.queue[i].id != id && w.queue[i].id in posts {
      assert w.queue[i] in w.queue;
    }
  }

  lemma WorkerOrdered(s: Sys, step: Step, posts: Posts)
    requires Inv(s) && Enabled(s, step) && Ordered(s.w, posts)
    requires step.WorkerTurn? || step.WorkerResume? || step.WorkerFail?
    ensures Ordered(Do(s, step).w, posts)
  {
    A.TidyInv(s);
    match step {
      case WorkerTurn => ReceiveOrdered(s.w, s.down[0], posts);
      case WorkerResume(id, ok) => ResumeOrdered(s.w, id, ok, posts);
      case WorkerFail(id, status) => FailOrdered(s.w, id, status, posts);
    }
  }

  lemma StepOrdered(s: Sys, step: Step, heads: Heads, posts: Posts, at: nat)
    requires Inv(s) && Enabled(s, step) && True(s, heads, posts) && Ordered(s.w, posts)
    requires forall x :: x in posts ==> posts[x].at < at
    ensures Ordered(Do(s, step).w, Posting(step, posts, at))
  {
    match step {
      case Arrive(_, _, _) =>
        assert forall j :: j in s.w.queue ==> WaitingTrue(j, heads, posts);
        ArriveOrdered(s, step, posts, at);
      case WorkerTurn | WorkerResume(_, _) | WorkerFail(_, _) => WorkerOrdered(s, step, posts);
      case HostTurn | HostJoin(_) | Handler(_, _) | Reload | Heartbeat | Drop | Unwind(_) | Reconnect(_) =>
    }
  }

  lemma {:induction false} RunOrdered(steps: seq<Step>)
    ensures forall x :: x in PostsOf(steps) ==> PostsOf(steps)[x].at <= |steps|
    ensures Run(steps).Some? ==> Ordered(Run(steps).value.w, PostsOf(steps))
  {
    if steps != [] {
      var front := steps[..|steps| - 1];
      RunOrdered(front);
      if Run(steps).Some? {
        RunTrue(front);
        RunKeeps(front);
        StepOrdered(Run(front).value, steps[|steps| - 1], HeadsOf(front), PostsOf(front), |steps|);
      }
    }
  }

  /** First posted, first started: whoever waits was posted after all who run, and after those before it. */
  lemma FirstPostedFirstStarted(steps: seq<Step>, k: nat)
    requires Run(steps).Some? && k < |Run(steps).value.w.queue|
    ensures var w, posts := Run(steps).value.w, PostsOf(steps);
            && w.queue[k].id in posts
            && (forall id :: id in w.active ==> id in posts && posts[id].at < posts[w.queue[k].id].at)
            && (forall i :: 0 <= i < k ==>
                  w.queue[i].id in posts && posts[w.queue[i].id].at < posts[w.queue[k].id].at)
  {
    RunTrue(steps);
    RunOrdered(steps);
    var w := Run(steps).value.w;
    assert WaitingTrue(w.queue[k], HeadsOf(steps), PostsOf(steps));
    forall i | 0 <= i < k ensures Earlier(w.queue[i].id, w.queue[k].id, PostsOf(steps)) {
    }
  }
}
