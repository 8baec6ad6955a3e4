/**
 One job at a time. A `View` is everything in the system that concerns one id: its entries at
 both ends and its frames in both channels. `Local` says which views can occur; each lemma says
 that one step of one end keeps a view local and that the frame it took was one that end accepts.
 */
module BridgeLocal {
  import opened Prelude
  import opened BridgeFrames
  import W = BridgeWorker
  import S = BridgeSession

  datatype View = View(wj: Option<W.Job>, hj: Option<S.Job>, up: seq<WFrame>, dn: seq<HFrame>, wrote: Bytes)

  /** The response frames of a job still in flight to the Worker. */
  datatype Flight = Flight(head: Option<int>, data: Option<Bytes>, tail: S.Said)

  function HeadFrames(id: Id, head: Option<int>): seq<HFrame> {
    if head.Some? then [Response(id, head.value)] else []
  }

  function DataFrames(id: Id, data: Option<Bytes>): seq<HFrame> {
    if data.Some? then [Data(id, data.value)] else []
  }

  function TailFrames(id: Id, tail: S.Said): seq<HFrame> {
    match tail
    case Nothing => []
    case SaidEnd => [HFrame.End(id)]
    case SaidCancel => [HFrame.Cancel(id)]
  }

  function Wire(id: Id, fl: Flight): seq<HFrame> {
    HeadFrames(id, fl.head) + DataFrames(id, fl.data) + TailFrames(id, fl.tail)
  }

  /** The chunk a client stream is being offered. */
  function Offered(awaiting: seq<W.Await>): Bytes {
    if awaiting != [] && awaiting[0].Write? then awaiting[0].data else []
  }

  function Bit(b: bool): nat {
    if b then 1 else 0
  }

  /** Where the one unacknowledged chunk of a job can be. */
  function Unacked(j: W.Job, r: S.Job, up: seq<WFrame>, fl: Flight): nat
    requires r.Running?
  {
    Bit(fl.data.Some?) + Bit(j.awaiting != [] && j.awaiting[0].Write?) + Bit(up != []) + Bit(r.acked)
  }

  /** Every byte that has left the handler's writer for the client. */
  function Carried(j: W.Job, fl: Flight): Bytes {
    j.accepted + Offered(j.awaiting) + if fl.data.Some? then fl.data.value else []
  }

  /** What every move of a handler keeps about its writer. */
  predicate Sound(w: S.Writer) {
    && |w.buf| <= CHUNK
    && (!w.sent ==> w == S.FreshWriter)
    && (w.awaiting ==> !w.err && w.head)
    && (w.err ==> w.rest == [])
    && (w.sent && !w.head ==> w.err)
    && (w.closing ==> w.sent && w.rest == [] && (!w.err ==> w.buf == []))
    && (w.said != S.Nothing ==> w.closing && !w.awaiting)
    && (w.said == S.SaidEnd ==> !w.err)
    && (w.said == S.SaidCancel ==> w.err)
  }

  predicate SoundJob(r: S.Job) {
    r.Running? && Sound(r.w) && (r.done ==> r.w.said != S.Nothing) && (r.settling ==> r.stopped)
  }

  /** No response yet: the upload is on its way. */
  predicate Uploading(id: Id, j: W.Job, v: View) {
    && !j.writer && j.awaiting == [] && j.accepted == [] && !j.closed
    && v.dn == [] && v.wrote == []
    && match v.hj
       case None => v.up == StartFrames(id, j.meta, j.posted)
       case Some(r) =>
         && r.Receiving? && r.meta == j.meta && r.body <= j.posted
         && v.up == BodyFrames(id, j.posted[|r.body|..]) + [WFrame.End(id)]
  }

  /** No byte of the response is lost, repeated or reordered between the handler and the client. */
  predicate Balanced(j: W.Job, w: S.Writer, wrote: Bytes, fl: Flight) {
    if w.err then Carried(j, fl) <= wrote else Carried(j, fl) + w.buf + w.rest == wrote
  }

  /** The handler runs on exactly the client's bytes and the job has not been cancelled. */
  predicate Answering(id: Id, j: W.Job, v: View, fl: Flight) {
    && v.hj.Some? && SoundJob(v.hj.value) && !v.hj.value.settling && v.hj.value.body == j.posted
    && !j.closed
    && Placed(id, j, v.hj.value, v.up, v.dn, fl)
    && Balanced(j, v.hj.value.w, v.wrote, fl)
  }

  /** Where the frames of a live response are. */
  predicate Placed(id: Id, j: W.Job, r: S.Job, up: seq<WFrame>, dn: seq<HFrame>, fl: Flight)
    requires r.Running?
  {
    && dn == Wire(id, fl)
    && (fl.head.Some? <==> r.w.head && !j.writer)
    && (fl.head.Some? ==> 200 <= fl.head.value <= 599)
    && (j.writer ==> r.w.head)
    && (fl.data.Some? ==> |fl.data.value| <= CHUNK)
    && (j.awaiting == [] || (|j.awaiting| == 1 && j.writer))
    && (j.awaiting == [W.Close] ==> r.w.said == S.SaidEnd && fl.tail == S.Nothing && fl.head.None?)
    && (j.awaiting != [W.Close] ==> fl.tail == r.w.said)
    && (up == [] || up == [Ack(id)])
    && (if r.w.err then Unacked(j, r, up, fl) <= 1 else Unacked(j, r, up, fl) == Bit(r.w.awaiting))
    && (!r.w.head ==> Unacked(j, r, up, fl) == 0)
  }

  predicate Drains(id: Id, dn: seq<HFrame>) {
    forall f :: f in dn ==> HFor(f, id) && !f.Ready? && (f.Data? ==> |f.data| <= CHUNK)
  }

  /** How many of the frames are chunks of a response. */
  function Chunks(dn: seq<HFrame>): nat {
    if dn == [] then 0 else Bit(dn[0].Data?) + Chunks(dn[1..])
  }

  lemma {:induction false} ChunksAppend(a: seq<HFrame>, b: seq<HFrame>)
    ensures Chunks(a + b) == Chunks(a) + Chunks(b)
  {
    if a == [] {
      assert a + b == b;
    } else {
      assert a == [a[0]] + a[1..];
      HeadTail(a[0], a[1..], b);
      ChunksAppend(a[1..], b);
    }
  }

  lemma WireChunks(id: Id, fl: Flight)
    ensures Chunks(Wire(id, fl)) == Bit(fl.data.Some?)
  {
    ChunksAppend(HeadFrames(id, fl.head) + DataFrames(id, fl.data), TailFrames(id, fl.tail));
    ChunksAppend(HeadFrames(id, fl.head), DataFrames(id, fl.data));
    assert forall f: HFrame :: Chunks([f]) == Bit(f.Data?);
  }

  /** A cancelled job's chunk is not acknowledged again, so no second one follows it. */
  predicate Single(r: S.Job, acking: bool, dn: seq<HFrame>)
    requires r.Running?
  {
    if r.w.err then Chunks(dn) <= 1 else Chunks(dn) + Bit(acking) + Bit(r.acked) <= Bit(r.w.awaiting)
  }

  /** The cancel has not reached the host: it still follows the job's earlier frames. */
  predicate CancelSent(id: Id, j: W.Job, v: View) {
    && Drains(id, v.dn)
    && match v.hj
       case None => v.dn == [] && v.up == StartFrames(id, j.meta, j.posted) + [WFrame.Cancel(id)]
       case Some(r) =>
         if r.Receiving? then
           && v.dn == [] && r.meta == j.meta && r.body <= j.posted
           && v.up == BodyFrames(id, j.posted[|r.body|..]) + [WFrame.End(id)] + [WFrame.Cancel(id)]
         else
           && SoundJob(r) && !r.settling && r.body == j.posted
           && (v.up == [WFrame.Cancel(id)] || (v.up == [Ack(id), WFrame.Cancel(id)] && !r.acked))
           && Single(r, |v.up| == 2, v.dn)
  }

  /** The host has it and waits for the handler to return. */
  predicate CancelTaken(id: Id, v: View) {
    && v.up == [] && Drains(id, v.dn) && v.hj.Some? && SoundJob(v.hj.value) && v.hj.value.settling
    && Single(v.hj.value, false, v.dn)
  }

  /** The handler is gone and the host's `ready` is on its way. */
  predicate CancelDone(id: Id, v: View) {
    && v.up == [] && v.hj.None? && v.dn != [] && Drains(id, v.dn[..|v.dn| - 1]) && v.dn[|v.dn| - 1] == HFrame.Ready(id)
    && Chunks(v.dn) <= 1
  }

  predicate Cancelling(id: Id, j: W.Job, v: View) {
    && !j.closed && |j.awaiting| <= 1
    && j.accepted + Offered(j.awaiting) <= v.wrote
    && (CancelSent(id, j, v) || CancelTaken(id, v) || CancelDone(id, v))
  }

  /** Neither end knows the job and nothing of it is in flight. */
  predicate Idle(v: View) {
    v.wj.None? && v.hj.None? && v.up == [] && v.dn == []
  }

  /** Answered in full at the Worker; only its `ready` is left for the host. */
  predicate Released(id: Id, v: View) {
    && v.wj.None? && v.up == [WFrame.Ready(id)] && v.dn == []
    && v.hj.Some? && SoundJob(v.hj.value) && !v.hj.value.settling && v.hj.value.w.said == S.SaidEnd
  }

  /** Facts of an active job that no phase changes. */
  predicate Registered(id: Id, j: W.Job) {
    && j.id == id && GoodId(id) && GoodMeta(j.meta) && j.body == [] && |j.posted| <= MAX_BODY
    && j.timer == (if j.cancelled then W.CancelAck else W.Deadline)
    && (j.cancelled ==> j.answer != W.Unanswered)
    && (j.writer ==> j.answer != W.Unanswered)
    && (!j.cancelled && j.answer != W.Unanswered ==> j.answer.Streamed?)
  }

  ghost predicate Local(id: Id, v: View) {
    match v.wj
    case None => Idle(v) || Released(id, v)
    case Some(j) =>
      && Registered(id, j)
      && if j.cancelled then Cancelling(id, j, v)
         else Uploading(id, j, v) || exists fl :: Answering(id, j, v, fl)
  }

  // ---- the Worker's steps ----

  /** `next` starts a job. */
  lemma StartLocal(j: W.Job, v: View)
    requires Idle(v) && v.wrote == []
    requires GoodId(j.id) && GoodMeta(j.meta) && |j.body| <= MAX_BODY && j == W.NewJob(j.id, j.meta, j.body)
    ensures Local(j.id, v.(wj := Some(j.(body := [])), up := v.up + StartFrames(j.id, j.meta, j.body)))
  {
    assert v.up + StartFrames(j.id, j.meta, j.body) == StartFrames(j.id, j.meta, j.body);
  }

  lemma WireDrains(id: Id, fl: Flight)
    requires fl.data.Some? ==> |fl.data.value| <= CHUNK
    ensures Drains(id, Wire(id, fl))
  {
  }

  /** What the client has and is being offered is a prefix of what was written. */
  lemma AcceptedPrefix(j: W.Job, w: S.Writer, wrote: Bytes, fl: Flight)
    requires Balanced(j, w, wrote, fl)
    ensures Carried(j, fl) <= wrote && j.accepted + Offered(j.awaiting) <= wrote && j.accepted <= wrote
  {
    assert Carried(j, fl) + w.buf + w.rest == Carried(j, fl) + (w.buf + w.rest);
    assert j.accepted + Offered(j.awaiting) <= Carried(j, fl);
  }

  lemma FailAnswering(id: Id, j: W.Job, v: View, fl: Flight, j': W.Job)
    requires Answering(id, j, v, fl)
    requires j'.posted == j.posted && j'.accepted == j.accepted && j'.closed == j.closed
    requires j'.awaiting == j.awaiting || (j.awaiting != [] && j'.awaiting == j.awaiting[1..])
    ensures Cancelling(id, j', v.(wj := Some(j'), up := v.up + [WFrame.Cancel(id)]))
  {
    var v' := v.(wj := Some(j'), up := v.up + [WFrame.Cancel(id)]);
    AcceptedPrefix(j, v.hj.value.w, v.wrote, fl);
    FailSent(id, j, v.hj.value, v.up, v.dn, fl);
    assert v'.up == if v.up == [] then [WFrame.Cancel(id)] else [Ack(id), WFrame.Cancel(id)];
    assert CancelSent(id, j', v');
  }

  lemma FailSent(id: Id, j: W.Job, r: S.Job, up: seq<WFrame>, dn: seq<HFrame>, fl: Flight)
    requires r.Running? && Placed(id, j, r, up, dn, fl)
    ensures Drains(id, dn) && Single(r, up != [], dn) && (up == [] || (up == [Ack(id)] && !r.acked))
  {
    WireChunks(id, fl);
    WireDrains(id, fl);
  }

  /** `fail` on an active job, also when an await of it has just been rejected. */
  lemma FailLocal(id: Id, v: View, awaiting: seq<W.Await>, status: int)
    requires v.wj.Some? && !v.wj.value.cancelled && Local(id, v)
    requires awaiting == v.wj.value.awaiting || (v.wj.value.awaiting != [] && awaiting == v.wj.value.awaiting[1..])
    ensures var j := W.Abandon(v.wj.value.(awaiting := awaiting), status, W.CancelAck);
            Local(id, v.(wj := Some(j), up := v.up + [WFrame.Cancel(id)]))
  {
    var j := v.wj.value;
    var j' := W.Abandon(j.(awaiting := awaiting), status, W.CancelAck);
    var v' := v.(wj := Some(j'), up := v.up + [WFrame.Cancel(id)]);
    if Uploading(id, j, v) {
      assert CancelSent(id, j', v');
    } else {
      var fl :| Answering(id, j, v, fl);
      FailAnswering(id, j, v, fl, j');
    }
  }

  /** A cancelled job's late frames are drained. */
  lemma DrainLocal(id: Id, v: View)
    requires v.wj.Some? && v.wj.value.cancelled && Local(id, v) && v.dn != [] && !v.dn[0].Ready?
    ensures Local(id, v.(dn := v.dn[1..]))
  {
    var v' := v.(dn := v.dn[1..]);
    var j := v.wj.value;
    assert Chunks(v'.dn) <= Chunks(v.dn);
    if CancelDone(id, v) {
      assert |v.dn| > 1;
      assert v'.dn[..|v'.dn| - 1] == v.dn[1..|v.dn| - 1];
      assert CancelDone(id, v');
    } else {
      assert Drains(id, v'.dn);
      assert CancelSent(id, j, v) ==> CancelSent(id, j, v');
      assert CancelTaken(id, v) ==> CancelTaken(id, v');
    }
  }

  lemma DrainsFirst(id: Id, dn: seq<HFrame>)
    ensures |dn| > 1 && Drains(id, dn[..|dn| - 1]) ==> !dn[0].Ready?
  {
    assert |dn| > 1 ==> dn[..|dn| - 1][0] == dn[0];
  }

  /** `ready` for a cancelled job finds nothing else of it anywhere. */
  lemma ConfirmLocal(id: Id, v: View)
    requires v.wj.Some? && v.wj.value.cancelled && Local(id, v) && v.dn != [] && v.dn[0].Ready?
    ensures Idle(v.(wj := None, dn := v.dn[1..])) && v.wj.value.accepted <= v.wrote
  {
    assert v.dn[0] in v.dn;
    DrainsFirst(id, v.dn);
  }

  /** Frames leave a flight in order. */
  lemma WireOrder(id: Id, fl: Flight)
    ensures fl.head.Some? ==> Wire(id, fl) == [Response(id, fl.head.value)] + Wire(id, fl.(head := None))
    ensures fl.head.None? && fl.data.Some? ==> Wire(id, fl) == [Data(id, fl.data.value)] + Wire(id, fl.(data := None))
    ensures fl.head.None? && fl.data.None? ==> Wire(id, fl) == TailFrames(id, fl.tail)
    ensures fl.tail == S.Nothing ==> Wire(id, fl) == HeadFrames(id, fl.head) + DataFrames(id, fl.data)
  {
    assert HeadFrames(id, None) + DataFrames(id, fl.data) == DataFrames(id, fl.data);
    assert [] + TailFrames(id, fl.tail) == TailFrames(id, fl.tail);
    if fl.head.Some? {
      assert Wire(id, fl.(head := None)) == DataFrames(id, fl.data) + TailFrames(id, fl.tail);
      assert Wire(id, fl) == [Response(id, fl.head.value)] + (DataFrames(id, fl.data) + TailFrames(id, fl.tail));
    }
  }

  lemma ResponseLocal(id: Id, v: View)
    requires v.wj.Some? && !v.wj.value.cancelled && Local(id, v) && v.dn != [] && v.dn[0].Response?
    ensures !v.wj.value.writer && 200 <= v.dn[0].status <= 599
    ensures var j := W.Resolve(v.wj.value, W.Streamed(v.dn[0].status)).(writer := true);
            Local(id, v.(wj := Some(j), dn := v.dn[1..]))
  {
    var j := v.wj.value;
    var fl :| Answering(id, j, v, fl);
    var j' := W.Resolve(j, W.Streamed(v.dn[0].status)).(writer := true);
    WireOrder(id, fl);
    assert fl.head.Some?;
    assert v.dn[1..] == Wire(id, fl.(head := None));
    assert Carried(j', fl.(head := None)) == Carried(j, fl);
    assert Answering(id, j', v.(wj := Some(j'), dn := v.dn[1..]), fl.(head := None));
  }

  lemma DataAnswering(id: Id, j: W.Job, v: View, fl: Flight)
    requires Answering(id, j, v, fl) && fl.head.None? && fl.data.Some?
    ensures j.writer && j.awaiting == []
    ensures var j' := j.(awaiting := [W.Write(fl.data.value)]);
            var fl' := fl.(data := None);
            Answering(id, j', v.(wj := Some(j'), dn := Wire(id, fl')), fl')
  {
    var j' := j.(awaiting := [W.Write(fl.data.value)]);
    var fl' := fl.(data := None);
    assert Unacked(j', v.hj.value, v.up, fl') == Unacked(j, v.hj.value, v.up, fl);
    assert Placed(id, j', v.hj.value, v.up, Wire(id, fl'), fl');
    assert Carried(j', fl') == Carried(j, fl);
  }

  lemma DataLocal(id: Id, v: View)
    requires v.wj.Some? && !v.wj.value.cancelled && Local(id, v) && v.dn != [] && v.dn[0].Data?
    ensures v.wj.value.writer && |v.dn[0].data| <= CHUNK
    ensures var j := v.wj.value.(awaiting := v.wj.value.awaiting + [W.Write(v.dn[0].data)]);
            Local(id, v.(wj := Some(j), dn := v.dn[1..]))
  {
    var j := v.wj.value;
    var fl :| Answering(id, j, v, fl);
    WireOrder(id, fl);
    assert fl.head.None? && fl.data.Some?;
    DataAnswering(id, j, v, fl);
    assert v.dn[0] == Data(id, fl.data.value) && v.dn[1..] == Wire(id, fl.(data := None));
    assert [] + [W.Write(fl.data.value)] == [W.Write(fl.data.value)];
  }

  lemma EndAnswering(id: Id, j: W.Job, v: View, fl: Flight)
    requires Answering(id, j, v, fl) && fl.head.None? && fl.data.None? && fl.tail == S.SaidEnd
    ensures j.writer && j.awaiting == []
    ensures var j' := j.(awaiting := [W.Close]);
            Answering(id, j', v.(wj := Some(j'), dn := []), fl.(tail := S.Nothing))
  {
    var j', fl' := j.(awaiting := [W.Close]), fl.(tail := S.Nothing);
    assert Wire(id, fl') == [];
    assert Unacked(j', v.hj.value, v.up, fl') == Unacked(j, v.hj.value, v.up, fl);
    assert Placed(id, j', v.hj.value, v.up, [], fl');
    assert Carried(j', fl') == Carried(j, fl);
  }

  lemma EndLocal(id: Id, v: View)
    requires v.wj.Some? && !v.wj.value.cancelled && Local(id, v) && v.dn != [] && v.dn[0].End?
    ensures v.wj.value.writer
    ensures var j := v.wj.value.(awaiting := v.wj.value.awaiting + [W.Close]);
            Local(id, v.(wj := Some(j), dn := v.dn[1..]))
  {
    var j := v.wj.value;
    var fl :| Answering(id, j, v, fl);
    WireOrder(id, fl);
    assert fl.head.None? && fl.data.None? && fl.tail == S.SaidEnd;
    EndAnswering(id, j, v, fl);
    assert v.dn == [HFrame.End(id)] && v.dn[1..] == [];
    assert [] + [W.Close] == [W.Close];
  }

  /** A host that has not cancelled anything never says `ready`. */
  lemma NoReadyLocal(id: Id, v: View)
    requires v.wj.Some? && !v.wj.value.cancelled && Local(id, v) && v.dn != []
    ensures !v.dn[0].Ready?
  {
    var j := v.wj.value;
    var fl :| Answering(id, j, v, fl);
    assert v.dn[0] in Wire(id, fl);
  }

  /** `await job.writer.write` resolves. */
  lemma WriteLocal(id: Id, v: View)
    requires v.wj.Some? && Local(id, v) && v.wj.value.awaiting != [] && v.wj.value.awaiting[0].Write?
    ensures var j := v.wj.value;
            var j' := j.(awaiting := j.awaiting[1..], accepted := j.accepted + j.awaiting[0].data);
            Local(id, v.(wj := Some(j'), up := v.up + if j.cancelled then [] else [Ack(id)]))
  {
    var j := v.wj.value;
    var j' := j.(awaiting := j.awaiting[1..], accepted := j.accepted + j.awaiting[0].data);
    if j.cancelled {
      assert v.up + [] == v.up;
      var v' := v.(wj := Some(j'));
      assert CancelSent(id, j, v) ==> CancelSent(id, j', v');
      assert Cancelling(id, j', v');
    } else {
      var fl :| Answering(id, j, v, fl);
      assert v.up == [];
      assert v.up + [Ack(id)] == [Ack(id)];
      assert Carried(j', fl) == Carried(j, fl);
      assert Answering(id, j', v.(wj := Some(j'), up := [Ack(id)]), fl);
    }
  }

  /** `await job.writer.close` resolves on a live job: the client has every byte of the response. */
  lemma CloseLocal(id: Id, v: View)
    requires v.wj.Some? && !v.wj.value.cancelled && Local(id, v)
    requires v.wj.value.awaiting != [] && v.wj.value.awaiting[0].Close?
    ensures v.wj.value.accepted == v.wrote && v.wj.value.answer.Streamed?
    ensures Released(id, v.(wj := None, up := v.up + [WFrame.Ready(id)]))
  {
    var j := v.wj.value;
    var fl :| Answering(id, j, v, fl);
    assert j.awaiting == [W.Close];
    assert v.up == [];
    assert v.up + [WFrame.Ready(id)] == [WFrame.Ready(id)];
    assert v.dn == [];
    assert Carried(j, fl) == j.accepted;
    var r := v.hj.value;
    assert r.w.buf == [] && r.w.rest == [] && !r.w.err;
    calc {
      v.wrote;
      Carried(j, fl) + r.w.buf + r.w.rest;
      j.accepted;
    }
  }

  /** An await of a cancelled job settles, either way, without effect. */
  lemma StaleLocal(id: Id, v: View)
    requires v.wj.Some? && v.wj.value.cancelled && Local(id, v) && v.wj.value.awaiting != []
    ensures var j := v.wj.value.(awaiting := v.wj.value.awaiting[1..]); Local(id, v.(wj := Some(j)))
  {
    var j := v.wj.value;
    var j' := j.(awaiting := j.awaiting[1..]);
    var v' := v.(wj := Some(j'));
    assert CancelSent(id, j, v) ==> CancelSent(id, j', v');
    assert Cancelling(id, j', v');
  }
}
