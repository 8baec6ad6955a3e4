/** The host's steps on one job, as BridgeLocal does it for the Worker's. */
module BridgeLocalHost {
  import opened Prelude
  import opened BridgeFrames
  import opened BridgeLocal
  import W = BridgeWorker
  import S = BridgeSession

  // ---- the dispatcher ----

  lemma RequestLocal(id: Id, v: View)
    requires Local(id, v) && v.up != [] && v.up[0].Request?
    ensures v.hj.None? && GoodId(id) && AdmissibleMeta(v.up[0].meta)
    ensures Local(id, v.(hj := Some(S.Receiving(v.up[0].meta, [])), up := v.up[1..]))
  {
    var j := v.wj.value;
    var v' := v.(hj := Some(S.Receiving(v.up[0].meta, [])), up := v.up[1..]);
    assert j.posted[0..] == j.posted;
    if j.cancelled {
      assert v'.up == BodyFrames(id, j.posted) + [WFrame.End(id)] + [WFrame.Cancel(id)];
      assert CancelSent(id, j, v');
    } else {
      assert v'.up == BodyFrames(id, j.posted) + [WFrame.End(id)];
      assert Uploading(id, j, v');
    }
  }

  /** The next frame of an upload that is `rest` long, and what is left of it. */
  lemma BodyFramesHead(id: Id, rest: Bytes, tail: seq<WFrame>)
    requires tail != [] && !tail[0].Body?
    ensures var up := BodyFrames(id, rest) + tail;
            if rest == [] then up == tail
            else var n := Min(CHUNK, |rest|);
                 up[0] == WFrame.Body(id, rest[..n]) && up[1..] == BodyFrames(id, rest[n..]) + tail
  {
    if rest == [] {
      assert BodyFrames(id, rest) + tail == tail;
    } else {
      var n := Min(CHUNK, |rest|);
      var first, others := WFrame.Body(id, rest[..n]), BodyFrames(id, rest[n..]);
      assert BodyFrames(id, rest) == [first] + others;
      HeadTail(first, others, tail);
    }
  }

  /** A body frame carries on where what was received ends. */
  lemma BodyGoesOn(id: Id, posted: Bytes, got: Bytes, up: seq<WFrame>, tail: seq<WFrame>)
    requires got <= posted && |posted| <= MAX_BODY && tail != [] && !tail[0].Body?
    requires up == BodyFrames(id, posted[|got|..]) + tail && up[0].Body?
    ensures var d := up[0].data;
            && |d| <= CHUNK && |got| + |d| <= MAX_BODY && got + d <= posted
            && up[1..] == BodyFrames(id, posted[|got + d|..]) + tail
  {
    var rest := posted[|got|..];
    BodyFramesHead(id, rest, tail);
    var n := Min(CHUNK, |rest|);
    assert posted[|got| + n..] == rest[n..];
  }

  /** The view after the host has read a body frame. */
  function BodyRead(v: View): View
    requires v.up != [] && v.up[0].Body? && v.hj.Some? && v.hj.value.Receiving?
  {
    v.(hj := Some(S.Receiving(v.hj.value.meta, v.hj.value.body + v.up[0].data)), up := v.up[1..])
  }

  lemma BodyUploading(id: Id, j: W.Job, v: View)
    requires Registered(id, j) && Uploading(id, j, v) && v.up != [] && v.up[0].Body?
    ensures v.hj.Some? && v.hj.value.Receiving?
    ensures |v.up[0].data| <= CHUNK && |v.hj.value.body| + |v.up[0].data| <= MAX_BODY
    ensures Uploading(id, j, BodyRead(v))
  {
    BodyGoesOn(id, j.posted, v.hj.value.body, v.up, [WFrame.End(id)]);
  }

  lemma BodyCancelled(id: Id, j: W.Job, v: View)
    requires Registered(id, j) && CancelSent(id, j, v) && v.up != [] && v.up[0].Body?
    ensures v.hj.Some? && v.hj.value.Receiving?
    ensures |v.up[0].data| <= CHUNK && |v.hj.value.body| + |v.up[0].data| <= MAX_BODY
    ensures CancelSent(id, j, BodyRead(v))
  {
    var rest := j.posted[|v.hj.value.body|..];
    Assoc(BodyFrames(id, rest), [WFrame.End(id)], [WFrame.Cancel(id)]);
    BodyGoesOn(id, j.posted, v.hj.value.body, v.up, [WFrame.End(id)] + [WFrame.Cancel(id)]);
    var r := BodyRead(v).hj.value;
    Assoc(BodyFrames(id, j.posted[|r.body|..]), [WFrame.End(id)], [WFrame.Cancel(id)]);
  }

  lemma BodyLocal(id: Id, v: View)
    requires Local(id, v) && v.up != [] && v.up[0].Body?
    ensures v.hj.Some? && v.hj.value.Receiving?
    ensures |v.up[0].data| <= CHUNK && |v.hj.value.body| + |v.up[0].data| <= MAX_BODY
    ensures var r := v.hj.value;
            Local(id, v.(hj := Some(S.Receiving(r.meta, r.body + v.up[0].data)), up := v.up[1..]))
  {
    if v.wj.value.cancelled {
      BodyCancelled(id, v.wj.value, v);
    } else {
      BodyUploading(id, v.wj.value, v);
    }
  }

  /** The handler starts, and its request body is exactly what the client posted. */
  lemma RequestEndLocal(id: Id, v: View)
    requires Local(id, v) && v.up != [] && v.up[0].End?
    ensures v.wj.Some? && v.hj.Some? && v.hj.value.Receiving? && EscapesParse(v.hj.value.meta.path)
    ensures v.hj.value.body == v.wj.value.posted
    ensures var r := v.hj.value;
            Local(id, v.(hj := Some(S.Running(r.meta, r.body, S.FreshWriter, false, false, false, false)),
                          up := v.up[1..]))
  {
    var j, r := v.wj.value, v.hj.value;
    var rest := j.posted[|r.body|..];
    var tail := [WFrame.End(id)] + if j.cancelled then [WFrame.Cancel(id)] else [];
    assert v.up == BodyFrames(id, rest) + tail;
    BodyFramesHead(id, rest, tail);
    assert rest == [];
    var r' := S.Running(r.meta, r.body, S.FreshWriter, false, false, false, false);
    var v' := v.(hj := Some(r'), up := v.up[1..]);
    assert v.up == tail;
    if j.cancelled {
      assert v'.up == [WFrame.Cancel(id)];
      assert CancelSent(id, j, v');
    } else {
      assert v'.up == [];
      var fl := Flight(None, None, S.Nothing);
      assert Wire(id, fl) == [];
      assert Placed(id, j, r', v'.up, v'.dn, fl);
      assert Answering(id, j, v', fl);
    }
  }

  lemma AckLocal(id: Id, v: View)
    requires Local(id, v) && v.up != [] && v.up[0].Ack?
    ensures v.hj.Some? && v.hj.value.Running? && !v.hj.value.acked
    ensures var r := v.hj.value; Local(id, v.(hj := Some(r.(acked := true)), up := v.up[1..]))
  {
    var j := v.wj.value;
    if j.cancelled {
      var v' := v.(hj := Some(v.hj.value.(acked := true)), up := v.up[1..]);
      assert v'.up == [WFrame.Cancel(id)];
      assert Single(v'.hj.value, false, v'.dn);
      assert CancelSent(id, j, v');
    } else {
      var fl :| Answering(id, j, v, fl);
      assert v.up[1..] == [];
      var r' := v.hj.value.(acked := true);
      assert Placed(id, j, r', [], v.dn, fl);
      assert Answering(id, j, v.(hj := Some(r'), up := []), fl);
    }
  }

  /** The Worker sends a whole request before its cancel, so the handler is always running. */
  lemma HostCancelLocal(id: Id, v: View)
    requires Local(id, v) && v.up != [] && v.up[0].Cancel?
    ensures v.hj.Some? && v.hj.value.Running? && !v.hj.value.settling
    ensures var r := v.hj.value;
            Local(id, v.(hj := Some(r.(settling := true, stopped := true)), up := v.up[1..]))
  {
    var j := v.wj.value;
    if v.hj.Some? && v.hj.value.Receiving? {
      var rest := j.posted[|v.hj.value.body|..];
      BodyFramesHead(id, rest, [WFrame.End(id)]);
      assert false;
    }
    var v' := v.(hj := Some(v.hj.value.(settling := true, stopped := true)), up := v.up[1..]);
    assert v'.up == [];
    assert CancelTaken(id, v');
    assert Cancelling(id, j, v');
  }

  /** A normal `ready` finds a handler that has already said its `end`: the dispatcher's wait is short. */
  lemma HostReadyLocal(id: Id, v: View)
    requires Local(id, v) && v.up != [] && v.up[0].Ready?
    ensures Released(id, v)
    ensures Idle(v.(hj := None, up := v.up[1..]))
  {
    if v.wj.Some? && v.hj.Some? && v.hj.value.Receiving? {
      var rest := v.wj.value.posted[|v.hj.value.body|..];
      BodyFramesHead(id, rest, [WFrame.End(id)]);
    }
  }

  lemma SettleLocal(id: Id, v: View)
    requires Local(id, v) && v.hj.Some? && v.hj.value.Running? && v.hj.value.settling && v.hj.value.done
    ensures v.wj.Some? && v.wj.value.cancelled && v.up == []
    ensures Local(id, v.(hj := None, dn := v.dn + [HFrame.Ready(id)]))
  {
    var v' := v.(hj := None, dn := v.dn + [HFrame.Ready(id)]);
    assert v'.dn[..|v'.dn| - 1] == v.dn;
    ChunksAppend(v.dn, [HFrame.Ready(id)]);
    assert CancelDone(id, v');
  }

  // ---- the handler ----

  lemma StartSound(id: Id, w: S.Writer, status: int, oversize: bool)
    requires Sound(w) && S.Unlocked(w) && !w.closing
    ensures var (w', fs) := S.Start(id, w, status, oversize);
            Sound(w') && w'.sent && Drains(id, fs) && Chunks(fs) == 0
            && w'.buf == w.buf && w'.rest == [] && !w'.awaiting && !w'.closing && w'.said == w.said
            && (w.err ==> w'.err)
  {
    assert forall f: HFrame :: Chunks([f]) == Bit(f.Data?);
  }

  /** `flush` is the only place a chunk leaves, one at a time. */
  lemma FlushSound(id: Id, w: S.Writer)
    requires Sound(w) && !w.awaiting && w.said == S.Nothing && (w.closing || w.sent || w.buf == [])
    ensures var (w', fs) := S.Flush(id, w);
            Sound(w') && Drains(id, fs) && Chunks(fs) == Bit(w'.awaiting) && w'.err == w.err && w'.said == w.said
            && w'.closing == w.closing && (w.err ==> fs == [])
  {
    assert forall f: HFrame :: Chunks([f]) == Bit(f.Data?);
  }

  lemma FillSound(id: Id, w: S.Writer)
    requires Sound(w) && w.rest != [] && !w.awaiting
    ensures var (w', fs) := S.FillOnce(id, w);
            Sound(w') && Drains(id, fs) && Chunks(fs) == Bit(w'.awaiting) && w'.err == w.err && w'.said == w.said
            && (w.err ==> fs == [])
  {
    if !w.err {
      var take := Min(|w.rest|, CHUNK - |w.buf|);
      var filled := w.(buf := w.buf + w.rest[..take], rest := w.rest[take..]);
      assert Sound(filled);
      FlushSound(id, filled);
    }
  }

  lemma FinishSound(id: Id, w: S.Writer, oversize: bool)
    requires Sound(w) && S.Unlocked(w) && !w.closing && w.said == S.Nothing
    ensures var (w1, fs1) := S.Start(id, w, 200, oversize);
            var (w2, fs2) := S.Flush(id, w1.(closing := true));
            Sound(w2) && Drains(id, fs1 + fs2) && Chunks(fs1 + fs2) == Bit(w2.awaiting)
            && (w.err ==> w2.err) && (w2.err ==> fs2 == []) && w2.said == S.Nothing
  {
    StartSound(id, w, 200, oversize);
    var (w1, fs1) := S.Start(id, w, 200, oversize);
    var w2 := w1.(closing := true);
    FlushClosing(id, w2);
    ChunksAppend(fs1, S.Flush(id, w2).1);
  }

  /** `finish` flushes a writer that is closing with its last bytes still buffered. */
  lemma FlushClosing(id: Id, w: S.Writer)
    requires Sound(w.(closing := false)) && w.closing && w.sent && w.rest == [] && !w.awaiting && w.said == S.Nothing
    ensures var (w', fs) := S.Flush(id, w);
            Sound(w') && Drains(id, fs) && Chunks(fs) == Bit(w'.awaiting) && w'.err == w.err && w'.said == w.said
            && (w.err ==> fs == [])
  {
    assert forall f: HFrame :: Chunks([f]) == Bit(f.Data?);
  }

  /** The moves of the handler that send at most its leave. */
  lemma QuietSound(id: Id, r: S.Job, m: S.Move)
    requires SoundJob(r) && S.CanMove(r, m) && (m.TakeAck? || m.Give? || m.TimeOut? || m.Leave? || m.Return?)
    ensures var (r', fs) := S.MoveJob(id, r, m);
            SoundJob(r') && Drains(id, fs) && Chunks(fs) == 0
  {
    assert forall f: HFrame :: Chunks([f]) == Bit(f.Data?);
  }

  /** What no move changes. */
  lemma MoveFrame(id: Id, r: S.Job, m: S.Move)
    requires r.Running? && S.CanMove(r, m) && |r.w.buf| <= CHUNK
    ensures var r' := S.MoveJob(id, r, m).0; r'.Running? && r'.body == r.body && r'.settling == r.settling
    ensures var r' := S.MoveJob(id, r, m).0; (r.stopped ==> r'.stopped) && (!m.Return? ==> r'.done == r.done)
  {
  }

  /** A writing move keeps the writer sound, and ships a chunk only when it then waits for it. */
  lemma WritingSound(id: Id, r: S.Job, m: S.Move)
    requires SoundJob(r) && S.CanMove(r, m) && (m.Head? || m.Put? || m.Fill? || m.Tick? || m.Finish?)
    ensures var (r', fs) := S.MoveJob(id, r, m);
            Sound(r'.w) && Drains(id, fs) && r'.w.said == S.Nothing
            && (r.w.err ==> r'.w.err) && Chunks(fs) <= Bit(r'.w.awaiting && !r.w.awaiting)
  {
    match m {
      case Head(status, oversize) => StartSound(id, r.w, status, oversize);
      case Put(_, oversize) => StartSound(id, r.w, 200, oversize);
      case Fill => FillSound(id, r.w);
      case Tick => FlushSound(id, r.w);
      case Finish(oversize) => FinishSound(id, r.w, oversize);
    }
  }

  /** A move keeps the writer sound; it ships a chunk only when it then waits for it. */
  lemma SoundMove(id: Id, r: S.Job, m: S.Move)
    requires SoundJob(r) && S.CanMove(r, m)
    ensures var (r', fs) := S.MoveJob(id, r, m);
            && SoundJob(r') && r'.body == r.body && r'.settling == r.settling && Drains(id, fs)
            && (r.w.err ==> r'.w.err) && Chunks(fs) <= Bit(r'.w.awaiting && !r.w.awaiting)
  {
    MoveFrame(id, r, m);
    if m.TakeAck? || m.Give? || m.TimeOut? || m.Leave? || m.Return? {
      QuietSound(id, r, m);
    } else {
      WritingSound(id, r, m);
    }
  }

  /** So a cancelled job never has a second chunk on its way. */
  lemma SingleMove(id: Id, r: S.Job, m: S.Move, acking: bool, dn: seq<HFrame>)
    requires SoundJob(r) && S.CanMove(r, m) && Single(r, acking, dn)
    ensures var (r', fs) := S.MoveJob(id, r, m); Single(r', acking, dn + fs)
  {
    SoundMove(id, r, m);
    var (r', fs) := S.MoveJob(id, r, m);
    ChunksAppend(dn, fs);
  }

  /** A handler whose job the Worker has finished with only returns. */
  lemma ReleasedMove(id: Id, v: View, m: S.Move)
    requires Released(id, v) && S.CanMove(v.hj.value, m)
    ensures var (r', fs) := S.MoveJob(id, v.hj.value, m);
            fs == [] && S.Written(v.hj.value, m) == [] && Released(id, v.(hj := Some(r')))
  {
  }

  lemma CancellingMove(id: Id, j: W.Job, v: View, m: S.Move)
    requires Cancelling(id, j, v) && v.hj.Some? && S.CanMove(v.hj.value, m) && SoundJob(v.hj.value)
    ensures var (r', fs) := S.MoveJob(id, v.hj.value, m);
            Cancelling(id, j, v.(hj := Some(r'), dn := v.dn + fs, wrote := v.wrote + S.Written(v.hj.value, m)))
  {
    var r := v.hj.value;
    SoundMove(id, r, m);
    var (r', fs) := S.MoveJob(id, r, m);
    var v' := v.(hj := Some(r'), dn := v.dn + fs, wrote := v.wrote + S.Written(r, m));
    assert Drains(id, v'.dn);
    assert v.wrote <= v'.wrote;
    SingleMove(id, r, m, |v.up| == 2, v.dn);
    if CancelTaken(id, v) {
      assert CancelTaken(id, v');
    } else {
      assert CancelSent(id, j, v');
    }
  }

  lemma WireHead(id: Id, fl: Flight, status: int)
    requires fl == Flight(None, None, S.Nothing)
    ensures Wire(id, fl) == [] && Wire(id, fl.(head := Some(status))) == [Response(id, status)]
  {
  }

  lemma WireData(id: Id, fl: Flight, data: Bytes)
    requires fl.data.None? && fl.tail == S.Nothing
    ensures Wire(id, fl) + [Data(id, data)] == Wire(id, fl.(data := Some(data)))
  {
  }

  lemma WireSaid(id: Id, fl: Flight, said: S.Said)
    requires fl.tail == S.Nothing
    ensures Wire(id, fl) + TailFrames(id, said) == Wire(id, fl.(tail := said))
  {
  }

  /** `start` before any response head: the only frame in flight afterwards is the head. */
  lemma StartAnswering(id: Id, j: W.Job, v: View, fl: Flight, status: int, oversize: bool)
    requires Answering(id, j, v, fl) && 200 <= status <= 599
    requires S.Unlocked(v.hj.value.w) && !v.hj.value.w.closing
    ensures var (w, fs) := S.Start(id, v.hj.value.w, status, oversize);
            exists fl' :: Answering(id, j, v.(hj := Some(v.hj.value.(w := w)), dn := v.dn + fs), fl')
              && fl'.data == fl.data && fl'.tail == fl.tail
  {
    var r := v.hj.value;
    var (w, fs) := S.Start(id, r.w, status, oversize);
    var v' := v.(hj := Some(r.(w := w)), dn := v.dn + fs);
    if fs == [] {
      assert v.dn + [] == v.dn;
      assert Placed(id, j, r.(w := w), v.up, v'.dn, fl);
      assert Answering(id, j, v', fl);
    } else {
      WireHead(id, fl, status);
      var fl' := fl.(head := Some(status));
      assert v'.dn == Wire(id, fl');
      assert Placed(id, j, r.(w := w), v.up, v'.dn, fl');
      assert Carried(j, fl') == Carried(j, fl);
      assert Answering(id, j, v', fl');
    }
  }

  /** `flush` launches a chunk only when none is unacknowledged. */
  lemma FlushAnswering(id: Id, j: W.Job, v: View, fl: Flight)
    requires Answering(id, j, v, fl) && !v.hj.value.w.awaiting && v.hj.value.w.said == S.Nothing
    ensures var (w, fs) := S.Flush(id, v.hj.value.w);
            exists fl' :: Answering(id, j, v.(hj := Some(v.hj.value.(w := w)), dn := v.dn + fs), fl')
  {
    var r := v.hj.value;
    var (w, fs) := S.Flush(id, r.w);
    var v' := v.(hj := Some(r.(w := w)), dn := v.dn + fs);
    if fs == [] {
      assert v.dn + [] == v.dn;
      assert Answering(id, j, v', fl);
    } else {
      assert j.awaiting == [] && fl.tail == S.Nothing;
      WireData(id, fl, r.w.buf);
      var fl' := fl.(data := Some(r.w.buf));
      assert v'.dn == Wire(id, fl');
      assert Placed(id, j, r.(w := w), v.up, v'.dn, fl');
      assert Carried(j, fl') == Carried(j, fl) + r.w.buf;
      assert Carried(j, fl') + [] + r.w.rest == v.wrote;
      assert Answering(id, j, v', fl');
    }
  }

  /** A change of the writer that leaves its frames, its bytes and its wait alone. */
  lemma SameAnswering(id: Id, j: W.Job, v: View, fl: Flight, r': S.Job)
    requires Answering(id, j, v, fl) && SoundJob(r') && !r'.settling && r'.body == j.posted
    requires var w, w' := v.hj.value.w, r'.w;
             w'.head == w.head && w'.said == w.said && w'.err == w.err && w'.awaiting == w.awaiting
             && (w.err || w'.buf + w'.rest == w.buf + w.rest) && r'.acked == v.hj.value.acked
    ensures Answering(id, j, v.(hj := Some(r')), fl)
  {
    SamePlaced(id, j, v.hj.value, r', v.up, v.dn, fl);
    SameBalanced(j, v.hj.value.w, r'.w, v.wrote, fl);
  }

  lemma SamePlaced(id: Id, j: W.Job, r: S.Job, r': S.Job, up: seq<WFrame>, dn: seq<HFrame>, fl: Flight)
    requires r.Running? && r'.Running? && Placed(id, j, r, up, dn, fl)
    requires r'.w.head == r.w.head && r'.w.said == r.w.said && r'.w.err == r.w.err && r'.w.awaiting == r.w.awaiting
    requires r'.acked == r.acked
    ensures Placed(id, j, r', up, dn, fl)
  {
  }

  lemma SameBalanced(j: W.Job, w: S.Writer, w': S.Writer, wrote: Bytes, fl: Flight)
    requires Balanced(j, w, wrote, fl) && w'.err == w.err && (w.err || w'.buf + w'.rest == w.buf + w.rest)
    ensures Balanced(j, w', wrote, fl)
  {
    Assoc(Carried(j, fl), w.buf, w.rest);
    Assoc(Carried(j, fl), w'.buf, w'.rest);
  }

  /** `flush` gives up waiting: what it sent may still arrive, and nothing more will be sent. */
  lemma GiveAnswering(id: Id, j: W.Job, v: View, fl: Flight, r': S.Job)
    requires Answering(id, j, v, fl) && SoundJob(r') && !r'.settling && r'.body == j.posted
    requires !v.hj.value.w.err && r'.w.err && r'.w.head == v.hj.value.w.head && r'.w.said == v.hj.value.w.said
    requires v.hj.value.w.head && r'.acked == v.hj.value.acked
    ensures Answering(id, j, v.(hj := Some(r')), fl)
  {
    assert Placed(id, j, r', v.up, v.dn, fl);
    var w := v.hj.value.w;
    assert Carried(j, fl) + w.buf + w.rest == Carried(j, fl) + (w.buf + w.rest);
    assert Carried(j, fl) <= v.wrote;
  }

  lemma PutAnswering(id: Id, j: W.Job, v: View, fl: Flight, m: S.Move)
    requires Answering(id, j, v, fl) && m.Put? && S.CanMove(v.hj.value, m)
    ensures var (r', fs) := S.MoveJob(id, v.hj.value, m);
            exists fl' :: Answering(id, j,
              v.(hj := Some(r'), dn := v.dn + fs, wrote := v.wrote + S.Written(v.hj.value, m)), fl')
  {
    var r := v.hj.value;
    var (w, fs) := S.Start(id, r.w, 200, m.oversize);
    StartAnswering(id, j, v, fl, 200, m.oversize);
    var v1 := v.(hj := Some(r.(w := w)), dn := v.dn + fs);
    var fl' :| Answering(id, j, v1, fl');
    var (r', _) := S.MoveJob(id, r, m);
    var v2 := v1.(hj := Some(r'), wrote := v.wrote + S.Written(r, m));
    assert Placed(id, j, r', v.up, v1.dn, fl');
    if w.err {
      assert v2.wrote == v.wrote;
    } else {
      assert w.rest == [];
      assert Carried(j, fl') + w.buf + [] == Carried(j, fl') + w.buf;
    }
    assert Answering(id, j, v2, fl');
  }

  lemma FillAnswering(id: Id, j: W.Job, v: View, fl: Flight)
    requires Answering(id, j, v, fl) && S.CanMove(v.hj.value, S.Fill)
    ensures var (r', fs) := S.MoveJob(id, v.hj.value, S.Fill);
            exists fl' :: Answering(id, j, v.(hj := Some(r'), dn := v.dn + fs), fl')
  {
    var r := v.hj.value;
    var w := r.w;
    var take := Min(|w.rest|, CHUNK - |w.buf|);
    var w1 := w.(buf := w.buf + w.rest[..take], rest := w.rest[take..]);
    assert w.rest == w.rest[..take] + w.rest[take..];
    Assoc(w.buf, w.rest[..take], w.rest[take..]);
    SameAnswering(id, j, v, fl, r.(w := w1));
    var v1 := v.(hj := Some(r.(w := w1)));
    var (r', fs) := S.MoveJob(id, r, S.Fill);
    var v' := v.(hj := Some(r'), dn := v.dn + fs);
    if |w1.buf| == CHUNK {
      FlushAnswering(id, j, v1, fl);
      assert v' == v1.(hj := Some(r.(w := S.Flush(id, w1).0)), dn := v1.dn + S.Flush(id, w1).1);
    } else {
      assert v.dn + [] == v.dn;
      assert v' == v1;
    }
  }

  lemma FinishAnswering(id: Id, j: W.Job, v: View, fl: Flight, oversize: bool)
    requires Answering(id, j, v, fl) && S.Unlocked(v.hj.value.w) && !v.hj.value.w.closing
    ensures var (w1, fs1) := S.Start(id, v.hj.value.w, 200, oversize);
            var (w2, fs2) := S.Flush(id, w1.(closing := true));
            exists fl' :: Answering(id, j, v.(hj := Some(v.hj.value.(w := w2)), dn := v.dn + fs1 + fs2), fl')
  {
    var r := v.hj.value;
    StartAnswering(id, j, v, fl, 200, oversize);
    var (w1, fs1) := S.Start(id, r.w, 200, oversize);
    var v1 := v.(hj := Some(r.(w := w1)), dn := v.dn + fs1);
    var fl1 :| Answering(id, j, v1, fl1) && fl1.data == fl.data && fl1.tail == fl.tail;
    ClosingAnswering(id, j, v1, fl1);
  }

  /** `finish` once the head is out: the last chunk is launched and nothing more is buffered. */
  lemma ClosingAnswering(id: Id, j: W.Job, v: View, fl: Flight)
    requires Answering(id, j, v, fl) && S.Unlocked(v.hj.value.w) && !v.hj.value.w.closing && v.hj.value.w.sent
    ensures var (w, fs) := S.Flush(id, v.hj.value.w.(closing := true));
            exists fl' :: Answering(id, j, v.(hj := Some(v.hj.value.(w := w)), dn := v.dn + fs), fl')
  {
    var r := v.hj.value;
    FlushAnswering(id, j, v, fl);
    var (w, fs) := S.Flush(id, r.w);
    var v1 := v.(hj := Some(r.(w := w)), dn := v.dn + fs);
    var fl1 :| Answering(id, j, v1, fl1);
    var r' := r.(w := w.(closing := true));
    SameAnswering(id, j, v1, fl1, r');
    assert S.Flush(id, r.w.(closing := true)) == (r'.w, fs);
    assert Answering(id, j, v.(hj := Some(r'), dn := v.dn + fs), fl1);
  }

  lemma LeaveAnswering(id: Id, j: W.Job, v: View, fl: Flight)
    requires Answering(id, j, v, fl) && S.CanMove(v.hj.value, S.Leave)
    ensures var (r', fs) := S.MoveJob(id, v.hj.value, S.Leave);
            exists fl' :: Answering(id, j, v.(hj := Some(r'), dn := v.dn + fs), fl')
  {
    var r := v.hj.value;
    var said := if r.w.err then S.SaidCancel else S.SaidEnd;
    WireSaid(id, fl, said);
    var (r', fs) := S.MoveJob(id, r, S.Leave);
    var fl' := fl.(tail := said);
    assert Placed(id, j, r', v.up, v.dn + fs, fl');
    assert Carried(j, fl') == Carried(j, fl);
    assert Answering(id, j, v.(hj := Some(r'), dn := v.dn + fs), fl');
  }

  /** The moves that put nothing on the wire. */
  lemma SilentAnswering(id: Id, j: W.Job, v: View, fl: Flight, m: S.Move)
    requires Answering(id, j, v, fl) && S.CanMove(v.hj.value, m)
    requires m.TakeAck? || m.Give? || m.TimeOut? || m.Return?
    ensures var (r', fs) := S.MoveJob(id, v.hj.value, m);
            fs == [] && Answering(id, j, v.(hj := Some(r')), fl)
  {
    var r' := S.MoveJob(id, v.hj.value, m).0;
    SoundMove(id, v.hj.value, m);
    if m.TakeAck? {
      assert Placed(id, j, r', v.up, v.dn, fl);
    } else if m.Return? {
      SameAnswering(id, j, v, fl, r');
    } else {
      GiveAnswering(id, j, v, fl, r');
    }
  }

  lemma MoveAnswering(id: Id, j: W.Job, v: View, fl: Flight, m: S.Move)
    requires Answering(id, j, v, fl) && S.CanMove(v.hj.value, m) && !m.Put?
    ensures var (r', fs) := S.MoveJob(id, v.hj.value, m);
            exists fl' :: Answering(id, j, v.(hj := Some(r'), dn := v.dn + fs), fl')
  {
    var (r', fs) := S.MoveJob(id, v.hj.value, m);
    match m {
      case Head(status, oversize) => StartAnswering(id, j, v, fl, status, oversize);
      case Fill => FillAnswering(id, j, v, fl);
      case Tick => FlushAnswering(id, j, v, fl);
      case Finish(oversize) =>
        FinishAnswering(id, j, v, fl, oversize);
        var (w1, fs1) := S.Start(id, v.hj.value.w, 200, oversize);
        Assoc(v.dn, fs1, S.Flush(id, w1.(closing := true)).1);
      case Leave => LeaveAnswering(id, j, v, fl);
      case TakeAck | Give | TimeOut | Return =>
        SilentAnswering(id, j, v, fl, m);
        assert v.dn + fs == v.dn;
    }
  }

  /** Any move of a handler keeps its job's view local. */
  lemma MoveLocal(id: Id, v: View, m: S.Move)
    requires Local(id, v) && v.hj.Some? && S.CanMove(v.hj.value, m)
    ensures SoundJob(v.hj.value)
    ensures var (r', fs) := S.MoveJob(id, v.hj.value, m);
            Local(id, v.(hj := Some(r'), dn := v.dn + fs, wrote := v.wrote + S.Written(v.hj.value, m)))
  {
    if v.wj.None? {
      ReleasedMove(id, v, m);
      assert v.dn + [] == v.dn && v.wrote + [] == v.wrote;
    } else if v.wj.value.cancelled {
      CancellingMove(id, v.wj.value, v, m);
    } else {
      var fl :| Answering(id, v.wj.value, v, fl);
      if m.Put? {
        PutAnswering(id, v.wj.value, v, fl, m);
      } else {
        MoveAnswering(id, v.wj.value, v, fl, m);
        assert v.wrote + [] == v.wrote;
      }
    }
  }
}
