/**
 The host's dispatcher and response writer in the form they have: objects whose methods update
 their fields, proved against the functions of BridgeSession.
 */
module BridgeClient {
  import opened Prelude
  import opened BridgeFrames
  import S = BridgeSession

  /** How one turn of the dispatcher ends: it goes on, it waits for a handler, or the session is over. */
  datatype Turn = Went | Waiting | Dead

  class Session {
    const capacity: int
    var limit: int
    var negotiated: bool
    var jobs: map<Id, S.Job>
    var wire: seq<HFrame>

    function Abs(): S.Session
      reads this
    {
      S.Session(capacity, limit, negotiated, jobs)
    }

    constructor (capacity: int)
      ensures Abs() == S.Connect(capacity) && wire == [Keys(Some(capacity))]
    {
      this.capacity, limit, negotiated, jobs, wire := capacity, 1, false, map[], [Keys(Some(capacity))];
    }

    method KeysReady(echo: Option<int>) returns (turn: Turn)
      modifies this`limit, this`negotiated
      ensures turn.Dead? <==> S.OnKeysReady(old(Abs()), echo).Fault?
      ensures turn.Went? ==> S.OnKeysReady(old(Abs()), echo) == S.Go(Abs(), [])
      ensures turn.Dead? ==> Abs() == old(Abs())
      ensures !turn.Waiting?
    {
      var slots := if echo.Some? then echo.value else 0;
      var accepted := Max(1, slots);
      if slots < 0 || accepted > Min(MAX_SLOTS, capacity) || (negotiated && accepted != limit) {
        return Dead;
      }
      limit, negotiated := accepted, true;
      return Went;
    }

    method Request(f: WFrame) returns (turn: Turn)
      requires f.Request?
      modifies this`jobs
      ensures turn.Dead? <==> S.Dispatch(old(Abs()), f).Fault?
      ensures turn.Went? ==> S.Dispatch(old(Abs()), f) == S.Go(Abs(), [])
      ensures turn.Dead? ==> Abs() == old(Abs())
      ensures !turn.Waiting?
    {
      if !negotiated || |jobs| >= limit || f.id in jobs || |f.id| == 0 || |f.id| > 64 || !AdmissibleMeta(f.meta) {
        return Dead;
      }
      jobs := jobs[f.id := S.Receiving(f.meta, [])];
      return Went;
    }

    /** A frame for a job that must be known. */
    method JobFrame(f: WFrame) returns (turn: Turn)
      requires !f.KeysReady? && !f.Pong? && !f.Request?
      modifies this`jobs, this`wire
      ensures turn.Dead? <==> S.Dispatch(old(Abs()), f).Fault?
      ensures turn.Waiting? <==> S.Dispatch(old(Abs()), f).Blocked?
      ensures turn.Went? ==> Abs() == S.Dispatch(old(Abs()), f).h && wire == old(wire) + S.Dispatch(old(Abs()), f).sent
      ensures !turn.Went? ==> Abs() == old(Abs()) && wire == old(wire)
    {
      assert wire + [] == wire;
      if f.id !in jobs {
        return Dead;
      }
      var j := jobs[f.id];
      match f {
        case Ack(id) =>
          if j.Receiving? || j.acked {
            return Dead;
          }
          jobs := jobs[id := j.(acked := true)];
        case Body(id, data) =>
          if j.Running? || |data| > CHUNK || |j.body| + |data| > MAX_BODY {
            return Dead;
          }
          jobs := jobs[id := S.Receiving(j.meta, j.body + data)];
        case End(id) =>
          if j.Running? || !EscapesParse(j.meta.path) {
            return Dead;
          }
          jobs := jobs[id := S.Running(j.meta, j.body, S.FreshWriter, false, false, false, false)];
        case Cancel(id) =>
          if j.Receiving? {
            jobs := jobs - {id};
            wire := wire + [HFrame.Ready(id)];
          } else if !j.settling {
            jobs := jobs[id := j.(settling := true, stopped := true)];
          }
        case Ready(id) =>
          if j.Receiving? || j.settling {
            return Dead;
          }
          if !j.done {
            return Waiting;
          }
          jobs := jobs - {id};
      }
      return Went;
    }

    method Dispatch(f: WFrame) returns (turn: Turn)
      modifies this
      ensures turn.Dead? <==> S.Dispatch(old(Abs()), f).Fault?
      ensures turn.Waiting? <==> S.Dispatch(old(Abs()), f).Blocked?
      ensures turn.Went? ==> Abs() == S.Dispatch(old(Abs()), f).h && wire == old(wire) + S.Dispatch(old(Abs()), f).sent
      ensures !turn.Went? ==> Abs() == old(Abs()) && wire == old(wire)
    {
      assert wire + [] == wire;
      if f.KeysReady? {
        turn := KeysReady(f.slots);
      } else if f.Pong? {
        turn := Went;
      } else if f.Request? {
        turn := Request(f);
      } else {
        turn := JobFrame(f);
      }
    }

    /** The dispatcher takes the id of a cancelled handler that has been joined. */
    method Settle(id: Id)
      requires S.CanSettle(Abs(), id)
      modifies this`jobs, this`wire
      ensures S.Settle(old(Abs()), id) == S.Go(Abs(), [HFrame.Ready(id)]) && wire == old(wire) + [HFrame.Ready(id)]
    {
      jobs := jobs - {id};
      wire := wire + [HFrame.Ready(id)];
    }
  }

  /** How the wait in `flush` ends. */
  datatype Wait = Acked | Gone | TimedOut

  /** Every byte of the data frames of a wire. */
  function Shipped(wire: seq<HFrame>): Bytes {
    if wire == [] then []
    else Shipped(wire[..|wire| - 1]) + if wire[|wire| - 1].Data? then wire[|wire| - 1].data else []
  }

  lemma ShippedMore(wire: seq<HFrame>, f: HFrame)
    ensures Shipped(wire + [f]) == Shipped(wire) + if f.Data? then f.data else []
  {
    assert (wire + [f])[..|wire|] == wire;
  }

  /** Every data frame is one full chunk. */
  predicate FullChunks(wire: seq<HFrame>) {
    forall f :: f in wire && f.Data? ==> |f.data| == CHUNK
  }

  /** Only full chunks, and perhaps the head, have been sent since. */
  predicate Added(before: seq<HFrame>, wire: seq<HFrame>) {
    before <= wire && FullChunks(wire[|before|..])
  }

  lemma AddedOne(wire: seq<HFrame>, f: HFrame)
    ensures Added(wire, wire)
    ensures (f.Data? ==> |f.data| == CHUNK) ==> Added(wire, wire + [f])
  {
    assert wire[|wire|..] == [] && (wire + [f])[|wire|..] == [f];
  }

  lemma AddedMore(a: seq<HFrame>, b: seq<HFrame>, c: seq<HFrame>)
    requires Added(a, b) && Added(b, c)
    ensures Added(a, c)
  {
    assert c[|a|..] == b[|a|..] + c[|b|..];
  }

  /** Of all there is to write, what was shipped comes first; and without an error nothing is missing. */
  predicate Conserved(shipped: Bytes, buf: Bytes, rest: Bytes, all: Bytes, err: bool) {
    shipped <= all && (!err ==> shipped + buf + rest == all)
  }

  /** The response writer of one handler; `waits` supplies how each wait for an ack turns out. */
  class ResponseWriter {
    const id: Id
    var sent: bool
    var head: bool
    var buf: Bytes
    var err: bool
    var closing: bool
    var said: S.Said
    var wire: seq<HFrame>

    function Abs(rest: Bytes): S.Writer
      reads this
    {
      S.Writer(sent, head, buf, rest, err, false, closing, said)
    }

    predicate Valid()
      reads this
    {
      |buf| < CHUNK
    }

    constructor (id: Id)
      ensures Abs([]) == S.FreshWriter && wire == [] && Valid()
    {
      this.id, sent, head, buf, err, closing, said, wire := id, false, false, [], false, false, S.Nothing, [];
    }

    method Start(status: int, oversize: bool)
      modifies this`sent, this`head, this`err, this`wire
      ensures (Abs([]), wire)
              == (S.Start(id, old(Abs([])), status, oversize).0,
                  old(wire) + S.Start(id, old(Abs([])), status, oversize).1)
      ensures Shipped(wire) == Shipped(old(wire))
    {
      assert wire + [] == wire;
      if sent {
        return;
      }
      sent := true;
      if oversize {
        err := true;
      } else {
        head := true;
        ShippedMore(wire, Response(id, status));
        wire := wire + [Response(id, status)];
      }
    }

    /** `flush`: one frame with everything buffered, then the wait. */
    method Flush(wait: Wait)
      modifies this`buf, this`err, this`wire
      ensures wire == old(wire) + S.Flush(id, old(Abs([]))).1
      ensures buf == S.Flush(id, old(Abs([]))).0.buf
      ensures err == (old(err) || (old(buf) != [] && wait != Acked))
      ensures Shipped(wire) == Shipped(old(wire)) + if old(err) then [] else old(buf)
    {
      assert wire + [] == wire;
      if |buf| == 0 || err {
        return;
      }
      ShippedMore(wire, Data(id, buf));
      wire := wire + [Data(id, buf)];
      buf := [];
      if wait != Acked {
        err := true;
      }
    }

    /** One turn of the loop in `Write`: `rest` into the buffer as far as it goes, and a full chunk out. */
    method Fill(rest: Bytes, wait: Wait) returns (left: Bytes)
      requires Valid() && rest != [] && !err
      modifies this`buf, this`err, this`wire
      ensures Valid() && |left| < |rest|
      ensures !err ==> Shipped(wire) + buf + left == Shipped(old(wire)) + old(buf) + rest
      ensures Shipped(wire) <= Shipped(old(wire)) + old(buf) + rest
      ensures Added(old(wire), wire)
    {
      var take := Min(|rest|, CHUNK - |buf|);
      SplitFill(Shipped(wire), buf, rest, take);
      AddedOne(wire, Data(id, buf + rest[..take]));
      buf := buf + rest[..take];
      left := rest[take..];
      if |buf| == CHUNK {
        ShipChunk(wait);
      }
    }

    /** A full buffer goes out. */
    method ShipChunk(wait: Wait)
      requires |buf| == CHUNK && !err
      modifies this`buf, this`err, this`wire
      ensures Valid() && wire == old(wire) + [Data(id, old(buf))]
      ensures Shipped(wire) + buf == Shipped(wire) == Shipped(old(wire)) + old(buf)
    {
      Flush(wait);
      assert buf == [] && Shipped(wire) + [] == Shipped(wire);
    }

    /**
     `Write`: on success every byte of `b` is shipped or buffered behind everything before it and
     only full chunks went out; on an error what was shipped is still a prefix.
     */
    method Write(b: Bytes, oversize: bool, waits: nat -> Wait) returns (n: nat)
      requires Valid()
      modifies this
      ensures Valid()
      ensures !err ==> n == |b| && Shipped(wire) + buf == Shipped(old(wire)) + old(buf) + b
      ensures err ==> n == 0
      ensures Shipped(wire) <= Shipped(old(wire)) + old(buf) + b
      ensures old(err) ==> Shipped(wire) == Shipped(old(wire))
      ensures Added(old(wire), wire)
    {
      ghost var all, before := Shipped(wire) + buf + b, wire;
      Start(200, oversize);
      var rest, k := b, 0;
      Assoc(Shipped(wire), buf, b);
      while |rest| > 0 && !err
        invariant Valid() && Added(before, wire)
        invariant Conserved(Shipped(wire), buf, rest, all, err)
        invariant old(err) ==> err && Shipped(wire) == Shipped(before)
        decreases |rest|
      {
        ghost var wired := wire;
        rest := Fill(rest, waits(k));
        AddedMore(before, wired, wire);
        k := k + 1;
      }
      assert rest == [] ==> Shipped(wire) + buf + rest == Shipped(wire) + buf;
      n := if err then 0 else |b|;
    }

    /** `finish`: the rest of the buffer, then `end`, or a `cancel` when anything went wrong. */
    method Finish(oversize: bool, wait: Wait)
      requires Valid() && said == S.Nothing
      modifies this
      ensures Valid() && closing
      ensures said == (if err then S.SaidCancel else S.SaidEnd)
      ensures !err ==> buf == [] && Shipped(wire) == Shipped(old(wire)) + old(buf)
      ensures Shipped(wire) <= Shipped(old(wire)) + old(buf)
      ensures wire != [] && wire[|wire| - 1] == (if err then HFrame.Cancel(id) else HFrame.End(id))
    {
      closing := true;
      Start(200, oversize);
      FlushRest(wait);
      Leave();
    }

    /** The last `flush`: all of the buffer, unless something went wrong before or in it. */
    method FlushRest(wait: Wait)
      requires Valid()
      modifies this`buf, this`err, this`wire
      ensures Valid()
      ensures !err ==> buf == [] && Shipped(wire) == Shipped(old(wire)) + old(buf)
      ensures Shipped(wire) <= Shipped(old(wire)) + old(buf)
    {
      ghost var shipped := Shipped(wire);
      Flush(wait);
      assert Shipped(wire) == shipped + (if old(err) then [] else old(buf));
      assert shipped <= shipped + old(buf);
    }

    /** The last frame says how it went. */
    method Leave()
      modifies this`wire, this`said
      ensures said == (if err then S.SaidCancel else S.SaidEnd) && Shipped(wire) == Shipped(old(wire))
      ensures wire == old(wire) + [if err then HFrame.Cancel(id) else HFrame.End(id)]
    {
      var last := if err then HFrame.Cancel(id) else HFrame.End(id);
      ShippedMore(wire, last);
      assert Shipped(wire) + [] == Shipped(wire);
      wire, said := wire + [last], if err then S.SaidCancel else S.SaidEnd;
    }
  }

  lemma SplitFill(shipped: Bytes, buf: Bytes, rest: Bytes, take: nat)
    requires take <= |rest|
    ensures shipped + (buf + rest[..take]) + rest[take..] == shipped + buf + rest
    ensures shipped + (buf + rest[..take]) <= shipped + buf + rest && shipped <= shipped + buf + rest
  {
    assert rest == rest[..take] + rest[take..];
    Assoc(shipped, buf, rest);
    Assoc(shipped, buf + rest[..take], rest[take..]);
    Assoc(buf, rest[..take], rest[take..]);
  }
}
