/**
 The wire between the Worker's host object and the host's session: the frames of both
 directions, the bounds both ends enforce, and the part of a channel that concerns one job.
 */
module BridgeFrames {
  import opened Prelude

  type Id = string

  const CHUNK: int := 512 * 1024
  const MAX_BODY: int := 4 * 1024 * 1024
  const MAX_SLOTS: int := 64
  const MAX_WAITING: int := 4
  const MAX_SAFE_INTEGER: int := 0x1f_ffff_ffff_ffff

  /** What a `request` frame says besides its id. */
  datatype Meta = Meta(verb: string, path: string)

  /** The Worker to the host. */
  datatype WFrame =
    | Request(id: Id, meta: Meta)
    | Body(id: Id, data: Bytes)
    | End(id: Id)
    | Ack(id: Id)
    | Cancel(id: Id)
    | Ready(id: Id)
    | KeysReady(slots: Option<int>)
    | Pong

  /** The host to the Worker. */
  datatype HFrame =
    | Keys(slots: Option<int>)
    | Response(id: Id, status: int)
    | Data(id: Id, data: Bytes)
    | End(id: Id)
    | Cancel(id: Id)
    | Ready(id: Id)
    | Ping

  predicate WFor(f: WFrame, id: Id) {
    !f.KeysReady? && !f.Pong? && f.id == id
  }

  predicate HFor(f: HFrame, id: Id) {
    !f.Keys? && !f.Ping? && f.id == id
  }

  /** The frames of one job, in order. */
  function Up(ch: seq<WFrame>, id: Id): seq<WFrame> {
    if ch == [] then []
    else (if WFor(ch[0], id) then [ch[0]] else []) + Up(ch[1..], id)
  }

  function Down(ch: seq<HFrame>, id: Id): seq<HFrame> {
    if ch == [] then []
    else (if HFor(ch[0], id) then [ch[0]] else []) + Down(ch[1..], id)
  }

  lemma {:induction false} UpAppend(a: seq<WFrame>, b: seq<WFrame>, id: Id)
    ensures Up(a + b, id) == Up(a, id) + Up(b, id)
  {
    if a == [] {
      assert a + b == b;
    } else {
      assert a == [a[0]] + a[1..];
      HeadTail(a[0], a[1..], b);
      UpAppend(a[1..], b, id);
      var first := if WFor(a[0], id) then [a[0]] else [];
      Assoc(first, Up(a[1..], id), Up(b, id));
    }
  }

  lemma {:induction false} DownAppend(a: seq<HFrame>, b: seq<HFrame>, id: Id)
    ensures Down(a + b, id) == Down(a, id) + Down(b, id)
  {
    if a == [] {
      assert a + b == b;
    } else {
      assert a == [a[0]] + a[1..];
      HeadTail(a[0], a[1..], b);
      DownAppend(a[1..], b, id);
      var first := if HFor(a[0], id) then [a[0]] else [];
      Assoc(first, Down(a[1..], id), Down(b, id));
    }
  }

  /** Frames that all belong to one job are that job's part, and nobody else's. */
  lemma {:induction false} UpOwn(fs: seq<WFrame>, id: Id, x: Id)
    requires forall f :: f in fs ==> WFor(f, id)
    ensures Up(fs, x) == if x == id then fs else []
  {
    if fs != [] {
      assert fs[0] in fs;
      UpOwn(fs[1..], id, x);
      assert fs == [fs[0]] + fs[1..];
    }
  }

  lemma {:induction false} DownOwn(fs: seq<HFrame>, id: Id, x: Id)
    requires forall f :: f in fs ==> HFor(f, id)
    ensures Down(fs, x) == if x == id then fs else []
  {
    if fs != [] {
      assert fs[0] in fs;
      DownOwn(fs[1..], id, x);
      assert fs == [fs[0]] + fs[1..];
    }
  }

  /** A channel holds a frame of a job exactly when the job's part does. */
  lemma {:induction false} UpMember(ch: seq<WFrame>, id: Id, f: WFrame)
    requires WFor(f, id)
    ensures f in Up(ch, id) <==> f in ch
  {
    if ch != [] {
      UpMember(ch[1..], id, f);
      assert ch == [ch[0]] + ch[1..];
    }
  }

  lemma {:induction false} DownMember(ch: seq<HFrame>, id: Id, f: HFrame)
    requires HFor(f, id)
    ensures f in Down(ch, id) <==> f in ch
  {
    if ch != [] {
      DownMember(ch[1..], id, f);
      assert ch == [ch[0]] + ch[1..];
    }
  }

  /** The body frames of one upload: consecutive slices of at most CHUNK bytes. */
  function BodyFrames(id: Id, bytes: Bytes): (fs: seq<WFrame>)
    ensures forall f :: f in fs ==> f.Body? && f.id == id && |f.data| <= CHUNK
    decreases |bytes|
  {
    if bytes == [] then []
    else
      var n := Min(CHUNK, |bytes|);
      [Body(id, bytes[..n])] + BodyFrames(id, bytes[n..])
  }

  /** Everything `start` sends for a job. */
  function StartFrames(id: Id, meta: Meta, bytes: Bytes): (fs: seq<WFrame>)
    ensures forall f :: f in fs ==> WFor(f, id)
  {
    [Request(id, meta)] + BodyFrames(id, bytes) + [WFrame.End(id)]
  }

  /** What the Worker lets through: `fetch` admits only these methods and paths. */
  predicate AdmissibleMeta(m: Meta) {
    && (m.verb == "GET" || m.verb == "POST")
    && "/v1/" <= m.path
    && |m.path| <= 2048
    && forall c :: c in m.path ==> c != '\r' && c != '\n' && c != '#'
  }

  predicate Hex(c: char) {
    '0' <= c <= '9' || 'a' <= c <= 'f' || 'A' <= c <= 'F'
  }

  /** `net/url` refuses a path with a bad percent escape; the query is kept raw. */
  predicate EscapesParse(path: string) {
    if path == "" || path[0] == '?' then true
    else if path[0] != '%' then EscapesParse(path[1..])
    else |path| >= 3 && Hex(path[1]) && Hex(path[2]) && EscapesParse(path[3..])
  }

  /** A request the host can turn into an http.Request. */
  predicate GoodMeta(m: Meta) {
    AdmissibleMeta(m) && EscapesParse(m.path)
  }

  predicate GoodId(id: Id) {
    1 <= |id| <= 64
  }
}
