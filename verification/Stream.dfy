/**
 The accumulator of an engine's chat stream: bytes arrive in any pieces, lines are cut off as they
 complete, and each `data:` line adds to the reply. Decoding JSON, trimming white space and whether
 the observer takes a delta are parameters, the last by the number of deltas it has taken so far.
 */
module Stream {
  import opened Prelude
  import opened Text

  const MAX_CALLS: int := 16
  const DATA := Ascii("data:")
  const DONE := Ascii("[DONE]")

  datatype CallDelta = CallDelta(index: int, id: string, name: string, args: string)

  datatype Delta = Delta(content: string, reasoning: string, calls: seq<CallDelta>)

  datatype Choice = Choice(index: int, finish: Option<string>, delta: Delta)

  datatype Chunk = Chunk(error: bool, choices: seq<Choice>)

  datatype Call = Call(id: string, name: string, args: string)

  datatype Error = Limit | Invalid | Failed | ManyReplies | BadIndex | ManyCalls | Gone

  /** What is known of the reply, and the deltas the observer has been given. */
  datatype Reply = Reply(pending: Bytes, content: string, reasoning: string, calls: seq<Call>, finished: bool,
                         reason: string, emitted: seq<Delta>)

  /** What the model takes from outside; `limit` is the most that may wait for its newline. */
  datatype Env = Env(decode: Bytes -> Option<Chunk>, trim: Bytes -> Bytes, takes: nat -> bool, limit: nat)

  const Silent := Reply([], "", "", [], false, "", [])

  type Outcome = (Reply, Option<Error>)

  function Padded(calls: seq<Call>, n: nat): (r: seq<Call>)
    ensures |r| == if |calls| < n then n else |calls|
    decreases n - |calls|
  {
    if |calls| >= n then calls else Padded(calls + [Call("", "", "")], n)
  }

  /** A piece of an identifier is added unless it says again what is there. */
  function Extended(whole: string, piece: string): string {
    if piece != "" && piece != whole then whole + piece else whole
  }

  function AddCall(calls: seq<Call>, d: CallDelta): seq<Call>
    requires 0 <= d.index
  {
    var padded := Padded(calls, d.index + 1);
    var c := padded[d.index];
    padded[d.index := Call(Extended(c.id, d.id), Extended(c.name, d.name), c.args + d.args)]
  }

  function AddCalls(calls: seq<Call>, ds: seq<CallDelta>): (seq<Call>, Option<Error>)
    decreases ds
  {
    if ds == [] then (calls, None)
    else if ds[0].index < 0 || ds[0].index >= MAX_CALLS then (calls, Some(ManyCalls))
    else AddCalls(AddCall(calls, ds[0]), ds[1..])
  }

  function Emit(r: Reply, d: Delta, env: Env): (o: Outcome)
    ensures o.0.pending == r.pending
  {
    if d.content == "" && d.reasoning == "" then (r, None)
    else if env.takes(|r.emitted|) then (r.(emitted := r.emitted + [d.(calls := [])]), None)
    else (r, Some(Gone))
  }

  function OnChoice(r: Reply, c: Choice, env: Env): (o: Outcome)
    ensures o.0.pending == r.pending
  {
    if c.index != 0 then (r, Some(BadIndex))
    else
      var s := r.(reason := if c.finish.Some? then c.finish.value else r.reason,
                  content := r.content + c.delta.content, reasoning := r.reasoning + c.delta.reasoning);
      var (calls, err) := AddCalls(s.calls, c.delta.calls);
      var t := s.(calls := calls);
      if err.Some? then (t, err) else Emit(t, c.delta, env)
  }

  function OnChunk(r: Reply, chunk: Chunk, env: Env): (o: Outcome)
    ensures o.0.pending == r.pending
  {
    if chunk.error then (r, Some(Failed))
    else if |chunk.choices| > 1 then (r, Some(ManyReplies))
    else if chunk.choices == [] then (r, None)
    else OnChoice(r, chunk.choices[0], env)
  }

  /** The payload of a `data:` line. */
  function Payload(line: Bytes, env: Env): Option<Bytes> {
    var l := env.trim(line);
    if |DATA| <= |l| && l[..|DATA|] == DATA then Some(env.trim(l[|DATA|..])) else None
  }

  function OnLine(r: Reply, line: Bytes, env: Env): (o: Outcome)
    ensures o.0.pending == r.pending
  {
    var value := Payload(line, env);
    if value.None? then (r, None)
    else if value.value == DONE then (r.(finished := r.reason != ""), None)
    else
      var chunk := env.decode(value.value);
      if chunk.None? then (r, Some(Invalid)) else OnChunk(r, chunk.value, env)
  }

  /** The loop of `consume`: every complete line, until none is left or one is an error. */
  function Drain(r: Reply, env: Env): Outcome
    decreases |r.pending|
  {
    var i := Newline(r.pending);
    if i == |r.pending| then (r, None)
    else
      var (s, err) := OnLine(r.(pending := r.pending[i + 1..]), r.pending[..i], env);
      if err.Some? then (s, err) else Drain(s, env)
  }

  /** `consume`. */
  function Feed(r: Reply, raw: Bytes, env: Env): Outcome {
    var s := r.(pending := r.pending + raw);
    if |s.pending| > env.limit then (s, Some(Limit)) else Drain(s, env)
  }

  /** A stream in pieces, up to its first error. */
  function FeedAll(r: Reply, pieces: seq<Bytes>, env: Env): Outcome
    decreases pieces
  {
    if pieces == [] then (r, None)
    else
      var (s, err) := Feed(r, pieces[0], env);
      if err.Some? then (s, err) else FeedAll(s, pieces[1..], env)
  }

  predicate Waiting(r: Reply) {
    Newline(r.pending) == |r.pending|
  }

  // ---- pieces do not matter ----

  /** A line is handled the same whatever waits behind it. */
  lemma LineApart(r: Reply, line: Bytes, rest: Bytes, env: Env)
    ensures var (s, err) := OnLine(r, line, env);
            OnLine(r.(pending := rest), line, env) == (s.(pending := rest), err)
  {
  }

  lemma NewlineIn(p: Bytes, q: Bytes)
    requires Newline(p) < |p|
    ensures Newline(p + q) == Newline(p)
    ensures (p + q)[..Newline(p)] == p[..Newline(p)] && (p + q)[Newline(p) + 1..] == p[Newline(p) + 1..] + q
  {
    NewlineIs(p + q, Newline(p));
  }

  /** One step of the loop, said of the bytes instead of the reply. */
  lemma DrainLine(r: Reply, p: Bytes, env: Env)
    requires Newline(p) < |p|
    ensures var i := Newline(p);
            var (s, err) := OnLine(r, p[..i], env);
            Drain(r.(pending := p), env)
            == if err.Some? then (s.(pending := p[i + 1..]), err) else Drain(s.(pending := p[i + 1..]), env)
  {
    LineApart(r, p[..Newline(p)], p[Newline(p) + 1..], env);
  }

  /** Draining on, with `q` behind what waits, unless an error has ended it. */
  function DrainOn(o: Outcome, q: Bytes, env: Env): Outcome {
    var r := o.0.(pending := o.0.pending + q);
    if o.1.Some? then (r, o.1) else Drain(r, env)
  }

  lemma JoinStep(o: Outcome, p: Bytes, q: Bytes, whole: Outcome, begun: Outcome, env: Env)
    requires begun == if o.1.Some? then (o.0.(pending := p), o.1) else Drain(o.0.(pending := p), env)
    requires whole == if o.1.Some? then (o.0.(pending := p + q), o.1) else Drain(o.0.(pending := p + q), env)
    requires o.1.None? ==> Drain(o.0.(pending := p + q), env) == DrainOn(Drain(o.0.(pending := p), env), q, env)
    ensures whole == DrainOn(begun, q, env)
  {
  }

  /** Draining a longer text is draining its beginning and then the rest. */
  lemma {:induction false} DrainJoin(r: Reply, p: Bytes, q: Bytes, env: Env)
    ensures Drain(r.(pending := p + q), env) == DrainOn(Drain(r.(pending := p), env), q, env)
    decreases |p|
  {
    var i := Newline(p);
    if i < |p| {
      NewlineIn(p, q);
      DrainLine(r, p, env);
      DrainLine(r, p + q, env);
      var o := OnLine(r, p[..i], env);
      if o.1.None? {
        DrainJoin(o.0, p[i + 1..], q, env);
      }
      JoinStep(o, p[i + 1..], q, Drain(r.(pending := p + q), env), Drain(r.(pending := p), env), env);
    }
  }

  /** `tail` is the suffix of `d` after its last newline, or all of it when it has none. */
  ghost predicate AfterLast(d: Bytes, tail: Bytes) {
    var k := |d| - |tail|;
    0 <= k && tail == d[k..] && (k > 0 ==> d[k - 1] == NL) && forall j :: k <= j < |d| ==> d[j] != NL
  }

  lemma AfterFirst(d: Bytes, i: nat, rest: Bytes, tail: Bytes)
    requires i < |d| && d[i] == NL && rest == d[i + 1..] && AfterLast(rest, tail)
    ensures AfterLast(d, tail)
  {
    var k := |d| - |tail|;
    assert tail == d[k..];
    forall j | k <= j < |d| ensures d[j] != NL {
      assert rest[j - i - 1] == d[j];
    }
  }

  /** There is only one such suffix. */
  lemma OneAfterLast(d: Bytes, a: Bytes, b: Bytes)
    requires AfterLast(d, a) && AfterLast(d, b)
    ensures a == b
  {
  }

  lemma LeavesStep(o: Outcome, d: Bytes, i: nat, rest: Bytes, whole: Outcome, env: Env)
    requires i < |d| && d[i] == NL && rest == d[i + 1..]
    requires whole == if o.1.Some? then (o.0.(pending := rest), o.1) else Drain(o.0.(pending := rest), env)
    requires o.1.None? && whole.1.None? ==> AfterLast(rest, whole.0.pending) && Waiting(whole.0)
    ensures whole.1.None? ==> AfterLast(d, whole.0.pending) && Waiting(whole.0)
  {
    if whole.1.None? {
      AfterFirst(d, i, rest, whole.0.pending);
    }
  }

  /** What is left when all lines are drained is what follows the last newline. */
  lemma {:induction false} DrainLeaves(r: Reply, d: Bytes, env: Env)
    ensures var (s, err) := Drain(r.(pending := d), env); err.None? ==> AfterLast(d, s.pending) && Waiting(s)
    decreases |d|
  {
    var i := Newline(d);
    if i < |d| {
      DrainLine(r, d, env);
      var o := OnLine(r, d[..i], env);
      if o.1.None? {
        DrainLeaves(o.0, d[i + 1..], env);
      }
      LeavesStep(o, d, i, d[i + 1..], Drain(r.(pending := d), env), env);
    }
  }

  /** The two replies agree on everything but what waits. */
  predicate SameReply(a: Reply, b: Reply) {
    a.(pending := []) == b.(pending := [])
  }

  /**
   However the bytes were cut into pieces, so long as no piece overflowed the pending buffer, the reply
   - content, reasoning, calls, finish state, the deltas emitted and the error, if any - is that of
   the whole stream drained at once; and without an error what waits is the same too, the suffix
   after the last newline.
   */
  lemma {:induction false} PiecesDoNotMatter(r: Reply, pieces: seq<Bytes>, env: Env)
    requires Waiting(r) && FeedAll(r, pieces, env).1 != Some(Limit)
    ensures var (s, err) := FeedAll(r, pieces, env);
            var (t, bad) := Drain(r.(pending := r.pending + Join(pieces)), env);
            && err == bad && SameReply(s, t)
            && (err.None? ==> s == t && AfterLast(r.pending + Join(pieces), s.pending))
    decreases pieces
  {
    if pieces == [] {
      assert r.pending + [] == r.pending;
      assert r.(pending := r.pending) == r;
    } else {
      var p, rest := r.pending + pieces[0], Join(pieces[1..]);
      var (s, err) := Drain(r.(pending := p), env);
      DrainLeaves(r, p, env);
      DrainJoin(r, p, rest, env);
      Assoc(r.pending, pieces[0], rest);
      if err.None? {
        PiecesDoNotMatter(s, pieces[1..], env);
      }
      DrainLeaves(r, p + rest, env);
    }
  }

  /** Two ways of cutting the same stream give the same reply. */
  lemma TwoWaysAgree(pieces: seq<Bytes>, others: seq<Bytes>, env: Env)
    requires Join(pieces) == Join(others)
    requires FeedAll(Silent, pieces, env).1 != Some(Limit) && FeedAll(Silent, others, env).1 != Some(Limit)
    ensures FeedAll(Silent, pieces, env).1 == FeedAll(Silent, others, env).1
    ensures SameReply(FeedAll(Silent, pieces, env).0, FeedAll(Silent, others, env).0)
    ensures FeedAll(Silent, pieces, env).1.None? ==> FeedAll(Silent, pieces, env) == FeedAll(Silent, others, env)
  {
    PiecesDoNotMatter(Silent, pieces, env);
    PiecesDoNotMatter(Silent, others, env);
  }

  // ---- what the observer saw ----

  function Contents(ds: seq<Delta>): string {
    if ds == [] then "" else Contents(ds[..|ds| - 1]) + ds[|ds| - 1].content
  }

  function Reasonings(ds: seq<Delta>): string {
    if ds == [] then "" else Reasonings(ds[..|ds| - 1]) + ds[|ds| - 1].reasoning
  }

  /** The reply is what the observer was given, which never held a tool call; calls are at most 16. */
  ghost predicate Faithful(r: Reply) {
    && r.content == Contents(r.emitted) && r.reasoning == Reasonings(r.emitted)
    && (forall d <- r.emitted :: d.calls == [] && (d.content != "" || d.reasoning != ""))
    && |r.calls| <= MAX_CALLS
  }

  lemma {:induction false} CallsBounded(calls: seq<Call>, ds: seq<CallDelta>)
    requires |calls| <= MAX_CALLS
    ensures |AddCalls(calls, ds).0| <= MAX_CALLS
    decreases ds
  {
    if ds != [] && 0 <= ds[0].index < MAX_CALLS {
      CallsBounded(AddCall(calls, ds[0]), ds[1..]);
    }
  }

  lemma ChoiceFaithful(r: Reply, c: Choice, env: Env)
    requires Faithful(r)
    ensures OnChoice(r, c, env).1.None? ==> Faithful(OnChoice(r, c, env).0)
    ensures OnChoice(r, c, env).0.emitted == r.emitted || OnChoice(r, c, env).1.None?
  {
    CallsBounded(r.calls, c.delta.calls);
    var d := c.delta.(calls := []);
    var more := r.emitted + [d];
    assert more[..|more| - 1] == r.emitted;
    assert r.content + "" == r.content && r.reasoning + "" == r.reasoning;
  }

  lemma LineFaithful(r: Reply, line: Bytes, env: Env)
    requires Faithful(r)
    ensures OnLine(r, line, env).1.None? ==> Faithful(OnLine(r, line, env).0)
  {
    var value := Payload(line, env);
    if value.Some? && env.decode(value.value).Some? {
      var chunk := env.decode(value.value).value;
      if chunk.choices != [] {
        ChoiceFaithful(r, chunk.choices[0], env);
      }
    }
  }

  lemma {:induction false} DrainFaithful(r: Reply, env: Env)
    requires Faithful(r)
    ensures Drain(r, env).1.None? ==> Faithful(Drain(r, env).0)
    decreases |r.pending|
  {
    var i := Newline(r.pending);
    if i < |r.pending| {
      var s := r.(pending := r.pending[i + 1..]);
      LineFaithful(s, r.pending[..i], env);
      var (t, err) := OnLine(s, r.pending[..i], env);
      if err.None? {
        DrainFaithful(t, env);
      }
    }
  }

  /** A stream without an error leaves exactly what the observer saw, however it came. */
  lemma {:induction false} ObserverSawEverything(r: Reply, pieces: seq<Bytes>, env: Env)
    requires Faithful(r)
    ensures FeedAll(r, pieces, env).1.None? ==> Faithful(FeedAll(r, pieces, env).0)
    decreases pieces
  {
    if pieces != [] {
      DrainFaithful(r.(pending := r.pending + pieces[0]), env);
      var (s, err) := Feed(r, pieces[0], env);
      if err.None? {
        ObserverSawEverything(s, pieces[1..], env);
      }
    }
  }

  // ---- when a reply counts as finished ----

  /** No chunk of this stream gives a reason for finishing. */
  ghost predicate NoReasons(env: Env) {
    forall b: Bytes :: env.decode(b).Some? ==>
      forall c <- env.decode(b).value.choices :: c.finish.None? || c.finish.value == ""
  }

  predicate Open(r: Reply) {
    !r.finished && r.reason == ""
  }

  lemma LineStaysOpen(r: Reply, line: Bytes, env: Env)
    requires NoReasons(env) && Open(r)
    ensures Open(OnLine(r, line, env).0)
  {
    var value := Payload(line, env);
    if value.Some? && env.decode(value.value).Some? {
      var choices := env.decode(value.value).value.choices;
      assert choices != [] ==> choices[0] in choices;
    }
  }

  lemma {:induction false} DrainStaysOpen(r: Reply, env: Env)
    requires NoReasons(env) && Open(r)
    ensures Open(Drain(r, env).0)
    decreases |r.pending|
  {
    var i := Newline(r.pending);
    if i < |r.pending| {
      var s := r.(pending := r.pending[i + 1..]);
      LineStaysOpen(s, r.pending[..i], env);
      var (t, err) := OnLine(s, r.pending[..i], env);
      if err.None? {
        DrainStaysOpen(t, env);
      }
    }
  }

  /** `[DONE]` alone finishes nothing: a stream whose engine never gave a reason never counts as finished. */
  lemma {:induction false} NoReasonNoFinish(r: Reply, pieces: seq<Bytes>, env: Env)
    requires NoReasons(env) && Open(r)
    ensures Open(FeedAll(r, pieces, env).0)
    decreases pieces
  {
    if pieces != [] {
      DrainStaysOpen(r.(pending := r.pending + pieces[0]), env);
      var (s, err) := Feed(r, pieces[0], env);
      if err.None? {
        NoReasonNoFinish(s, pieces[1..], env);
      }
    }
  }

  lemma LineDone(r: Reply, line: Bytes, env: Env)
    requires Payload(line, env) == Some(DONE)
    ensures OnLine(r, line, env) == (r.(finished := r.reason != ""), None)
  {
  }

  lemma OneLine(line: Bytes)
    requires Newline(line) == |line|
    ensures Newline(line + [NL]) == |line|
    ensures (line + [NL])[..|line|] == line && (line + [NL])[|line| + 1..] == []
  {
    NewlineIs(line + [NL], |line|);
  }

  /** And a `[DONE]` after a reason, with nothing behind it, does finish the reply. */
  lemma DoneFinishes(r: Reply, line: Bytes, env: Env)
    requires Newline(r.pending + line) == |r.pending + line| && Payload(r.pending + line, env) == Some(DONE)
    requires |r.pending + line| < env.limit
    ensures Feed(r, line + [NL], env) == (r.(pending := [], finished := r.reason != ""), None)
  {
    var all := r.pending + line;
    Assoc(r.pending, line, [NL]);
    OneLine(all);
    LineDone(r, all, env);
    DrainLine(r, all + [NL], env);
  }

  // ---- what a call is put together from ----

  /** The pieces of arguments that name call `k`, joined in order. */
  function Arguments(ds: seq<CallDelta>, k: nat): string {
    if ds == [] then "" else (if ds[0].index == k then ds[0].args else "") + Arguments(ds[1..], k)
  }

  function CallAt(calls: seq<Call>, k: nat): Call {
    if k < |calls| then calls[k] else Call("", "", "")
  }

  lemma {:induction false} PaddedKeeps(calls: seq<Call>, n: nat, k: nat)
    ensures CallAt(Padded(calls, n), k) == CallAt(calls, k)
    decreases n - |calls|
  {
    if |calls| < n {
      PaddedKeeps(calls + [Call("", "", "")], n, k);
    }
  }

  lemma AddCallIs(calls: seq<Call>, d: CallDelta, k: nat)
    requires 0 <= d.index
    ensures var was, now := CallAt(calls, k), CallAt(AddCall(calls, d), k);
            if k == d.index
            then now == Call(Extended(was.id, d.id), Extended(was.name, d.name), was.args + d.args)
            else now == was
  {
    PaddedKeeps(calls, d.index + 1, k);
  }

  /** Deltas that say a call's name at most once, or again and again, leave it said once. */
  ghost predicate SaysOnly(ds: seq<CallDelta>, k: nat, id: string, name: string) {
    forall d <- ds :: d.index == k ==> d.id in {"", id} && d.name in {"", name}
  }

  /** Pieces of different calls may come in any interleaving: each call's arguments are its own pieces, in order. */
  lemma {:induction false} ArgumentsAssemble(calls: seq<Call>, ds: seq<CallDelta>, k: nat)
    requires AddCalls(calls, ds).1.None?
    ensures CallAt(AddCalls(calls, ds).0, k).args == CallAt(calls, k).args + Arguments(ds, k)
    decreases ds
  {
    var was := CallAt(calls, k).args;
    if ds == [] {
      assert was + "" == was;
    } else {
      var d, rest := ds[0], ds[1..];
      var piece := if d.index == k then d.args else "";
      AddCallIs(calls, d, k);
      assert CallAt(AddCall(calls, d), k).args == was + piece;
      ArgumentsAssemble(AddCall(calls, d), rest, k);
      Assoc(was, piece, Arguments(rest, k));
    }
  }

  predicate Said(whole: string, said: bool, id: string) {
    whole in {"", id} && (said ==> whole == id)
  }

  lemma ExtendedSays(whole: string, said: bool, piece: string, id: string)
    requires Said(whole, said, id) && piece in {"", id}
    ensures Said(Extended(whole, piece), said || piece == id, id)
  {
    assert "" + piece == piece;
  }

  /** Whether some piece for call `k` names it. */
  predicate Identified(ds: seq<CallDelta>, k: nat, id: string) {
    exists d <- ds :: d.index == k && d.id == id
  }

  predicate Named(ds: seq<CallDelta>, k: nat, name: string) {
    exists d <- ds :: d.index == k && d.name == name
  }

  lemma SaysFirst(d: CallDelta, rest: seq<CallDelta>, k: nat, id: string, name: string)
    ensures Identified([d] + rest, k, id) <==> (d.index == k && d.id == id) || Identified(rest, k, id)
    ensures Named([d] + rest, k, name) <==> (d.index == k && d.name == name) || Named(rest, k, name)
    ensures SaysOnly([d] + rest, k, id, name) <==>
            (d.index == k ==> d.id in {"", id} && d.name in {"", name}) && SaysOnly(rest, k, id, name)
  {
    assert forall x :: x in [d] + rest <==> x == d || x in rest;
  }

  /** An identifier and a name that come with every piece, or with one, are in the call once. */
  lemma {:induction false} NamesAssemble(calls: seq<Call>, ds: seq<CallDelta>, k: nat, id: string, name: string,
                                         a: bool, b: bool)
    requires AddCalls(calls, ds).1.None? && SaysOnly(ds, k, id, name)
    requires Said(CallAt(calls, k).id, a, id) && Said(CallAt(calls, k).name, b, name)
    ensures var now := CallAt(AddCalls(calls, ds).0, k);
            Said(now.id, a || Identified(ds, k, id), id) && Said(now.name, b || Named(ds, k, name), name)
    decreases ds
  {
    if ds != [] {
      var d, rest := ds[0], ds[1..];
      assert ds == [d] + rest;
      SaysFirst(d, rest, k, id, name);
      AddCallIs(calls, d, k);
      var was := CallAt(calls, k);
      var mine := d.index == k;
      if mine {
        ExtendedSays(was.id, a, d.id, id);
        ExtendedSays(was.name, b, d.name, name);
      }
      NamesAssemble(AddCall(calls, d), rest, k, id, name, a || (mine && d.id == id), b || (mine && d.name == name));
    }
  }
}
