/**
 What a streamed reply says, told from its lines alone: each complete line is nothing, the end mark, a
 choice or a fault, and the reply is put together from the choices in order.
 */
module StreamReply {
  import opened Prelude
  import opened Text
  import opened Stream

  /** The complete lines of a text, each without its newline. */
  function CompleteLines(d: Bytes): seq<Bytes>
    decreases |d|
  {
    var i := Newline(d);
    if i == |d| then [] else [d[..i]] + CompleteLines(d[i + 1..])
  }

  datatype Item = Silence | EndMark | Says(c: Choice) | Bad(why: Error)

  /** What one line is by itself. */
  function ItemOf(line: Bytes, env: Env): Item {
    match Payload(line, env)
    case None => Silence
    case Some(value) =>
      if value == DONE then EndMark
      else
        match env.decode(value)
        case None => Bad(Invalid)
        case Some(chunk) =>
          if chunk.error then Bad(Failed)
          else if |chunk.choices| > 1 then Bad(ManyReplies)
          else if chunk.choices == [] then Silence
          else if chunk.choices[0].index != 0 then Bad(BadIndex)
          else Says(chunk.choices[0])
  }

  function Items(lines: seq<Bytes>, env: Env): seq<Item> {
    if lines == [] then [] else [ItemOf(lines[0], env)] + Items(lines[1..], env)
  }

  // ---- what the choices say together ----

  function ContentOf(items: seq<Item>): string {
    if items == [] then ""
    else (if items[0].Says? then items[0].c.delta.content else "") + ContentOf(items[1..])
  }

  function ReasoningOf(items: seq<Item>): string {
    if items == [] then ""
    else (if items[0].Says? then items[0].c.delta.reasoning else "") + ReasoningOf(items[1..])
  }

  function PiecesOf(items: seq<Item>): seq<CallDelta> {
    if items == [] then []
    else (if items[0].Says? then items[0].c.delta.calls else []) + PiecesOf(items[1..])
  }

  /** A delta the observer is shown, without its tool calls. */
  function ShownBy(item: Item): seq<Delta> {
    if item.Says? && (item.c.delta.content != "" || item.c.delta.reasoning != "")
    then [Delta(item.c.delta.content, item.c.delta.reasoning, [])] else []
  }

  function ShownOf(items: seq<Item>): seq<Delta> {
    if items == [] then [] else ShownBy(items[0]) + ShownOf(items[1..])
  }

  /** The reason an item gives for finishing, if any. */
  function ReasonBy(item: Item): Option<string> {
    if item.Says? then item.c.finish else None
  }

  /** The last reason given. */
  function ReasonOf(items: seq<Item>): Option<string> {
    if items == [] then None
    else
      var later := ReasonOf(items[1..]);
      if later.Some? then later else ReasonBy(items[0])
  }

  function Or<T>(o: Option<T>, otherwise: T): T {
    if o.Some? then o.value else otherwise
  }

  /** Whether the last end mark came after a reason; none without one. */
  function FinishOf(items: seq<Item>, reason: string): Option<bool> {
    if items == [] then None
    else
      var later := FinishOf(items[1..], Or(ReasonBy(items[0]), reason));
      if later.Some? then later else if items[0].EndMark? then Some(reason != "") else None
  }

  // ---- what can go wrong ----

  predicate InRange(ds: seq<CallDelta>) {
    forall d <- ds :: 0 <= d.index < MAX_CALLS
  }

  /** What is wrong with an item when the observer has been shown `n` deltas. */
  function TroubleWith(item: Item, n: nat, env: Env): Option<Error> {
    match item
    case Bad(why) => Some(why)
    case Says(c) =>
      if !InRange(c.delta.calls) then Some(ManyCalls)
      else if ShownBy(item) != [] && !env.takes(n) then Some(Gone)
      else None
    case _ => None
  }

  /** The first thing that is wrong. */
  function Trouble(items: seq<Item>, n: nat, env: Env): Option<Error>
    decreases items
  {
    if items == [] then None
    else
      var first := TroubleWith(items[0], n, env);
      if first.Some? then first else Trouble(items[1..], n + |ShownBy(items[0])|, env)
  }

  // ---- the accumulator does the same ----

  /** `s` is `r` with what the items say. */
  predicate Tells(r: Reply, s: Reply, items: seq<Item>) {
    && s.content == r.content + ContentOf(items)
    && s.reasoning == r.reasoning + ReasoningOf(items)
    && s.emitted == r.emitted + ShownOf(items)
    && AddCalls(r.calls, PiecesOf(items)) == (s.calls, None)
    && s.reason == Or(ReasonOf(items), r.reason)
    && s.finished == Or(FinishOf(items, r.reason), r.finished)
  }

  lemma {:induction false} CallsInRange(calls: seq<Call>, ds: seq<CallDelta>)
    ensures AddCalls(calls, ds).1 == if InRange(ds) then None else Some(ManyCalls)
    decreases ds
  {
    if ds != [] {
      assert ds == [ds[0]] + ds[1..];
      if 0 <= ds[0].index < MAX_CALLS {
        CallsInRange(AddCall(calls, ds[0]), ds[1..]);
      } else {
        assert ds[0] in ds;
      }
    }
  }

  lemma {:induction false} CallsJoin(calls: seq<Call>, a: seq<CallDelta>, b: seq<CallDelta>)
    requires AddCalls(calls, a).1.None?
    ensures AddCalls(calls, a + b) == AddCalls(AddCalls(calls, a).0, b)
    decreases a
  {
    if a == [] {
      assert a + b == b;
    } else {
      assert (a + b)[0] == a[0] && (a + b)[1..] == a[1..] + b;
      CallsJoin(AddCall(calls, a[0]), a[1..], b);
    }
  }

  /** One item by itself. */
  lemma OnlyItem(item: Item)
    ensures ContentOf([item]) == if item.Says? then item.c.delta.content else ""
    ensures ReasoningOf([item]) == if item.Says? then item.c.delta.reasoning else ""
    ensures PiecesOf([item]) == if item.Says? then item.c.delta.calls else []
    ensures ShownOf([item]) == ShownBy(item)
    ensures ReasonOf([item]) == ReasonBy(item)
    ensures forall reason :: FinishOf([item], reason) == if item.EndMark? then Some(reason != "") else None
  {
    assert [item][1..] == [];
  }

  lemma ChoiceTells(r: Reply, c: Choice, env: Env)
    requires c.index == 0
    ensures var (s, err) := OnChoice(r, c, env);
            err == TroubleWith(Says(c), |r.emitted|, env) && (err.None? ==> Tells(r, s, [Says(c)]))
  {
    OnlyItem(Says(c));
    CallsInRange(r.calls, c.delta.calls);
    assert r.emitted + [] == r.emitted;
  }

  lemma QuietTells(r: Reply, item: Item)
    requires item.Silence? || item.EndMark?
    ensures Tells(r, if item.EndMark? then r.(finished := r.reason != "") else r, [item])
  {
    OnlyItem(item);
    assert r.content + "" == r.content && r.reasoning + "" == r.reasoning && r.emitted + [] == r.emitted;
  }

  lemma LineTells(r: Reply, line: Bytes, env: Env)
    ensures var (s, err) := OnLine(r, line, env);
            var item := ItemOf(line, env);
            err == TroubleWith(item, |r.emitted|, env) && (err.None? ==> Tells(r, s, [item]))
  {
    var item := ItemOf(line, env);
    if item.Says? {
      ChoiceTells(r, item.c, env);
    } else if !item.Bad? {
      QuietTells(r, item);
    }
  }

  /** Telling one item and then the others is telling all. */
  lemma TellsOn(r: Reply, s: Reply, t: Reply, item: Item, rest: seq<Item>)
    requires Tells(r, s, [item]) && Tells(s, t, rest)
    ensures Tells(r, t, [item] + rest)
  {
    var all := [item] + rest;
    assert all[0] == item && all[1..] == rest;
    OnlyItem(item);
    Assoc(r.content, ContentOf([item]), ContentOf(rest));
    Assoc(r.reasoning, ReasoningOf([item]), ReasoningOf(rest));
    Assoc(r.emitted, ShownOf([item]), ShownOf(rest));
    CallsJoin(r.calls, PiecesOf([item]), PiecesOf(rest));
  }

  lemma NothingTold(r: Reply, s: Reply)
    requires s == r.(pending := s.pending)
    ensures Tells(r, s, [])
  {
    assert r.content + "" == r.content && r.reasoning + "" == r.reasoning && r.emitted + [] == r.emitted;
  }

  /** The outcome from `r` is what the items say: the first thing wrong, or all of them told. */
  predicate Agrees(r: Reply, o: Outcome, items: seq<Item>, env: Env) {
    o.1 == Trouble(items, |r.emitted|, env) && (o.1.None? ==> Tells(r, o.0, items))
  }

  lemma {:induction false} DrainTells(r: Reply, d: Bytes, env: Env) returns (whole: Outcome, items: seq<Item>)
    ensures whole == Drain(r.(pending := d), env) && items == Items(CompleteLines(d), env)
    ensures Agrees(r, whole, items, env)
    decreases |d|
  {
    var i := Newline(d);
    whole, items := Drain(r.(pending := d), env), Items(CompleteLines(d), env);
    if i == |d| {
      DrainNothing(r, d, env);
    } else {
      var o := OnLine(r, d[..i], env);
      DrainLine(r, d, env);
      if o.1.None? {
        var rest, more := DrainTells(o.0, d[i + 1..], env);
        assert rest == whole;
      }
      DrainTurn(r, d, i, o, whole, env);
    }
  }

  lemma DrainNothing(r: Reply, d: Bytes, env: Env)
    requires Newline(d) == |d|
    ensures Agrees(r, Drain(r.(pending := d), env), Items(CompleteLines(d), env), env)
  {
    NothingTold(r, r.(pending := d));
  }

  lemma DrainTurn(r: Reply, d: Bytes, i: nat, o: Outcome, whole: Outcome, env: Env)
    requires i == Newline(d) < |d| && o == OnLine(r, d[..i], env)
    requires if o.1.Some? then whole.1 == o.1 else Agrees(o.0, whole, Items(CompleteLines(d[i + 1..]), env), env)
    ensures Agrees(r, whole, Items(CompleteLines(d), env), env)
  {
    LineTells(r, d[..i], env);
    ItemsFirst(d, i, env);
    TellsLater(r, o, whole, ItemOf(d[..i], env), Items(CompleteLines(d[i + 1..]), env), env);
  }

  lemma ItemsFirst(d: Bytes, i: nat, env: Env)
    requires i == Newline(d) < |d|
    ensures Items(CompleteLines(d), env) == [ItemOf(d[..i], env)] + Items(CompleteLines(d[i + 1..]), env)
  {
    var lines := CompleteLines(d);
    assert lines[0] == d[..i] && lines[1..] == CompleteLines(d[i + 1..]);
  }

  lemma TellsLater(r: Reply, o: Outcome, whole: Outcome, item: Item, items: seq<Item>, env: Env)
    requires o.1 == TroubleWith(item, |r.emitted|, env) && (o.1.None? ==> Tells(r, o.0, [item]))
    requires if o.1.Some? then whole.1 == o.1 else Agrees(o.0, whole, items, env)
    ensures Agrees(r, whole, [item] + items, env)
  {
    TroubleFirst(item, items, |r.emitted|, env);
    if o.1.None? {
      BothTell(r, o.0, whole, item, items, env);
    }
  }

  lemma BothTell(r: Reply, s: Reply, whole: Outcome, item: Item, items: seq<Item>, env: Env)
    requires Tells(r, s, [item]) && Agrees(s, whole, items, env)
    ensures whole.1 == Trouble(items, |r.emitted| + |ShownBy(item)|, env)
    ensures whole.1.None? ==> Tells(r, whole.0, [item] + items)
  {
    ShownCount(r, s, item);
    if whole.1.None? {
      TellsOn(r, s, whole.0, item, items);
    }
  }

  lemma TroubleFirst(item: Item, items: seq<Item>, n: nat, env: Env)
    ensures var first := TroubleWith(item, n, env);
            Trouble([item] + items, n, env)
            == if first.Some? then first else Trouble(items, n + |ShownBy(item)|, env)
  {
    assert ([item] + items)[1..] == items;
  }

  lemma ShownCount(r: Reply, s: Reply, item: Item)
    requires Tells(r, s, [item])
    ensures |s.emitted| == |r.emitted| + |ShownBy(item)|
  {
    OnlyItem(item);
  }

  /** Some piece names the call `k` or one after it. */
  predicate Reaches(ds: seq<CallDelta>, k: nat) {
    exists d <- ds :: k <= d.index
  }

  /** There is a call for every index up to the highest that was named. */
  lemma {:induction false} CallsCount(calls: seq<Call>, ds: seq<CallDelta>, k: nat)
    requires InRange(ds)
    ensures k < |AddCalls(calls, ds).0| <==> k < |calls| || Reaches(ds, k)
    decreases ds
  {
    if ds != [] {
      var d, rest := ds[0], ds[1..];
      assert ds == [d] + rest && d in ds;
      assert forall x :: x in ds <==> x == d || x in rest;
      CallsCount(AddCall(calls, d), rest, k);
    }
  }

  /** The pieces of an identifier and of a name that are for call `k`, joined in order. */
  function IdPieces(ds: seq<CallDelta>, k: nat): string {
    if ds == [] then "" else (if ds[0].index == k then ds[0].id else "") + IdPieces(ds[1..], k)
  }

  function NamePieces(ds: seq<CallDelta>, k: nat): string {
    if ds == [] then "" else (if ds[0].index == k then ds[0].name else "") + NamePieces(ds[1..], k)
  }

  /** No piece says again all that came before it. */
  predicate NoneAgain(ds: seq<CallDelta>, k: nat, id: string, name: string) {
    ds == [] ||
    if ds[0].index == k
    then (ds[0].id == "" || ds[0].id != id) && (ds[0].name == "" || ds[0].name != name)
         && NoneAgain(ds[1..], k, id + ds[0].id, name + ds[0].name)
    else NoneAgain(ds[1..], k, id, name)
  }

  lemma ExtendedBy(whole: string, piece: string)
    requires piece == "" || piece != whole
    ensures Extended(whole, piece) == whole + piece
  {
    assert whole + "" == whole;
  }

  /** An identifier and a name that come in pieces are the pieces joined. */
  lemma {:induction false} PiecesJoin(calls: seq<Call>, ds: seq<CallDelta>, k: nat)
    requires AddCalls(calls, ds).1.None? && NoneAgain(ds, k, CallAt(calls, k).id, CallAt(calls, k).name)
    ensures var was, now := CallAt(calls, k), CallAt(AddCalls(calls, ds).0, k);
            now.id == was.id + IdPieces(ds, k) && now.name == was.name + NamePieces(ds, k)
    decreases ds
  {
    var was := CallAt(calls, k);
    if ds == [] {
      assert was.id + "" == was.id && was.name + "" == was.name;
    } else {
      var d, rest := ds[0], ds[1..];
      AddCallIs(calls, d, k);
      if d.index == k {
        ExtendedBy(was.id, d.id);
        ExtendedBy(was.name, d.name);
      }
      PiecesJoin(AddCall(calls, d), rest, k);
      var id, name := if d.index == k then d.id else "", if d.index == k then d.name else "";
      assert was.id + "" == was.id && was.name + "" == was.name;
      Assoc(was.id, id, IdPieces(rest, k));
      Assoc(was.name, name, NamePieces(rest, k));
    }
  }

  // ---- the promises ----

  /**
   The reply says what the engine's choices say, however the bytes came: its content and its reasoning
   are theirs in order, each in its own place; the observer was shown exactly their deltas that have
   either, without the tool calls; each call has the arguments of the pieces that name it, and there are
   calls up to the highest index named; its reason is the last one given, and it is finished exactly when
   a reason came before the last end mark.
   */
  lemma ReplyIs(pieces: seq<Bytes>, env: Env)
    requires FeedAll(Silent, pieces, env).1.None?
    ensures var r := FeedAll(Silent, pieces, env).0;
            var items := Items(CompleteLines(Join(pieces)), env);
            && r.content == ContentOf(items) && r.reasoning == ReasoningOf(items)
            && r.emitted == ShownOf(items)
            && (forall k: nat :: CallAt(r.calls, k).args == Arguments(PiecesOf(items), k))
            && (forall k: nat :: k < |r.calls| <==> Reaches(PiecesOf(items), k))
            && r.reason == Or(ReasonOf(items), "")
            && r.finished == Or(FinishOf(items, ""), false)
  {
    var items := Items(CompleteLines(Join(pieces)), env);
    StreamTells(pieces, env);
    Plain(FeedAll(Silent, pieces, env).0, items);
  }

  lemma StreamTells(pieces: seq<Bytes>, env: Env)
    requires FeedAll(Silent, pieces, env).1.None?
    ensures Tells(Silent, FeedAll(Silent, pieces, env).0, Items(CompleteLines(Join(pieces)), env))
  {
    PiecesDoNotMatter(Silent, pieces, env);
    assert [] + Join(pieces) == Join(pieces);
    var _, _ := DrainTells(Silent, Join(pieces), env);
  }

  lemma Plain(r: Reply, items: seq<Item>)
    requires Tells(Silent, r, items)
    ensures r.content == ContentOf(items) && r.reasoning == ReasoningOf(items) && r.emitted == ShownOf(items)
    ensures r.reason == Or(ReasonOf(items), "") && r.finished == Or(FinishOf(items, ""), false)
    ensures forall k: nat :: CallAt(r.calls, k).args == Arguments(PiecesOf(items), k)
    ensures forall k: nat :: k < |r.calls| <==> Reaches(PiecesOf(items), k)
  {
    assert "" + ContentOf(items) == ContentOf(items) && "" + ReasoningOf(items) == ReasoningOf(items);
    assert [] + ShownOf(items) == ShownOf(items);
    PlainCalls(r.calls, PiecesOf(items));
  }

  lemma PlainCalls(calls: seq<Call>, ds: seq<CallDelta>)
    requires AddCalls([], ds) == (calls, None)
    ensures forall k: nat :: CallAt(calls, k).args == Arguments(ds, k)
    ensures forall k: nat :: k < |calls| <==> Reaches(ds, k)
  {
    CallsInRange([], ds);
    forall k: nat ensures CallAt(calls, k).args == Arguments(ds, k) && (k < |calls| <==> Reaches(ds, k)) {
      ArgumentsAssemble([], ds, k);
      assert "" + Arguments(ds, k) == Arguments(ds, k);
      CallsCount([], ds, k);
    }
  }

  /** A stream that never overflowed fails with the first thing that is wrong in it, and only then. */
  lemma ErrorIs(pieces: seq<Bytes>, env: Env)
    requires FeedAll(Silent, pieces, env).1 != Some(Limit)
    ensures FeedAll(Silent, pieces, env).1 == Trouble(Items(CompleteLines(Join(pieces)), env), 0, env)
  {
    PiecesDoNotMatter(Silent, pieces, env);
    assert [] + Join(pieces) == Join(pieces);
    var _, _ := DrainTells(Silent, Join(pieces), env);
  }

  lemma {:induction false} TroubleIsNotLimit(items: seq<Item>, n: nat, env: Env)
    requires forall item <- items :: item != Bad(Limit)
    ensures Trouble(items, n, env) != Some(Limit)
    decreases items
  {
    if items != [] {
      assert items[0] in items && forall item <- items[1..] :: item in items;
      TroubleIsNotLimit(items[1..], n + |ShownBy(items[0])|, env);
    }
  }

  lemma {:induction false} ItemsAreNotLimit(lines: seq<Bytes>, env: Env)
    ensures forall item <- Items(lines, env) :: item != Bad(Limit)
  {
    if lines != [] {
      ItemsAreNotLimit(lines[1..], env);
    }
  }

  lemma FeedOverflows(r: Reply, raw: Bytes, env: Env)
    ensures Feed(r, raw, env).1 == Some(Limit) <==> |r.pending| + |raw| > env.limit
  {
    var s := r.(pending := r.pending + raw);
    var _, _ := DrainTells(s, s.pending, env);
    ItemsAreNotLimit(CompleteLines(s.pending), env);
    TroubleIsNotLimit(Items(CompleteLines(s.pending), env), |s.emitted|, env);
    assert s.(pending := s.pending) == s;
  }

  /** The piece at `k` comes to a stream without an error yet, and is too much with what still waits. */
  predicate Overflows(r: Reply, pieces: seq<Bytes>, k: nat, env: Env) {
    && k < |pieces| && FeedAll(r, pieces[..k], env).1.None?
    && |FeedAll(r, pieces[..k], env).0.pending| + |pieces[k]| > env.limit
  }

  lemma LaterOverflows(r: Reply, pieces: seq<Bytes>, k: nat, env: Env)
    requires 0 < k <= |pieces|
    ensures var (s, err) := Feed(r, pieces[0], env);
            Overflows(r, pieces, k, env) <==> err.None? && Overflows(s, pieces[1..], k - 1, env)
  {
    var front := pieces[..k];
    assert front[0] == pieces[0] && front[1..] == pieces[1..][..k - 1];
    var (s, err) := Feed(r, pieces[0], env);
    assert FeedAll(r, front, env) == if err.Some? then (s, err) else FeedAll(s, front[1..], env);
    assert k < |pieces| ==> pieces[k] == pieces[1..][k - 1];
  }

  ghost predicate Overflow(r: Reply, pieces: seq<Bytes>, env: Env) {
    exists k: nat :: Overflows(r, pieces, k, env)
  }

  lemma OverflowFirst(r: Reply, pieces: seq<Bytes>, env: Env)
    requires pieces != []
    ensures var (s, err) := Feed(r, pieces[0], env);
            Overflow(r, pieces, env) <==> err == Some(Limit) || (err.None? && Overflow(s, pieces[1..], env))
  {
    FirstOverflows(r, pieces, env);
    var (s, err) := Feed(r, pieces[0], env);
    if Overflow(r, pieces, env) {
      var k: nat :| Overflows(r, pieces, k, env);
      if k > 0 {
        LaterOverflows(r, pieces, k, env);
      }
    }
    if err.None? && Overflow(s, pieces[1..], env) {
      var j: nat :| Overflows(s, pieces[1..], j, env);
      LaterOverflows(r, pieces, j + 1, env);
    }
  }

  /** It overflows exactly when some piece, with what was still waiting for its newline, is over the limit. */
  lemma {:induction false} OverflowIs(r: Reply, pieces: seq<Bytes>, env: Env)
    ensures FeedAll(r, pieces, env).1 == Some(Limit) <==> Overflow(r, pieces, env)
    decreases pieces
  {
    if pieces != [] {
      OverflowFirst(r, pieces, env);
      var (s, err) := Feed(r, pieces[0], env);
      if err.None? {
        OverflowIs(s, pieces[1..], env);
      }
    }
  }

  lemma FirstOverflows(r: Reply, pieces: seq<Bytes>, env: Env)
    requires pieces != []
    ensures Overflows(r, pieces, 0, env) <==> Feed(r, pieces[0], env).1 == Some(Limit)
  {
    FeedOverflows(r, pieces[0], env);
    assert pieces[..0] == [];
  }

  /** The payload of a line is what follows `data:`, without white space around either. */
  lemma PayloadIs(line: Bytes, rest: Bytes, env: Env)
    ensures env.trim(line) == DATA + rest ==> Payload(line, env) == Some(env.trim(rest))
    ensures Payload(line, env).Some? ==>
              exists tail :: env.trim(line) == DATA + tail && Payload(line, env) == Some(env.trim(tail))
  {
    var l := env.trim(line);
    if l == DATA + rest {
      assert l[..|DATA|] == DATA && l[|DATA|..] == rest;
    }
    if Payload(line, env).Some? {
      assert l == DATA + l[|DATA|..];
    }
  }
}
