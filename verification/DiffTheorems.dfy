/** What the diff promises: it reads back to the change it was made from, and stays within 64 KiB. */
module DiffTheorems {
  import opened Prelude
  import opened Text
  import opened Diff

  // ---- the sides of a hunk ----

  lemma {:induction false} SideAppend(a: seq<Entry>, b: seq<Entry>, sign: u8)
    ensures Side(a + b, sign) == Side(a, sign) + Side(b, sign)
  {
    if a == [] {
      assert a + b == b;
    } else {
      HeadTail(a[0], a[1..], b);
      assert a == [a[0]] + a[1..];
      SideAppend(a[1..], b, sign);
    }
  }

  lemma {:induction false} SideOf(sign: u8, ls: seq<Bytes>, side: u8)
    ensures Side(Signed(sign, ls), side) == if sign in {KEEP, side} then ls else []
  {
    if ls != [] {
      SideOf(sign, ls[1..], side);
      assert Signed(sign, ls)[1..] == Signed(sign, ls[1..]);
      assert ls == [ls[0]] + ls[1..];
    }
  }

  lemma FourSides(k: seq<Bytes>, c: seq<Bytes>, p: seq<Bytes>, t: seq<Bytes>, side: u8)
    requires side in {CUT, PUT}
    ensures Side(Signed(KEEP, k) + Signed(CUT, c) + Signed(PUT, p) + Signed(KEEP, t), side)
            == k + (if side == CUT then c else p) + t
  {
    SideAppend(Signed(KEEP, k) + Signed(CUT, c) + Signed(PUT, p), Signed(KEEP, t), side);
    SideAppend(Signed(KEEP, k) + Signed(CUT, c), Signed(PUT, p), side);
    SideAppend(Signed(KEEP, k), Signed(CUT, c), side);
    SideOf(KEEP, k, side);
    SideOf(CUT, c, side);
    SideOf(PUT, p, side);
    SideOf(KEEP, t, side);
    assert k + [] == k && k + c + [] == k + c;
  }

  lemma BodySide(was: seq<Bytes>, next: seq<Bytes>, h: Hunk, side: u8)
    requires Within(h, was, next) && side in {CUT, PUT}
    ensures Side(Body(was, next, h), side)
            == was[h.start..h.prefix]
               + (if side == CUT then was[h.prefix..h.oldTail] else next[h.prefix..h.newTail])
               + was[h.oldTail..h.oldEnd]
  {
    FourSides(was[h.start..h.prefix], was[h.prefix..h.oldTail], next[h.prefix..h.newTail],
              was[h.oldTail..h.oldEnd], side);
  }

  /** Before the hunk, in its context and after it the two versions are the same lines. */
  ghost predicate Agrees(h: Hunk, was: seq<Bytes>, next: seq<Bytes>)
    requires Within(h, was, next)
  {
    && was[..h.prefix] == next[..h.prefix] && was[h.oldTail..] == next[h.newTail..]
    && h.oldEnd - h.oldTail == h.newEnd - h.newTail
  }

  lemma AroundAgrees(was: seq<Bytes>, next: seq<Bytes>, p: nat, s: nat, h: Hunk)
    requires p + s <= |was| && p + s <= |next| && h == Around(|was|, |next|, p, s)
    requires was[..p] == next[..p] && was[|was| - s..] == next[|next| - s..]
    ensures Within(h, was, next) && Agrees(h, was, next)
  {
  }

  lemma HunkAgrees(was: seq<Bytes>, next: seq<Bytes>, h: Hunk)
    requires h == HunkOf(was, next)
    ensures Agrees(h, was, next)
  {
    var p := Prefix(was, next, 0);
    var room := Min(|was|, |next|) - p;
    PrefixIs(was, next, 0);
    SuffixIs(was, next, room, 0);
    AroundAgrees(was, next, p, Suffix(was, next, room, 0), h);
  }

  lemma SpliceSides(was: seq<Bytes>, next: seq<Bytes>, h: Hunk)
    requires Within(h, was, next) && Agrees(h, was, next)
    ensures Side(Body(was, next, h), CUT) == was[h.start..h.oldEnd]
    ensures Side(Body(was, next, h), PUT) == next[h.start..h.newEnd]
    ensures was[..h.start] == next[..h.start] && was[h.oldEnd..] == next[h.newEnd..]
  {
    BodySide(was, next, h, CUT);
    BodySide(was, next, h, PUT);
    SliceJoin(was, h.start, h.prefix, h.oldTail, h.oldEnd);
    SliceJoin(next, h.start, h.prefix, h.newTail, h.newEnd);
    SliceOfPrefix(was, next, h.start, h.prefix);
    SliceOfSuffix(was, next, h.oldTail, h.newTail, h.oldEnd, h.newEnd);
  }

  lemma SliceJoin(s: seq<Bytes>, a: nat, b: nat, c: nat, d: nat)
    requires a <= b <= c <= d <= |s|
    ensures s[a..b] + s[b..c] + s[c..d] == s[a..d]
  {
  }

  lemma SliceOfPrefix(s: seq<Bytes>, t: seq<Bytes>, a: nat, b: nat)
    requires a <= b <= |s| && b <= |t| && s[..b] == t[..b]
    ensures s[..a] == t[..a] && s[a..b] == t[a..b]
  {
    assert s[..b][..a] == s[..a] && t[..b][..a] == t[..a];
    assert s[..b][a..] == s[a..b] && t[..b][a..] == t[a..b];
  }

  lemma SliceOfSuffix(s: seq<Bytes>, t: seq<Bytes>, a: nat, b: nat, c: nat, d: nat)
    requires a <= c <= |s| && b <= d <= |t| && c - a == d - b && s[a..] == t[b..]
    ensures s[c..] == t[d..] && s[a..c] == t[b..d]
  {
    assert s[a..][c - a..] == s[c..] && t[b..][d - b..] == t[d..];
    assert s[a..][..c - a] == s[a..c] && t[b..][..d - b] == t[b..d];
  }

  // ---- the round trip ----

  lemma SignedShown(sign: u8, ls: seq<Bytes>)
    requires sign in {KEEP, CUT, PUT} && forall l <- ls :: IsLine(l)
    ensures forall e <- Signed(sign, ls) :: Shown(e)
  {
  }

  ghost predicate AllLines(ls: seq<Bytes>) {
    forall l <- ls :: IsLine(l)
  }

  lemma LinesAreAll(d: Bytes)
    ensures AllLines(Lines(d))
  {
    LinesAre(d);
  }

  lemma BodyShown(was: seq<Bytes>, next: seq<Bytes>, h: Hunk)
    requires Within(h, was, next) && AllLines(was) && AllLines(next)
    ensures AllShown(Body(was, next, h))
  {
    SignedShown(KEEP, was[h.start..h.prefix]);
    SignedShown(CUT, was[h.prefix..h.oldTail]);
    SignedShown(PUT, next[h.prefix..h.newTail]);
    SignedShown(KEEP, was[h.oldTail..h.oldEnd]);
  }

  ghost predicate AllShown(body: seq<Entry>) {
    forall e <- body :: Shown(e)
  }

  /** A patch written out whole reads back. */
  lemma EmittedReads(p: Patch)
    requires AllShown(p.body) && Emit(Head(p), p.body).1
    ensures ReadPatch(Emit(Head(p), p.body).0) == Some(p)
  {
    EmitAll(Head(p), p.body);
    RenderedAre(p.body);
    HeaderReads(p.oldStart, p.oldCount, p.newStart, p.newCount, Rendered(p.body));
  }

  /** The patch names the ranges it replaces, and replaces them. */
  ghost predicate Turns(p: Patch, was: seq<Bytes>, next: seq<Bytes>) {
    var at, to := Before(p.oldStart, p.oldCount), Before(p.newStart, p.newCount);
    && 0 <= at && at + p.oldCount <= |was| && 0 <= to && to + p.newCount <= |next|
    && Side(p.body, CUT) == was[at..at + p.oldCount]
    && Side(p.body, PUT) == next[to..to + p.newCount]
    && Apply(p, was) == next
  }

  lemma PatchTurns(was: seq<Bytes>, next: seq<Bytes>, h: Hunk)
    requires Within(h, was, next) && Agrees(h, was, next)
    ensures Turns(PatchOf(was, next, h), was, next)
  {
    SpliceSides(was, next, h);
    FirstBefore(h.start, h.oldEnd);
    FirstBefore(h.start, h.newEnd);
    RangesTurn(PatchOf(was, next, h), was, next, h.start, h.oldEnd, h.newEnd);
  }

  /** A patch whose sides are the ranges from `a`, of versions that agree around them. */
  lemma RangesTurn(p: Patch, was: seq<Bytes>, next: seq<Bytes>, a: nat, b: nat, c: nat)
    requires a <= b <= |was| && a <= c <= |next| && was[..a] == next[..a] && was[b..] == next[c..]
    requires p.oldCount == b - a && Before(p.oldStart, p.oldCount) == a && Side(p.body, CUT) == was[a..b]
    requires p.newCount == c - a && Before(p.newStart, p.newCount) == a && Side(p.body, PUT) == next[a..c]
    ensures Turns(p, was, next)
  {
    Splice(was, next, a, b, c);
  }

  lemma FirstBefore(start: nat, end: nat)
    requires start <= end
    ensures Before(First(start, end), end - start) == start
  {
  }

  /**
   A diff that is not cut short reads back as a hunk whose counts are those of its body, whose old
   side is the lines of `before` it names and its new side those of `after`, and which turns `before`
   into `after` byte for byte, a missing final newline included.
   */
  lemma RoundTrip(before: Bytes, after: Bytes, utf8: Bytes -> bool)
    requires Written(before, after, utf8).Some? && Written(before, after, utf8).value.1
    ensures var r := ReadPatch(Written(before, after, utf8).value.0);
            r.Some? && Turns(r.value, Lines(before), Lines(after)) && Join(Apply(r.value, Lines(before))) == after
  {
    var was, next := Lines(before), Lines(after);
    LinesAreAll(before);
    LinesAreAll(after);
    HunkAgrees(was, next, HunkOf(was, next));
    var h := HunkOf(was, next);
    BodyShown(was, next, h);
    EmittedReads(PatchOf(was, next, h));
    PatchTurns(was, next, h);
    JoinLines(after);
  }

  lemma Splice(was: seq<Bytes>, next: seq<Bytes>, a: nat, b: nat, c: nat)
    requires a <= b <= |was| && a <= c <= |next| && was[..a] == next[..a] && was[b..] == next[c..]
    ensures was[..a] + next[a..c] + was[b..] == next
  {
  }

  /** What is kept, cut and put of a hunk: at most three lines kept on each side, the rest differs at both ends. */
  ghost predicate Tight(h: Hunk, was: seq<Bytes>, next: seq<Bytes>)
    requires Within(h, was, next)
  {
    && h.prefix - h.start == Min(3, h.prefix) && h.oldEnd - h.oldTail == Min(3, |was| - h.oldTail)
    && (h.prefix < h.oldTail && h.prefix < h.newTail ==>
          was[h.prefix] != next[h.prefix] && was[h.oldTail - 1] != next[h.newTail - 1])
  }

  lemma TightAround(was: seq<Bytes>, next: seq<Bytes>, p: nat, s: nat)
    requires p + s <= |was| && p + s <= |next|
    requires p == |was| || p == |next| || was[p] != next[p]
    requires p + s == |was| || p + s == |next| || was[|was| - 1 - s] != next[|next| - 1 - s]
    ensures Tight(Around(|was|, |next|, p, s), was, next)
  {
  }

  /** The hunk is as small as it can be: what it changes begins and ends with a difference. */
  lemma HunkIsTight(was: seq<Bytes>, next: seq<Bytes>)
    ensures Tight(HunkOf(was, next), was, next)
  {
    var p := Prefix(was, next, 0);
    var room := Min(|was|, |next|) - p;
    PrefixIs(was, next, 0);
    SuffixIs(was, next, room, 0);
    TightAround(was, next, p, Suffix(was, next, room, 0));
  }

  // ---- size and truncation ----

  lemma {:induction false} EmitSize(out: Bytes, es: seq<Entry>)
    requires |out| <= LIMIT - |MARKER|
    ensures |Emit(out, es).0| <= LIMIT
    decreases |es|
  {
    if es != [] && |out| + |Render(es[0])| <= LIMIT - |MARKER| {
      EmitSize(out + Render(es[0]), es[1..]);
    }
  }

  lemma {:induction false} LinesFew(d: Bytes)
    ensures |Lines(d)| <= |d|
    decreases |d|
  {
    if d != [] && Newline(d) < |d| {
      LinesFew(d[Newline(d) + 1..]);
    }
  }

  lemma HeadSmall(p: Patch)
    requires p.oldStart < 100000 && p.oldCount < 100000 && p.newStart < 100000 && p.newCount < 100000
    ensures |Head(p)| <= LIMIT - |MARKER|
  {
    DecimalShort(p.oldStart);
    DecimalShort(p.oldCount);
    DecimalShort(p.newStart);
    DecimalShort(p.newCount);
  }

  lemma PatchIsBounded(was: seq<Bytes>, next: seq<Bytes>, p: Patch)
    requires |was| <= LIMIT && |next| <= LIMIT && p == PatchOf(was, next, HunkOf(was, next))
    ensures |Emit(Head(p), p.body).0| <= LIMIT
  {
    HeadSmall(p);
    EmitSize(Head(p), p.body);
  }

  /** No diff is over 64 KiB, whatever the two versions are. */
  lemma DiffIsBounded(before: Bytes, after: Bytes, utf8: Bytes -> bool)
    ensures Written(before, after, utf8).Some? ==> |Written(before, after, utf8).value.0| <= 65536
  {
    if |before| <= LIMIT && |after| <= LIMIT {
      LinesFew(before);
      LinesFew(after);
      PatchIsBounded(Lines(before), Lines(after),
                     PatchOf(Lines(before), Lines(after), HunkOf(Lines(before), Lines(after))));
    }
  }

  // ---- what a diff that was cut short looks like ----

  predicate EndsLine(text: Bytes) {
    text != [] && text[|text| - 1] == NL
  }

  lemma RenderEnds(e: Entry)
    ensures EndsLine(Render(e))
  {
    if Tail(e.line) == [] {
      assert Render(e)[|Render(e)| - 1] == e.line[|e.line| - 1];
    }
  }

  lemma JoinEnds(a: Bytes, b: Bytes)
    requires EndsLine(a) && (b == [] || EndsLine(b))
    ensures EndsLine(a + b)
  {
  }

  /** What is rendered ends where a line ends. */
  lemma {:induction false} RenderedCloses(es: seq<Entry>)
    ensures Rendered(es) == [] || EndsLine(Rendered(es))
  {
    if es != [] {
      RenderedCloses(es[1..]);
      RenderEnds(es[0]);
      JoinEnds(Render(es[0]), Rendered(es[1..]));
    }
  }

  /** What is emitted: the head, a beginning of the entries, and then the marker unless it was all. */
  lemma {:induction false} EmitPrefix(out: Bytes, es: seq<Entry>) returns (n: nat)
    ensures n <= |es| && (Emit(out, es).1 <==> n == |es|)
    ensures Emit(out, es).0 == out + Rendered(es[..n]) + (if n == |es| then [] else MARKER)
    decreases |es|
  {
    if es == [] {
      n := 0;
    } else if |out| + |Render(es[0])| > LIMIT - |MARKER| {
      n := 0;
      assert es[..0] == [] && out + [] == out;
    } else {
      var m := EmitPrefix(out + Render(es[0]), es[1..]);
      n := m + 1;
      var some := es[1..][..m];
      assert es[..n] == [es[0]] + some && es[..n][1..] == some;
      Assoc(out, Render(es[0]), Rendered(some));
    }
  }

  /** What may be written before the marker. */
  const ROOM: int := LIMIT - |MARKER|

  /** Everything is emitted exactly when all of it leaves room for the marker. */
  lemma {:induction false} EmitsAll(out: Bytes, es: seq<Entry>)
    ensures Emit(out, es).1 <==> es == [] || |out| + |Rendered(es)| <= ROOM
    decreases |es|
  {
    if es != [] {
      EmitsAll(out + Render(es[0]), es[1..]);
    }
  }

  /** Otherwise as many entries are as leave it, and the next one would not. */
  lemma {:induction false} EmitsMost(out: Bytes, es: seq<Entry>) returns (n: nat)
    requires !Emit(out, es).1
    ensures n < |es| && Emit(out, es).0 == out + Rendered(es[..n]) + MARKER
    ensures (n > 0 ==> |out| + |Rendered(es[..n])| <= ROOM) && |out| + |Rendered(es[..n + 1])| > ROOM
    decreases |es|
  {
    if |out| + |Render(es[0])| > ROOM {
      n := 0;
      assert es[..0] == [] && out + [] == out;
      assert es[..1][0] == es[0];
    } else {
      var m := EmitsMost(out + Render(es[0]), es[1..]);
      n := m + 1;
      FirstRendered(es, m);
      FirstRendered(es, m + 1);
      Assoc(out, Render(es[0]), Rendered(es[1..][..m]));
    }
  }

  lemma FirstRendered(es: seq<Entry>, m: nat)
    requires m < |es|
    ensures Rendered(es[..m + 1]) == Render(es[0]) + Rendered(es[1..][..m])
  {
    assert es[..m + 1][0] == es[0] && es[..m + 1][1..] == es[1..][..m];
  }

  lemma LastAlone(e: Entry)
    requires Shown(e)
    ensures Lines(Render(e)) != [] && !EndsWithMarker(Render(e))
  {
    RenderLines(e, []);
    NotMarker(e);
    assert Render(e) + [] == Render(e) && RenderedLines(e) + [] == RenderedLines(e);
    assert RenderedLines(e)[|RenderedLines(e)| - 1] in RenderedLines(e);
  }

  lemma {:induction false} RenderedSnoc(es: seq<Entry>, e: Entry)
    ensures Rendered(es + [e]) == Rendered(es) + Render(e)
  {
    if es == [] {
      assert es + [e] == [e] && Rendered([e]) == Render(e) + [];
    } else {
      HeadTail(es[0], es[1..], [e]);
      assert es == [es[0]] + es[1..];
      RenderedSnoc(es[1..], e);
      Assoc(Render(es[0]), Rendered(es[1..]), Render(e));
    }
  }

  lemma LastOfTwo(a: seq<Bytes>, b: seq<Bytes>)
    requires b != []
    ensures a + b != [] && (a + b)[|a + b| - 1] == b[|b| - 1]
  {
  }

  lemma NotMarker(e: Entry)
    requires Shown(e)
    ensures forall l <- RenderedLines(e) :: l != MARKER
  {
    MarkerIsLine();
    UnendedIsLine();
  }

  /** The last line, if there is any. */
  function LastLine(out: Bytes): Bytes {
    var ls := Lines(out);
    if ls == [] then [] else ls[|ls| - 1]
  }

  predicate EndsWithMarker(out: Bytes) {
    LastLine(out) == MARKER
  }

  lemma AppendedLast(text: Bytes, more: Bytes)
    requires (text == [] || EndsLine(text)) && Lines(more) != []
    ensures Lines(text + more) != [] && LastLine(text + more) == LastLine(more)
  {
    LinesAfter(text, more);
    LastOfTwo(Lines(text), Lines(more));
  }

  /** The last line of what is rendered is not the marker. */
  lemma LastOfRendered(es: seq<Entry>)
    requires AllShown(es) && es != []
    ensures Lines(Rendered(es)) != [] && !EndsWithMarker(Rendered(es))
  {
    var init, e := es[..|es| - 1], es[|es| - 1];
    assert e in es && es == init + [e];
    RenderedSnoc(init, e);
    RenderedCloses(init);
    LastAlone(e);
    AppendedLast(Rendered(init), Render(e));
  }

  lemma WholeHasNoMarker(head: Bytes, es: seq<Entry>)
    requires EndsLine(head) && AllShown(es) && es != []
    ensures !EndsWithMarker(head + Rendered(es))
  {
    LastOfRendered(es);
    AppendedLast(head, Rendered(es));
  }

  lemma CutHasMarker(head: Bytes, es: seq<Entry>)
    requires EndsLine(head)
    ensures EndsWithMarker(head + Rendered(es) + MARKER)
  {
    MarkerIsLine();
    RenderedCloses(es);
    LinesAfter(head + Rendered(es), MARKER);
    LinesFirst(MARKER, []);
    assert MARKER + [] == MARKER;
  }

  /** A diff says of itself whether it was cut short: its last line is the marker exactly when it was. */
  lemma CutIsShown(head: Bytes, es: seq<Entry>)
    requires EndsLine(head) && AllShown(es) && es != []
    ensures EndsWithMarker(Emit(head, es).0) <==> !Emit(head, es).1
  {
    var n := EmitPrefix(head, es);
    if n == |es| {
      WholeHasNoMarker(head, es);
      assert es[..n] == es && head + Rendered(es) + [] == head + Rendered(es);
    } else {
      CutHasMarker(head, es[..n]);
    }
  }

  lemma HeadEndsLine(p: Patch)
    ensures EndsLine(Head(p))
  {
  }

  /** A change leaves something to show. */
  lemma BodyNotEmpty(before: Bytes, after: Bytes)
    requires before != after
    ensures var was, next := Lines(before), Lines(after); PatchOf(was, next, HunkOf(was, next)).body != []
  {
    var was, next := Lines(before), Lines(after);
    JoinLines(before);
    JoinLines(after);
    HunkAgrees(was, next, HunkOf(was, next));
    PatchTurns(was, next, HunkOf(was, next));
    EmptyTurns(PatchOf(was, next, HunkOf(was, next)), was, next);
  }

  lemma EmptyTurns(p: Patch, was: seq<Bytes>, next: seq<Bytes>)
    requires Turns(p, was, next)
    ensures p.body == [] ==> was == next
  {
    if p.body == [] {
      var at := Before(p.oldStart, p.oldCount);
      assert |was[at..at + p.oldCount]| == 0;
      assert was == was[..at] + [] + was[at..];
    }
  }

  /** The last line of a diff says whether it was cut short. */
  lemma TruncationIsVisible(before: Bytes, after: Bytes, utf8: Bytes -> bool)
    requires Written(before, after, utf8).Some?
    ensures EndsWithMarker(Written(before, after, utf8).value.0) <==> !Written(before, after, utf8).value.1
  {
    var was, next := Lines(before), Lines(after);
    LinesAreAll(before);
    LinesAreAll(after);
    BodyShown(was, next, HunkOf(was, next));
    BodyNotEmpty(before, after);
    var p := PatchOf(was, next, HunkOf(was, next));
    HeadEndsLine(p);
    CutIsShown(Head(p), p.body);
  }

  // ---- which diff is written ----

  /** The hunk of two versions as it would be written. */
  function PatchFor(before: Bytes, after: Bytes): Patch {
    PatchOf(Lines(before), Lines(after), HunkOf(Lines(before), Lines(after)))
  }

  /** What is left of a hunk that does not fit: its first `n` entries, and the marker. */
  ghost predicate CutAt(out: Bytes, p: Patch, n: nat) {
    && n < |p.body| && out == Head(p) + Rendered(p.body[..n]) + MARKER
    && (n > 0 ==> |Head(p)| + |Rendered(p.body[..n])| <= ROOM)
    && |Head(p)| + |Rendered(p.body[..n + 1])| > ROOM
  }

  /**
   A diff is written exactly of two different versions of at most 64 KiB of text each. It is the whole hunk
   exactly when that leaves room for the marker within 64 KiB; and otherwise as many entries as do, and the
   marker.
   */
  lemma WrittenExactly(before: Bytes, after: Bytes, utf8: Bytes -> bool)
    ensures Written(before, after, utf8).Some? <==>
            && before != after && |before| <= 65536 && |after| <= 65536
            && 0 !in before && 0 !in after && utf8(before) && utf8(after)
    ensures Written(before, after, utf8).Some? ==>
              var (out, whole) := Written(before, after, utf8).value;
              var p := PatchFor(before, after);
              && (whole <==> |Head(p)| + |Rendered(p.body)| <= ROOM)
              && (if whole then out == Head(p) + Rendered(p.body) else exists n: nat :: CutAt(out, p, n))
  {
    var p := PatchFor(before, after);
    if Written(before, after, utf8).Some? {
      BodyNotEmpty(before, after);
      EmitsAll(Head(p), p.body);
      EmitAll(Head(p), p.body);
      if !Emit(Head(p), p.body).1 {
        var n := EmitsMost(Head(p), p.body);
        assert CutAt(Emit(Head(p), p.body).0, p, n);
      }
    }
  }

  /** A hunk keeps, then cuts, then puts, then keeps: what is gone stands before what has come. */
  lemma HunkInOrder(before: Bytes, after: Bytes, i: nat)
    requires i < |PatchFor(before, after).body|
    ensures var h := HunkOf(Lines(before), Lines(after));
            var a, b, c := h.prefix - h.start, h.oldTail - h.start, h.oldTail - h.start + h.newTail - h.prefix;
            PatchFor(before, after).body[i].sign
            == if i < a then KEEP else if i < b then CUT else if i < c then PUT else KEEP
  {
  }
}
