/**
 The bounded one-hunk unified diff an agent run shows, as a function of the two versions, and what a
 reader of unified diffs makes of it: the hunk it reads back turns the first version into the second.
 Whether bytes are UTF-8 is a parameter, as is nothing else.
 */
module Diff {
  import opened Prelude
  import opened Text

  const LIMIT: nat := 65536
  const MARKER := Ascii("\\ Diff truncated at 64 KiB; display only") + [NL]
  const UNENDED := Ascii("\\ No newline at end of file") + [NL]
  const OPEN := Ascii("--- before\n+++ after\n@@ -")
  const COMMA := Ascii(",")
  const PLUS := Ascii(" +")
  const SHUT := Ascii(" @@\n")
  const KEEP: u8 := 32
  const CUT: u8 := 45
  const PUT: u8 := 43
  const NOTE: u8 := 92

  datatype Entry = Entry(sign: u8, line: Bytes)

  /** How many first lines the two have in common, from the `p` already found. */
  function Prefix(a: seq<Bytes>, b: seq<Bytes>, p: nat): (r: nat)
    requires p <= |a| && p <= |b|
    ensures p <= r <= |a| && r <= |b|
    decreases |a| - p
  {
    if p < |a| && p < |b| && a[p] == b[p] then Prefix(a, b, p + 1) else p
  }

  lemma {:induction false} PrefixIs(a: seq<Bytes>, b: seq<Bytes>, p: nat)
    requires p <= |a| && p <= |b| && a[..p] == b[..p]
    ensures var r := Prefix(a, b, p); a[..r] == b[..r] && (r == |a| || r == |b| || a[r] != b[r])
    decreases |a| - p
  {
    if p < |a| && p < |b| && a[p] == b[p] {
      assert a[..p + 1] == a[..p] + [a[p]] && b[..p + 1] == b[..p] + [b[p]];
      PrefixIs(a, b, p + 1);
    }
  }

  /** How many last lines, from the `s` already found and up to `room`. */
  function Suffix(a: seq<Bytes>, b: seq<Bytes>, room: nat, s: nat): (r: nat)
    requires s <= room <= |a| && room <= |b|
    ensures s <= r <= room
    decreases room - s
  {
    if s < room && a[|a| - 1 - s] == b[|b| - 1 - s] then Suffix(a, b, room, s + 1) else s
  }

  lemma {:induction false} SuffixIs(a: seq<Bytes>, b: seq<Bytes>, room: nat, s: nat)
    requires s <= room <= |a| && room <= |b| && a[|a| - s..] == b[|b| - s..]
    ensures var r := Suffix(a, b, room, s);
            a[|a| - r..] == b[|b| - r..] && (r == room || a[|a| - 1 - r] != b[|b| - 1 - r])
    decreases room - s
  {
    if s < room && a[|a| - 1 - s] == b[|b| - 1 - s] {
      TailGrows(a, b, s);
      SuffixIs(a, b, room, s + 1);
    }
  }

  lemma TailGrows(a: seq<Bytes>, b: seq<Bytes>, s: nat)
    requires s < |a| && s < |b| && a[|a| - s..] == b[|b| - s..] && a[|a| - 1 - s] == b[|b| - 1 - s]
    ensures a[|a| - (s + 1)..] == b[|b| - (s + 1)..]
  {
    assert a[|a| - (s + 1)..] == [a[|a| - 1 - s]] + a[|a| - s..];
    assert b[|b| - (s + 1)..] == [b[|b| - 1 - s]] + b[|b| - s..];
  }

  /** The one hunk: the lines that differ, and up to three around them. */
  datatype Hunk = Hunk(start: nat, prefix: nat, oldTail: nat, newTail: nat, oldEnd: nat, newEnd: nat)

  predicate Within(h: Hunk, was: seq<Bytes>, next: seq<Bytes>) {
    h.start <= h.prefix <= h.oldTail <= h.oldEnd <= |was| && h.prefix <= h.newTail <= h.newEnd <= |next|
  }

  /** The hunk for a common start of `p` lines and a common end of `s`. */
  function Around(n: nat, m: nat, p: nat, s: nat): (h: Hunk)
    requires p + s <= n && p + s <= m
  {
    Hunk(Max(0, p - 3), p, n - s, m - s, Min(n, n - s + 3), Min(m, m - s + 3))
  }

  function HunkOf(was: seq<Bytes>, next: seq<Bytes>): (h: Hunk)
    ensures Within(h, was, next)
  {
    var p := Prefix(was, next, 0);
    Around(|was|, |next|, p, Suffix(was, next, Min(|was|, |next|) - p, 0))
  }

  function Signed(sign: u8, ls: seq<Bytes>): (es: seq<Entry>)
    ensures |es| == |ls|
  {
    seq(|ls|, i requires 0 <= i < |ls| => Entry(sign, ls[i]))
  }

  function Body(was: seq<Bytes>, next: seq<Bytes>, h: Hunk): seq<Entry>
    requires Within(h, was, next)
  {
    Signed(KEEP, was[h.start..h.prefix]) + Signed(CUT, was[h.prefix..h.oldTail])
    + Signed(PUT, next[h.prefix..h.newTail]) + Signed(KEEP, was[h.oldTail..h.oldEnd])
  }

  function First(start: nat, end: nat): nat {
    if end == start then start else start + 1
  }

  function Framed(a: nat, b: nat, c: nat, d: nat): Bytes {
    OPEN + Decimal(a) + COMMA + Decimal(b) + PLUS + Decimal(c) + COMMA + Decimal(d) + SHUT
  }

  /** A hunk as its header and body give it. */
  datatype Patch = Patch(oldStart: nat, oldCount: nat, newStart: nat, newCount: nat, body: seq<Entry>)

  function PatchOf(was: seq<Bytes>, next: seq<Bytes>, h: Hunk): Patch
    requires Within(h, was, next)
  {
    Patch(First(h.start, h.oldEnd), h.oldEnd - h.start, First(h.start, h.newEnd), h.newEnd - h.start,
          Body(was, next, h))
  }

  function Head(p: Patch): Bytes {
    Framed(p.oldStart, p.oldCount, p.newStart, p.newCount)
  }

  function Tail(line: Bytes): Bytes {
    if line != [] && line[|line| - 1] == NL then [] else [NL] + UNENDED
  }

  function Render(e: Entry): Bytes {
    [e.sign] + e.line + Tail(e.line)
  }

  /** Lines are added while they leave room for the marker; then the marker ends the diff. */
  function Emit(out: Bytes, es: seq<Entry>): (Bytes, bool)
    decreases |es|
  {
    if es == [] then (out, true)
    else if |out| + |Render(es[0])| > LIMIT - |MARKER| then (out + MARKER, false)
    else Emit(out + Render(es[0]), es[1..])
  }

  predicate Diffable(d: Bytes, utf8: Bytes -> bool) {
    |d| <= LIMIT && 0 !in d && utf8(d)
  }

  /** `writeDiff`; nothing when a version is unfit for it or nothing changed. */
  function Written(before: Bytes, after: Bytes, utf8: Bytes -> bool): Option<(Bytes, bool)> {
    if !Diffable(before, utf8) || !Diffable(after, utf8) || before == after then None
    else
      var was, next := Lines(before), Lines(after);
      var p := PatchOf(was, next, HunkOf(was, next));
      Some(Emit(Head(p), p.body))
  }

  // ---- a reader of unified diffs ----

  function Expect(d: Bytes, lit: Bytes): Option<Bytes> {
    if |lit| <= |d| && d[..|lit|] == lit then Some(d[|lit|..]) else None
  }

  function Number(d: Bytes): (nat, Bytes) {
    var k := Digits(d);
    DigitsAre(d);
    (Value(d[..k]), d[k..])
  }

  lemma {:induction false} DigitsAre(d: Bytes)
    ensures forall b <- d[..Digits(d)] :: IsDigit(b)
  {
    if d != [] && IsDigit(d[0]) {
      DigitsAre(d[1..]);
      assert d[..Digits(d)] == [d[0]] + d[1..][..Digits(d[1..])];
    }
  }

  function Mark(l: Bytes): u8 {
    if l == [] then 0 else l[0]
  }

  /** A line without its sign; and, when a note follows, without its newline. */
  function Content(l: Bytes, noted: bool): Bytes {
    var end := if noted then |l| - 1 else |l|;
    if end <= 1 then [] else l[1..end]
  }

  /** A line that starts with a backslash takes the newline from the one before it. */
  function ReadBody(ls: seq<Bytes>): seq<Entry>
    decreases |ls|
  {
    if ls == [] then []
    else
      var noted := |ls| >= 2 && Mark(ls[1]) == NOTE;
      [Entry(Mark(ls[0]), Content(ls[0], noted))] + ReadBody(if noted then ls[2..] else ls[1..])
  }

  function ReadRange(d: Bytes, lit: Bytes): Option<(nat, nat, Bytes)> {
    var a := Expect(d, lit);
    if a.None? then None
    else
      var (start, rest) := Number(a.value);
      var b := Expect(rest, COMMA);
      if b.None? then None
      else
        var (count, more) := Number(b.value);
        Some((start, count, more))
  }

  function ReadPatch(d: Bytes): Option<Patch> {
    var was := ReadRange(d, OPEN);
    if was.None? then None
    else
      var next := ReadRange(was.value.2, PLUS);
      if next.None? then None
      else
        var body := Expect(next.value.2, SHUT);
        if body.None? then None
        else
          Some(Patch(was.value.0, was.value.1, next.value.0, next.value.1, ReadBody(Lines(body.value))))
  }

  /** The lines of one side: the kept ones and those with its sign. */
  function Side(body: seq<Entry>, sign: u8): seq<Bytes> {
    if body == [] then []
    else (if body[0].sign in {KEEP, sign} then [body[0].line] else []) + Side(body[1..], sign)
  }

  /** Lines before the hunk: an empty range names the line it comes after. */
  function Before(start: nat, count: nat): int {
    if count == 0 then start else start - 1
  }

  function Apply(p: Patch, ls: seq<Bytes>): seq<Bytes>
    requires 0 <= Before(p.oldStart, p.oldCount) && Before(p.oldStart, p.oldCount) + p.oldCount <= |ls|
  {
    var at := Before(p.oldStart, p.oldCount);
    ls[..at] + Side(p.body, PUT) + ls[at + p.oldCount..]
  }

  // ---- reading back ----

  function Rendered(es: seq<Entry>): Bytes {
    if es == [] then [] else Render(es[0]) + Rendered(es[1..])
  }

  /** What the diff consists of when it was not cut short. */
  lemma {:induction false} EmitAll(out: Bytes, es: seq<Entry>)
    ensures Emit(out, es).1 ==> Emit(out, es).0 == out + Rendered(es)
    decreases |es|
  {
    if es == [] {
      assert out + [] == out;
    } else {
      EmitAll(out + Render(es[0]), es[1..]);
      Assoc(out, Render(es[0]), Rendered(es[1..]));
    }
  }

  predicate Shown(e: Entry) {
    e.sign in {KEEP, CUT, PUT} && IsLine(e.line)
  }

  function RenderedLines(e: Entry): seq<Bytes> {
    if Ended(e.line) then [[e.sign] + e.line] else [[e.sign] + e.line + [NL], UNENDED]
  }

  lemma UnendedIsLine()
    ensures Ended(UNENDED) && UNENDED[0] == NOTE
  {
    AsciiLine("\\ No newline at end of file");
  }

  lemma MarkerIsLine()
    ensures Ended(MARKER) && |MARKER| != |UNENDED| && MARKER[0] == NOTE
  {
    AsciiLine("\\ Diff truncated at 64 KiB; display only");
  }

  /** A sign in front of a line makes a line. */
  lemma SignedLine(sign: u8, line: Bytes)
    requires sign in {KEEP, CUT, PUT} && IsLine(line)
    ensures Ended(line) ==> Ended([sign] + line)
    ensures !Ended(line) ==> Ended([sign] + line + [NL]) && line[|line| - 1] != NL
  {
    var l := [sign] + line;
    if Ended(line) {
      NewlineIs(l, |l| - 1);
    } else {
      NewlineIs(l + [NL], |l|);
    }
  }

  lemma RenderLines(e: Entry, rest: Bytes)
    requires Shown(e)
    ensures Lines(Render(e) + rest) == RenderedLines(e) + Lines(rest)
  {
    SignedLine(e.sign, e.line);
    var l := [e.sign] + e.line;
    if Ended(e.line) {
      assert Render(e) == l;
      LinesFirst(l, rest);
    } else {
      UnendedIsLine();
      NotedLines(l + [NL], UNENDED, rest);
      Assoc(l, [NL], UNENDED);
    }
  }

  lemma NotedLines(l: Bytes, note: Bytes, rest: Bytes)
    requires Ended(l) && Ended(note)
    ensures Lines(l + note + rest) == [l, note] + Lines(rest)
  {
    LinesFirst(note, rest);
    LinesFirst(l, note + rest);
    Assoc(l, note, rest);
    Assoc([l], [note], Lines(rest));
  }

  /** Reading the lines of one entry gives the entry, when no note follows that is not its own. */
  lemma EntryReads(e: Entry, rest: seq<Bytes>)
    requires Shown(e) && (rest != [] ==> Mark(rest[0]) != NOTE)
    ensures ReadBody(RenderedLines(e) + rest) == [e] + ReadBody(rest)
    ensures Mark((RenderedLines(e) + rest)[0]) == e.sign
  {
    var ls, l := RenderedLines(e) + rest, [e.sign] + e.line;
    if Ended(e.line) {
      assert ls[0] == l && ls[1..] == rest;
      assert Content(l, false) == e.line;
    } else {
      UnendedIsLine();
      assert ls[0] == l + [NL] && ls[1] == UNENDED && ls[2..] == rest;
      assert Content(l + [NL], true) == e.line;
    }
  }

  lemma {:induction false} RenderedAre(es: seq<Entry>)
    requires forall e <- es :: Shown(e)
    ensures ReadBody(Lines(Rendered(es))) == es
    ensures es != [] ==> Lines(Rendered(es)) != [] && Mark(Lines(Rendered(es))[0]) == es[0].sign
    ensures es == [] ==> Lines(Rendered(es)) == []
  {
    if es != [] {
      var e, rest := es[0], es[1..];
      assert es == [e] + rest && Shown(e) && forall x <- rest :: x in es;
      RenderedAre(rest);
      assert rest != [] ==> rest[0] in rest;
      RenderLines(e, Rendered(rest));
      EntryReads(e, Lines(Rendered(rest)));
    }
  }

  lemma NumberReads(n: nat, rest: Bytes)
    requires rest != [] && !IsDigit(rest[0])
    ensures Number(Decimal(n) + rest) == (n, rest)
  {
    DecimalDigits(n);
    DigitsOf(Decimal(n), rest);
  }

  lemma Expected(lit: Bytes, rest: Bytes)
    ensures Expect(lit + rest, lit) == Some(rest)
  {
  }

  lemma RangeReads(lit: Bytes, start: nat, count: nat, rest: Bytes)
    requires rest != [] && !IsDigit(rest[0])
    ensures ReadRange(lit + (Decimal(start) + (COMMA + (Decimal(count) + rest))), lit) == Some((start, count, rest))
  {
    AsciiFirst(",");
    Expected(lit, Decimal(start) + (COMMA + (Decimal(count) + rest)));
    NumberReads(start, COMMA + (Decimal(count) + rest));
    Expected(COMMA, Decimal(count) + rest);
    NumberReads(count, rest);
  }

  /** The header, bracketed the way it is read. */
  lemma HeaderSplits(open: Bytes, a: Bytes, comma: Bytes, b: Bytes, plus: Bytes,
                     c: Bytes, d: Bytes, shut: Bytes, body: Bytes)
    ensures open + a + comma + b + plus + c + comma + d + shut + body
            == open + (a + (comma + (b + (plus + (c + (comma + (d + (shut + body))))))))
  {
    Assoc(open + a + comma + b + plus + c + comma + d, shut, body);
    var r := shut + body;
    Assoc(open + a + comma + b + plus + c + comma, d, r);
    Assoc(open + a + comma + b + plus + c, comma, d + r);
    Assoc(open + a + comma + b + plus, c, comma + (d + r));
    Assoc(open + a + comma + b, plus, c + (comma + (d + r)));
    Assoc(open + a + comma, b, plus + (c + (comma + (d + r))));
    Assoc(open + a, comma, b + (plus + (c + (comma + (d + r)))));
    Assoc(open, a, comma + (b + (plus + (c + (comma + (d + r))))));
  }

  lemma PatchReads(a: nat, b: nat, c: nat, d: nat, body: Bytes)
    ensures ReadPatch(OPEN + (Decimal(a) + (COMMA + (Decimal(b) +
                        (PLUS + (Decimal(c) + (COMMA + (Decimal(d) + (SHUT + body)))))))))
            == Some(Patch(a, b, c, d, ReadBody(Lines(body))))
  {
    AsciiFirst(" +");
    AsciiFirst(" @@\n");
    var last := SHUT + body;
    RangeReads(OPEN, a, b, PLUS + (Decimal(c) + (COMMA + (Decimal(d) + last))));
    RangeReads(PLUS, c, d, last);
    Expected(SHUT, body);
  }

  lemma HeaderReads(a: nat, b: nat, c: nat, d: nat, body: Bytes)
    ensures ReadPatch(Framed(a, b, c, d) + body) == Some(Patch(a, b, c, d, ReadBody(Lines(body))))
  {
    HeaderSplits(OPEN, Decimal(a), COMMA, Decimal(b), PLUS, Decimal(c), Decimal(d), SHUT, body);
    PatchReads(a, b, c, d, body);
  }
}
