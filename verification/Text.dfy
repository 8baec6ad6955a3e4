/** Bytes as text: lines that keep their newline, and decimal numbers. */
module Text {
  import opened Prelude

  const NL: u8 := 10

  function Ascii(s: string): (b: Bytes)
    requires forall c <- s :: c < 128 as char
    ensures |b| == |s|
  {
    seq(|s|, i requires 0 <= i < |s| => assert s[i] in s; s[i] as u8)
  }

  lemma AsciiFirst(s: string)
    requires s != "" && forall c <- s :: c < 128 as char
    ensures Ascii(s)[0] as int == s[0] as int
  {
    assert s[0] in s;
  }

  /** The index of the first newline, or the length. */
  function Newline(d: Bytes): (i: nat)
    ensures i <= |d| && (i < |d| ==> d[i] == NL) && forall j :: 0 <= j < i ==> d[j] != NL
  {
    if d == [] || d[0] == NL then 0 else 1 + Newline(d[1..])
  }

  /** `SplitAfter` at newlines, without the empty piece after a final one. */
  function Lines(d: Bytes): seq<Bytes>
    decreases |d|
  {
    if d == [] then []
    else
      var i := Newline(d);
      if i == |d| then [d] else [d[..i + 1]] + Lines(d[i + 1..])
  }

  function Join(ls: seq<Bytes>): Bytes {
    if ls == [] then [] else ls[0] + Join(ls[1..])
  }

  /** A line that a newline ends. */
  predicate Ended(l: Bytes) {
    l != [] && Newline(l) == |l| - 1
  }

  /** A line of a file: ended, or its last one without a newline. */
  predicate IsLine(l: Bytes) {
    l != [] && |l| - 1 <= Newline(l)
  }

  lemma JoinCons(l: Bytes, ls: seq<Bytes>)
    ensures Join([l] + ls) == l + Join(ls)
  {
    assert ([l] + ls)[1..] == ls;
  }

  lemma {:induction false} JoinLines(d: Bytes)
    ensures Join(Lines(d)) == d
    decreases |d|
  {
    if d != [] {
      var i := Newline(d);
      if i < |d| {
        var l, rest := d[..i + 1], d[i + 1..];
        JoinLines(rest);
        JoinCons(l, Lines(rest));
        assert d == l + rest;
      } else {
        JoinCons(d, []);
        assert [d] + [] == [d] && d + [] == d;
      }
    }
  }

  lemma NewlineIs(d: Bytes, i: nat)
    requires i <= |d| && (i < |d| ==> d[i] == NL) && forall j :: 0 <= j < i ==> d[j] != NL
    ensures Newline(d) == i
  {
  }

  lemma AsciiLine(s: string)
    requires forall c <- s :: c < 128 as char && c != '\n'
    ensures Ended(Ascii(s) + [NL]) && (s != "" ==> (Ascii(s) + [NL])[0] == s[0] as u8)
  {
    forall j | 0 <= j < |s| ensures Ascii(s)[j] != NL {
      assert s[j] in s;
    }
    NewlineIs(Ascii(s) + [NL], |s|);
  }

  /** Every line is one, and only the last can lack its newline. */
  lemma {:induction false} LinesAre(d: Bytes)
    ensures forall k :: 0 <= k < |Lines(d)| ==> IsLine(Lines(d)[k])
    ensures forall k :: 0 <= k < |Lines(d)| - 1 ==> Ended(Lines(d)[k])
    decreases |d|
  {
    if d != [] {
      var i := Newline(d);
      if i < |d| {
        LinesAre(d[i + 1..]);
        NewlineIs(d[..i + 1], i);
      }
    }
  }

  /** An ended line in front is the first line. */
  lemma LinesFirst(l: Bytes, rest: Bytes)
    requires Ended(l)
    ensures Lines(l + rest) == [l] + Lines(rest)
  {
    NewlineIs(l + rest, |l| - 1);
    assert (l + rest)[..|l|] == l && (l + rest)[|l|..] == rest;
  }

  lemma LineThen(l: Bytes, more: Bytes, rest: Bytes)
    requires Ended(l) && Lines(more + rest) == Lines(more) + Lines(rest)
    ensures Lines(l + more + rest) == Lines(l + more) + Lines(rest)
  {
    LinesFirst(l, more + rest);
    LinesFirst(l, more);
    Assoc(l, more, rest);
    Assoc([l], Lines(more), Lines(rest));
  }

  /** After the end of a line, the lines go on. */
  lemma {:induction false} LinesAfter(text: Bytes, rest: Bytes)
    requires text == [] || text[|text| - 1] == NL
    ensures Lines(text + rest) == Lines(text) + Lines(rest)
    decreases |text|
  {
    if text == [] {
      assert text + rest == rest && Lines(text) + Lines(rest) == Lines(rest);
    } else {
      var i := Newline(text);
      var l, more := text[..i + 1], text[i + 1..];
      assert text == l + more;
      NewlineIs(l, i);
      LinesAfter(more, rest);
      LineThen(l, more, rest);
    }
  }

  lemma {:induction false} JoinSnoc(ls: seq<Bytes>, l: Bytes)
    ensures Join(ls + [l]) == Join(ls) + l
  {
    JoinAppend(ls, [l]);
    JoinCons(l, []);
    assert [l] + [] == [l] && l + [] == l;
  }

  ghost predicate AllEnded(ls: seq<Bytes>) {
    forall l <- ls :: Ended(l)
  }

  /** There is one way to cut a text into ended lines and what is left. */
  lemma {:induction false} LinesAreUnique(ls: seq<Bytes>, last: Bytes)
    requires AllEnded(ls) && (last == [] || (IsLine(last) && Newline(last) == |last|))
    ensures Lines(Join(ls) + last) == ls + (if last == [] then [] else [last])
  {
    if ls == [] {
      assert Join(ls) + last == last;
      assert last != [] ==> Lines(last) == [last];
      assert ls + [last] == [last];
    } else {
      var l, rest := ls[0], ls[1..];
      assert l in ls && forall x <- rest :: x in ls;
      LinesAreUnique(rest, last);
      LinesFirst(l, Join(rest) + last);
      Assoc(l, Join(rest), last);
      Assoc([l], rest, if last == [] then [] else [last]);
      assert ls == [l] + rest;
    }
  }

  lemma {:induction false} JoinAppend(a: seq<Bytes>, b: seq<Bytes>)
    ensures Join(a + b) == Join(a) + Join(b)
  {
    if a == [] {
      assert a + b == b;
    } else {
      HeadTail(a[0], a[1..], b);
      assert a == [a[0]] + a[1..];
      JoinAppend(a[1..], b);
    }
  }

  // ---- numbers ----

  predicate IsDigit(b: u8) {
    48 <= b <= 57
  }

  function Decimal(n: nat): Bytes
    decreases n
  {
    if n < 10 then [(48 + n) as u8] else Decimal(n / 10) + [(48 + n % 10) as u8]
  }

  /** How many digits the text begins with. */
  function Digits(d: Bytes): (k: nat)
    ensures k <= |d|
  {
    if d == [] || !IsDigit(d[0]) then 0 else 1 + Digits(d[1..])
  }

  function Value(d: Bytes): nat
    requires forall b <- d :: IsDigit(b)
    decreases |d|
  {
    if d == [] then 0 else assert IsDigit(d[|d| - 1]); 10 * Value(d[..|d| - 1]) + (d[|d| - 1] as int - 48)
  }

  lemma {:induction false} DecimalDigits(n: nat)
    ensures Decimal(n) != [] && (forall b <- Decimal(n) :: IsDigit(b)) && Value(Decimal(n)) == n
    decreases n
  {
    if n >= 10 {
      DecimalDigits(n / 10);
      var d := Decimal(n);
      assert d[..|d| - 1] == Decimal(n / 10);
    }
  }

  lemma {:induction false} DigitsOf(d: Bytes, rest: Bytes)
    requires forall b <- d :: IsDigit(b)
    requires rest != [] && !IsDigit(rest[0])
    ensures Digits(d + rest) == |d|
  {
    if d == [] {
      assert d + rest == rest;
    } else {
      assert (d + rest)[1..] == d[1..] + rest;
      DigitsOf(d[1..], rest);
    }
  }

  /** Numbers below 100000 take at most five digits. */
  lemma DecimalShort(n: nat)
    requires n < 100000
    ensures |Decimal(n)| <= 5
  {
    assert |Decimal(n / 10000)| == 1;
    assert n / 1000 / 10 == n / 10000 && |Decimal(n / 1000)| <= 2;
    assert n / 100 / 10 == n / 1000 && |Decimal(n / 100)| <= 3;
    assert n / 10 / 10 == n / 100 && |Decimal(n / 10)| <= 4;
  }
}
