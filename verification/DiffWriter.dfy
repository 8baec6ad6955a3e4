/** The diff writer as the agent runs it: loops over the lines, and a builder that is added to. */
module DiffWriter {
  import opened Prelude
  import opened Text
  import opened Diff

  /** The next newline, or the end. */
  method FindNewline(data: Bytes, at: nat) returns (i: nat)
    requires at <= |data|
    ensures at <= i <= |data| && (i < |data| ==> data[i] == NL) && forall j :: at <= j < i ==> data[j] != NL
  {
    i := at;
    while i < |data| && data[i] != NL
      invariant at <= i <= |data| && forall j :: at <= j < i ==> data[j] != NL
    {
      i := i + 1;
    }
  }

  /** What lies between two newlines is a line. */
  lemma LineBetween(data: Bytes, at: nat, i: nat)
    requires at <= i <= |data| && forall j :: at <= j < i ==> data[j] != NL
    ensures i < |data| && data[i] == NL ==> Ended(data[at..i + 1]) && data[..i + 1] == data[..at] + data[at..i + 1]
    ensures i == |data| && at < i ==> IsLine(data[at..]) && data == data[..at] + data[at..]
  {
    if i < |data| && data[i] == NL {
      NewlineIs(data[at..i + 1], i - at);
    } else if i == |data| && at < i {
      NewlineIs(data[at..], i - at);
    }
  }

  /** The pieces, each with the newline that ends it, and no empty last one. */
  method SplitLines(data: Bytes) returns (ls: seq<Bytes>)
    ensures ls == Lines(data)
  {
    ls := [];
    var at := 0;
    var i := FindNewline(data, 0);
    while i < |data|
      invariant at <= i <= |data| && (i < |data| ==> data[i] == NL) && forall j :: at <= j < i ==> data[j] != NL
      invariant Join(ls) == data[..at] && AllEnded(ls)
      decreases |data| - at
    {
      LineBetween(data, at, i);
      JoinSnoc(ls, data[at..i + 1]);
      ls := ls + [data[at..i + 1]];
      at := i + 1;
      i := FindNewline(data, at);
    }
    LineBetween(data, at, i);
    if at < |data| {
      LinesAreUnique(ls, data[at..]);
      assert data == data[..at] + data[at..];
      ls := ls + [data[at..]];
    } else {
      LinesAreUnique(ls, []);
      assert data[..at] + [] == data && ls + [] == ls;
    }
  }

  method CommonPrefix(was: seq<Bytes>, next: seq<Bytes>) returns (prefix: nat)
    ensures prefix == Prefix(was, next, 0)
  {
    prefix := 0;
    while prefix < |was| && prefix < |next| && was[prefix] == next[prefix]
      invariant prefix <= |was| && prefix <= |next| && Prefix(was, next, prefix) == Prefix(was, next, 0)
    {
      prefix := prefix + 1;
    }
  }

  method CommonSuffix(was: seq<Bytes>, next: seq<Bytes>, prefix: nat) returns (suffix: nat)
    requires prefix <= |was| && prefix <= |next|
    ensures suffix == Suffix(was, next, Min(|was|, |next|) - prefix, 0)
  {
    suffix := 0;
    ghost var room := Min(|was|, |next|) - prefix;
    while suffix < |was| - prefix && suffix < |next| - prefix && was[|was| - 1 - suffix] == next[|next| - 1 - suffix]
      invariant suffix <= room && Suffix(was, next, room, suffix) == Suffix(was, next, room, 0)
    {
      suffix := suffix + 1;
    }
  }

  /** One call of the closure `add`. */
  method Add(out: Bytes, sign: u8, line: Bytes) returns (grown: Bytes, ok: bool)
    ensures ok == (|out| + |Render(Entry(sign, line))| <= LIMIT - |MARKER|)
    ensures grown == if ok then out + Render(Entry(sign, line)) else out + MARKER
  {
    var tail := [];
    if line == [] || line[|line| - 1] != NL {
      tail := [NL] + UNENDED;
    }
    if |out| + 1 + |line| + |tail| > LIMIT - |MARKER| {
      return out + MARKER, false;
    }
    grown, ok := out + ([sign] + line + tail), true;
  }

  lemma SignedNext(sign: u8, ls: seq<Bytes>, i: nat, more: seq<Entry>)
    requires i < |ls|
    ensures Signed(sign, ls[i..]) + more == [Entry(sign, ls[i])] + (Signed(sign, ls[i + 1..]) + more)
  {
  }

  /** One of the four loops: `more` is what is to be added after these lines. */
  method AddAll(out: Bytes, sign: u8, ls: seq<Bytes>, ghost more: seq<Entry>) returns (grown: Bytes, ok: bool)
    ensures if ok then Emit(out, Signed(sign, ls) + more) == Emit(grown, more)
            else Emit(out, Signed(sign, ls) + more) == (grown, false)
  {
    grown, ok := out, true;
    var i := 0;
    assert ls[0..] == ls;
    while i < |ls|
      invariant 0 <= i <= |ls| && ok
      invariant Emit(out, Signed(sign, ls) + more) == Emit(grown, Signed(sign, ls[i..]) + more)
    {
      SignedNext(sign, ls, i, more);
      EmitNext(grown, Entry(sign, ls[i]), Signed(sign, ls[i + 1..]) + more);
      grown, ok := Add(grown, sign, ls[i]);
      if !ok {
        return;
      }
      i := i + 1;
    }
    assert Signed(sign, ls[i..]) + more == more;
  }

  lemma EmitNext(out: Bytes, e: Entry, more: seq<Entry>)
    ensures Emit(out, [e] + more)
            == if |out| + |Render(e)| > LIMIT - |MARKER| then (out + MARKER, false) else Emit(out + Render(e), more)
  {
    assert ([e] + more)[1..] == more;
  }

  method WriteDiff(before: Bytes, after: Bytes, utf8: Bytes -> bool) returns (diff: Option<Bytes>)
    ensures diff == if Written(before, after, utf8).Some? then Some(Written(before, after, utf8).value.0) else None
  {
    if !Diffable(before, utf8) || !Diffable(after, utf8) || before == after {
      return None;
    }
    var was := SplitLines(before);
    var next := SplitLines(after);
    var prefix := CommonPrefix(was, next);
    var suffix := CommonSuffix(was, next, prefix);
    var h := Around(|was|, |next|, prefix, suffix);
    assert h == HunkOf(was, next);
    var out := WriteHunk(was, next, h);
    return Some(out);
  }

  method WriteHunk(was: seq<Bytes>, next: seq<Bytes>, h: Hunk) returns (out: Bytes)
    requires Within(h, was, next)
    ensures var p := PatchOf(was, next, h); out == Emit(Head(p), p.body).0
  {
    ghost var p := PatchOf(was, next, h);
    var oldStart, newStart := h.start + 1, h.start + 1;
    if h.oldEnd == h.start {
      oldStart := h.start;
    }
    if h.newEnd == h.start {
      newStart := h.start;
    }
    var oldCount, newCount := h.oldEnd - h.start, h.newEnd - h.start;
    assert p.oldStart == oldStart && p.oldCount == oldCount && p.newStart == newStart && p.newCount == newCount;
    out := WriteBody(Framed(oldStart, oldCount, newStart, newCount), was, next, h);
  }

  method WriteBody(head: Bytes, was: seq<Bytes>, next: seq<Bytes>, h: Hunk) returns (out: Bytes)
    requires Within(h, was, next)
    ensures out == Emit(head, Body(was, next, h)).0
  {
    ghost var put, after := Signed(PUT, next[h.prefix..h.newTail]), Signed(KEEP, was[h.oldTail..h.oldEnd]);
    ghost var cut := Signed(CUT, was[h.prefix..h.oldTail]);
    ghost var before := Signed(KEEP, was[h.start..h.prefix]);
    assert before + cut + put + after == before + (cut + (put + after)) && after + [] == after;
    var ok;
    out, ok := AddAll(head, KEEP, was[h.start..h.prefix], cut + (put + after));
    if !ok {
      return;
    }
    out, ok := AddAll(out, CUT, was[h.prefix..h.oldTail], put + after);
    if !ok {
      return;
    }
    out, ok := AddAll(out, PUT, next[h.prefix..h.newTail], after);
    if !ok {
      return;
    }
    out, ok := AddAll(out, KEEP, was[h.oldTail..h.oldEnd], []);
  }
}
