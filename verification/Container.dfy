/**
 How long an audio file says it plays: a walk over RIFF chunks, or FLAC's STREAMINFO (section 8.2 of
 RFC 9639). A duration is a fraction of seconds, samples or bytes over a rate, and exact.
 */
module Container {
  import opened Prelude
  import opened Text

  /** `amount / rate` seconds. */
  datatype Duration = Duration(amount: nat, rate: nat)

  /** What the walk has learned: the format's byte rate and frame size, and the data bytes so far. */
  datatype Wave = Wave(byteRate: nat, align: nat, data: nat)

  const FLAC := Ascii("fLaC")
  const RIFF := Ascii("RIFF")
  const WAVE := Ascii("WAVE")
  const FMT := Ascii("fmt ")
  const DATA := Ascii("data")

  function Little(d: Bytes): nat {
    if d == [] then 0 else d[0] as nat + 256 * Little(d[1..])
  }

  function Big(d: Bytes): nat {
    if d == [] then 0 else 256 * Big(d[..|d| - 1]) + d[|d| - 1] as nat
  }

  function Power(k: nat): nat {
    if k == 0 then 1 else 256 * Power(k - 1)
  }

  function PutLittle(n: nat, k: nat): (d: Bytes)
    ensures |d| == k
  {
    if k == 0 then [] else [(n % 256) as u8] + PutLittle(n / 256, k - 1)
  }

  function PutBig(n: nat, k: nat): (d: Bytes)
    ensures |d| == k
  {
    if k == 0 then [] else PutBig(n / 256, k - 1) + [(n % 256) as u8]
  }

  lemma {:induction false} LittleReads(n: nat, k: nat)
    requires n < Power(k)
    ensures Little(PutLittle(n, k)) == n
  {
    if k > 0 {
      LittleReads(n / 256, k - 1);
      assert PutLittle(n, k)[1..] == PutLittle(n / 256, k - 1);
    }
  }

  lemma {:induction false} BigReads(n: nat, k: nat)
    requires n < Power(k)
    ensures Big(PutBig(n, k)) == n
  {
    if k > 0 {
      BigReads(n / 256, k - 1);
      assert PutBig(n, k)[..k - 1] == PutBig(n / 256, k - 1);
    }
  }

  /** A format chunk that says anything but plain PCM or float frames ends the walk. */
  function Format(f: Bytes): Option<(nat, nat)>
    requires |f| >= 16
  {
    var format, channels, rate := Little(f[0..2]), Little(f[2..4]), Little(f[4..8]);
    var byteRate, align, bits := Little(f[8..12]), Little(f[12..14]), Little(f[14..16]);
    if (format != 1 && format != 3) || channels == 0 || rate == 0 || bits == 0 || bits % 8 != 0
       || align != channels * (bits / 8) || byteRate != rate * align
    then None
    else Some((byteRate, align))
  }

  function OnChunk(w: Wave, id: Bytes, body: Bytes): Option<Wave> {
    if id == FMT then
      if |body| < 16 then None
      else if Format(body).None? then None
      else Some(w.(byteRate := Format(body).value.0, align := Format(body).value.1))
    else if id == DATA then Some(w.(data := w.data + |body|))
    else Some(w)
  }

  /** The walk over what lies between the file header and its end. */
  function Walk(d: Bytes, w: Wave): Option<Wave>
    decreases |d|
  {
    if |d| < 8 then Some(w)
    else
      var size := Little(d[4..8]);
      if 8 + size > |d| then None
      else
        var next := OnChunk(w, d[..4], d[8..8 + size]);
        if next.None? then None else Walk(d[Min(|d|, 8 + size + size % 2)..], next.value)
  }

  function Length(w: Wave): Option<Duration> {
    if w.byteRate == 0 || w.align == 0 || w.data == 0 || w.data % w.align != 0 then None
    else Some(Duration(w.data, w.byteRate))
  }

  function Streaminfo(b: Bytes): Option<Duration> {
    if |b| >= 42 && b[..4] == FLAC && b[4] % 128 == 0 && b[5] == 0 && b[6] == 0 && b[7] == 34 then
      var bits := Big(b[18..26]);
      var rate, samples := bits / 0x1000_0000_0000, bits % 0x10_0000_0000;
      if rate > 0 && samples > 0 then Some(Duration(samples, rate)) else None
    else None
  }

  function WaveSeconds(b: Bytes): Option<Duration> {
    if |b| < 12 || b[..4] != RIFF || b[8..12] != WAVE then None
    else
      var end := Little(b[4..8]) + 8;
      if end > |b| || end < 12 then None
      else
        var w := Walk(b[12..end], Wave(0, 0, 0));
        if w.None? then None else Length(w.value)
  }

  /** `containerSeconds`. */
  function Seconds(b: Bytes): Option<Duration> {
    if Streaminfo(b).Some? then Streaminfo(b) else WaveSeconds(b)
  }

  // ---- the walk as it runs ----

  lemma SliceOf(b: Bytes, pos: nat, end: nat, i: nat, j: nat)
    requires pos <= end <= |b| && i <= j <= end - pos
    ensures b[pos..end][i..j] == b[pos + i..pos + j]
  {
    var x, y := b[pos..end][i..j], b[pos + i..pos + j];
    assert |x| == |y|;
    forall k | 0 <= k < |x| ensures x[k] == y[k] {
      assert b[pos..end][i + k] == b[pos + (i + k)];
    }
  }

  /** The walk from a position of the file on; the position may be the padding's, just past the end. */
  function WalkFrom(b: Bytes, pos: nat, end: nat, w: Wave): Option<Wave>
    requires end <= |b|
  {
    if pos >= end then Some(w) else Walk(b[pos..end], w)
  }

  /** One turn of the loop, in the file's own positions. */
  lemma WalkAt(b: Bytes, pos: nat, end: nat, w: Wave)
    requires pos + 8 <= end <= |b|
    ensures var size := Little(b[pos + 4..pos + 8]);
            WalkFrom(b, pos, end, w)
            == if pos + 8 + size > end then None
               else
                 var next := OnChunk(w, b[pos..pos + 4], b[pos + 8..pos + 8 + size]);
                 if next.None? then None else WalkFrom(b, pos + 8 + size + size % 2, end, next.value)
  {
    var d, size := b[pos..end], Little(b[pos + 4..pos + 8]);
    var id, body := b[pos..pos + 4], if pos + 8 + size > end then [] else b[pos + 8..pos + 8 + size];
    HeadOf(b, pos, end, d, size, id, body);
    WalkHead(d, w, size, id, body);
    TurnAt(b, pos, end, w, size, OnChunk(w, id, body));
  }

  lemma TurnAt(b: Bytes, pos: nat, end: nat, w: Wave, size: nat, next: Option<Wave>)
    requires pos + 8 <= end <= |b|
    requires var d := b[pos..end];
             Walk(d, w) == if 8 + size > |d| || next.None? then None
                           else Walk(d[Min(|d|, 8 + size + size % 2)..], next.value)
    ensures WalkFrom(b, pos, end, w)
            == if pos + 8 + size > end || next.None? then None
               else WalkFrom(b, pos + 8 + size + size % 2, end, next.value)
  {
    if pos + 8 + size <= end && next.Some? {
      WalkRest(b, pos, end, 8 + size + size % 2, next.value);
    }
  }

  lemma HeadOf(b: Bytes, pos: nat, end: nat, d: Bytes, size: nat, id: Bytes, body: Bytes)
    requires pos + 8 <= end <= |b| && d == b[pos..end] && size == Little(b[pos + 4..pos + 8]) && id == b[pos..pos + 4]
    requires body == if pos + 8 + size > end then [] else b[pos + 8..pos + 8 + size]
    ensures size == Little(d[4..8]) && id == d[..4] && (8 + size <= |d| ==> body == d[8..8 + size])
  {
    SliceOf(b, pos, end, 4, 8);
    SliceOf(b, pos, end, 0, 4);
    assert d[..4] == d[0..4];
    if pos + 8 + size <= end {
      SliceOf(b, pos, end, 8, 8 + size);
    }
  }

  lemma WalkHead(d: Bytes, w: Wave, size: nat, id: Bytes, body: Bytes)
    requires |d| >= 8 && size == Little(d[4..8]) && id == d[..4] && (8 + size <= |d| ==> body == d[8..8 + size])
    ensures Walk(d, w)
            == if 8 + size > |d| then None
               else
                 var next := OnChunk(w, id, body);
                 if next.None? then None else Walk(d[Min(|d|, 8 + size + size % 2)..], next.value)
  {
  }

  lemma WalkRest(b: Bytes, pos: nat, end: nat, cut: nat, w: Wave)
    requires pos <= end <= |b|
    ensures var d := b[pos..end]; Walk(d[Min(|d|, cut)..], w) == WalkFrom(b, pos + cut, end, w)
  {
    var d := b[pos..end];
    if pos + cut < end {
      SliceOf(b, pos, end, cut, |d|);
      assert d[cut..] == d[cut..|d|];
    } else {
      assert d[Min(|d|, cut)..] == [];
    }
  }

  method Chunks(b: Bytes, end: nat) returns (w: Option<Wave>)
    requires 12 <= end <= |b|
    ensures w == Walk(b[12..end], Wave(0, 0, 0))
  {
    var pos, acc := 12, Wave(0, 0, 0);
    while pos + 8 <= end
      invariant 12 <= pos <= end + 1
      invariant WalkFrom(b, pos, end, acc) == WalkFrom(b, 12, end, Wave(0, 0, 0))
      decreases end + 8 - pos
    {
      var size := Little(b[pos + 4..pos + 8]);
      var start := pos + 8;
      WalkAt(b, pos, end, acc);
      if start + size > end {
        return None;
      }
      var next := OnChunk(acc, b[pos..pos + 4], b[start..start + size]);
      if next.None? {
        return None;
      }
      acc, pos := next.value, start + size + size % 2;
    }
    return Some(acc);
  }

  method ContainerSeconds(b: Bytes) returns (d: Option<Duration>)
    ensures d == Seconds(b)
  {
    if |b| >= 42 && b[..4] == FLAC && b[4] % 128 == 0 && b[5] == 0 && b[6] == 0 && b[7] == 34 {
      var bits := Big(b[18..26]);
      var rate := bits / 0x1000_0000_0000;
      var samples := bits % 0x10_0000_0000;
      if rate > 0 && samples > 0 {
        return Some(Duration(samples, rate));
      }
    }
    if |b| < 12 || b[..4] != RIFF || b[8..12] != WAVE {
      return None;
    }
    var end := Little(b[4..8]) + 8;
    if end > |b| || end < 12 {
      return None;
    }
    var w := Chunks(b, end);
    if w.None? {
      return None;
    }
    return Length(w.value);
  }

  // ---- well-formed files ----

  /** A chunk, and the byte that pads an odd one. */
  datatype Chunk = Chunk(id: Bytes, body: Bytes, pad: Bytes)

  /** Only the very last thing in the file may go without its padding. */
  predicate WellFormed(c: Chunk, last: bool) {
    |c.id| == 4 && |c.body| < 0x1_0000_0000 && (|c.pad| == |c.body| % 2 || (last && c.pad == []))
  }

  /** Chunks, and fewer bytes behind them than another one would need. */
  predicate Formed(cs: seq<Chunk>, slack: Bytes) {
    |slack| < 8 && (cs == [] || (WellFormed(cs[0], cs[1..] == [] && slack == []) && Formed(cs[1..], slack)))
  }

  function EncodeChunk(c: Chunk): Bytes {
    c.id + PutLittle(|c.body|, 4) + c.body + c.pad
  }

  function Encode(cs: seq<Chunk>): Bytes {
    if cs == [] then [] else EncodeChunk(cs[0]) + Encode(cs[1..])
  }

  /** What the chunks say, one after the other. */
  function Told(cs: seq<Chunk>, w: Wave): Option<Wave> {
    if cs == [] then Some(w)
    else
      var next := OnChunk(w, cs[0].id, cs[0].body);
      if next.None? then None else Told(cs[1..], next.value)
  }

  lemma Four()
    ensures Power(4) == 0x1_0000_0000
  {
    assert Power(1) == 256 && Power(2) == 65536 && Power(3) == 16777216;
  }

  lemma ChunkReads(c: Chunk, rest: Bytes)
    requires WellFormed(c, rest == [])
    ensures var d := EncodeChunk(c) + rest;
            var size := |c.body|;
            && |d| >= 8 && d[..4] == c.id && Little(d[4..8]) == size && 8 + size <= |d|
            && d[8..8 + size] == c.body && d[Min(|d|, 8 + size + size % 2)..] == rest
  {
    Four();
    LittleReads(|c.body|, 4);
    ChunkParts(c.id, PutLittle(|c.body|, 4), c.body, c.pad, rest);
  }

  lemma ChunkParts(id: Bytes, size: Bytes, body: Bytes, pad: Bytes, rest: Bytes)
    requires |id| == 4 && |size| == 4
    ensures var d := id + size + body + pad + rest;
            var n := 8 + |body|;
            && n + |pad| <= |d| && d[..4] == id && d[4..8] == size && d[8..n] == body && d[n + |pad|..] == rest
            && (rest == [] ==> |d| == n + |pad|)
  {
  }

  /** The walk over any list of chunks learns what they tell, unknown ones, repeats and all. */
  lemma {:induction false} WalkTold(cs: seq<Chunk>, slack: Bytes, w: Wave)
    requires Formed(cs, slack)
    ensures Walk(Encode(cs) + slack, w) == Told(cs, w)
    decreases |cs|
  {
    if cs == [] {
      assert Encode(cs) + slack == slack;
    } else {
      var c, rest := cs[0], cs[1..];
      assert rest == [] && slack == [] ==> Encode(rest) + slack == [];
      var tail := Encode(rest) + slack;
      Assoc(EncodeChunk(c), Encode(rest), slack);
      ChunkReads(c, tail);
      var next := OnChunk(w, c.id, c.body);
      if next.Some? {
        WalkTold(rest, slack, next.value);
      }
    }
  }

  function WaveFile(cs: seq<Chunk>, slack: Bytes, after: Bytes): Bytes
    requires 4 + |Encode(cs)| + |slack| < 0x1_0000_0000
  {
    RIFF + PutLittle(4 + |Encode(cs)| + |slack|, 4) + WAVE + (Encode(cs) + slack) + after
  }

  function DataBytes(cs: seq<Chunk>): nat {
    if cs == [] then 0 else (if cs[0].id == DATA then |cs[0].body| else 0) + DataBytes(cs[1..])
  }

  /** The format in force after all chunks: the last one given. */
  function FormatOf(cs: seq<Chunk>): Option<Bytes> {
    if cs == [] then None
    else if cs[|cs| - 1].id == FMT then Some(cs[|cs| - 1].body)
    else FormatOf(cs[..|cs| - 1])
  }

  ghost predicate FormatsValid(cs: seq<Chunk>) {
    forall c <- cs :: c.id == FMT ==> |c.body| >= 16 && Format(c.body).Some?
  }

  lemma {:induction false} ToldSnoc(cs: seq<Chunk>, c: Chunk, w: Wave)
    ensures Told(cs + [c], w) == if Told(cs, w).None? then None else OnChunk(Told(cs, w).value, c.id, c.body)
  {
    if cs == [] {
      assert cs + [c] == [c];
    } else {
      HeadTail(cs[0], cs[1..], [c]);
      assert cs == [cs[0]] + cs[1..];
      var next := OnChunk(w, cs[0].id, cs[0].body);
      if next.Some? {
        ToldSnoc(cs[1..], c, next.value);
      }
    }
  }

  lemma {:induction false} DataSnoc(cs: seq<Chunk>, c: Chunk)
    ensures DataBytes(cs + [c]) == DataBytes(cs) + (if c.id == DATA then |c.body| else 0)
  {
    if cs == [] {
      assert cs + [c] == [c];
    } else {
      HeadTail(cs[0], cs[1..], [c]);
      assert cs == [cs[0]] + cs[1..];
      DataSnoc(cs[1..], c);
    }
  }

  lemma NamesDiffer()
    ensures FMT != DATA
  {
    AsciiFirst("fmt ");
    AsciiFirst("data");
  }

  /** What the walk has learned in the end: the last format, and all the data; or that a format is bad. */
  lemma {:induction false} ToldIs(cs: seq<Chunk>)
    ensures Told(cs, Wave(0, 0, 0)).Some? <==> FormatsValid(cs)
    ensures FormatsValid(cs) ==>
              var w := Told(cs, Wave(0, 0, 0)).value;
              && w.data == DataBytes(cs)
              && (FormatOf(cs).None? ==> w.byteRate == 0)
              && (FormatOf(cs).Some? ==>
                    |FormatOf(cs).value| >= 16 && Format(FormatOf(cs).value) == Some((w.byteRate, w.align)))
    decreases |cs|
  {
    if cs != [] {
      var init, c := cs[..|cs| - 1], cs[|cs| - 1];
      assert cs == init + [c];
      NamesDiffer();
      ToldIs(init);
      ToldSnoc(init, c, Wave(0, 0, 0));
      DataSnoc(init, c);
      assert FormatsValid(cs) <==> FormatsValid(init) && (c.id == FMT ==> |c.body| >= 16 && Format(c.body).Some?);
    }
  }

  lemma WaveReads(cs: seq<Chunk>, slack: Bytes, after: Bytes)
    requires 4 + |Encode(cs)| + |slack| < 0x1_0000_0000
    ensures var b := WaveFile(cs, slack, after);
            var end := 12 + |Encode(cs)| + |slack|;
            && 12 <= end <= |b| && b[..4] == RIFF && b[8..12] == WAVE && Little(b[4..8]) + 8 == end
            && b[12..end] == Encode(cs) + slack
  {
    Four();
    var n := 4 + |Encode(cs)| + |slack|;
    LittleReads(n, 4);
    var b := WaveFile(cs, slack, after);
    assert b[4..8] == PutLittle(n, 4);
  }

  lemma WaveIsNotFlac(b: Bytes)
    requires |b| >= 4 && b[..4] == RIFF
    ensures Streaminfo(b).None?
  {
    AsciiFirst("RIFF");
    AsciiFirst("fLaC");
  }

  lemma Positive(a: nat, b: nat)
    requires a > 0 && b > 0
    ensures a * b > 0
  {
  }

  lemma FormatMeans(f: Bytes)
    requires |f| >= 16 && Format(f).Some?
    ensures var (byteRate, align) := Format(f).value;
            && align == Little(f[12..14]) > 0 && Little(f[4..8]) > 0 && byteRate == Little(f[4..8]) * align > 0
  {
    var bits := Little(f[14..16]);
    assert bits / 8 > 0;
    Positive(Little(f[2..4]), bits / 8);
    Positive(Little(f[4..8]), Little(f[12..14]));
  }

  /** Whole frames of a valid format. */
  ghost predicate Playable(cs: seq<Chunk>) {
    && FormatsValid(cs) && FormatOf(cs).Some? && |FormatOf(cs).value| >= 16
    && var align := Little(FormatOf(cs).value[12..14]);
       align > 0 && DataBytes(cs) > 0 && DataBytes(cs) % align == 0
  }

  lemma FramesOverRate(data: nat, align: nat, rate: nat)
    requires align > 0 && data % align == 0
    ensures data * rate == (data / align) * (rate * align)
  {
    assert data == (data / align) * align;
    assert (data / align) * align * rate == (data / align) * (rate * align);
  }

  lemma LengthIs(cs: seq<Chunk>)
    ensures var w := Told(cs, Wave(0, 0, 0));
            (w.Some? && Length(w.value).Some?) <==> Playable(cs)
    ensures Playable(cs) ==>
              var d := Length(Told(cs, Wave(0, 0, 0)).value).value;
              var rate, align := Little(FormatOf(cs).value[4..8]), Little(FormatOf(cs).value[12..14]);
              d.rate > 0 && d.amount * rate == (DataBytes(cs) / align) * d.rate
  {
    ToldIs(cs);
    if FormatsValid(cs) && FormatOf(cs).Some? {
      var f := FormatOf(cs).value;
      FormatMeans(f);
      if DataBytes(cs) % Little(f[12..14]) == 0 {
        FramesOverRate(DataBytes(cs), Little(f[12..14]), Little(f[4..8]));
      }
    }
  }

  /**
   A WAV file of any well-formed chunks - padded or cut at the last, unknown, repeated, followed by
   anything - is measured exactly when every format in it is valid and the data of all its data chunks
   together is some whole number of frames of the last one; and then it plays frames over sample rate.
   */
  lemma WaveDuration(cs: seq<Chunk>, slack: Bytes, after: Bytes)
    requires Formed(cs, slack) && 4 + |Encode(cs)| + |slack| < 0x1_0000_0000
    ensures Seconds(WaveFile(cs, slack, after)).Some? <==> Playable(cs)
    ensures Playable(cs) ==>
              var d := Seconds(WaveFile(cs, slack, after)).value;
              var rate, align := Little(FormatOf(cs).value[4..8]), Little(FormatOf(cs).value[12..14]);
              d.rate > 0 && d.amount * rate == (DataBytes(cs) / align) * d.rate
  {
    WaveReads(cs, slack, after);
    WaveIsNotFlac(WaveFile(cs, slack, after));
    WalkTold(cs, slack, Wave(0, 0, 0));
    LengthIs(cs);
  }

  // ---- FLAC ----

  /** A STREAMINFO block as section 8.2 of RFC 9639 lays it out, first in the file, and what follows it. */
  function FlacFile(last: bool, sizes: Bytes, rate: nat, channels: nat, depth: nat, samples: nat, digest: Bytes,
                    rest: Bytes): Bytes
  {
    FLAC + [if last then 128 else 0, 0, 0, 34] + sizes
    + PutBig(Packed(rate, channels, depth, samples), 8) + digest + rest
  }

  /** Twenty bits of sample rate, three of channels less one, five of depth less one, thirty-six of samples. */
  function Packed(rate: nat, channels: nat, depth: nat, samples: nat): nat {
    rate * 0x1000_0000_0000 + (channels * 32 + depth) * 0x10_0000_0000 + samples
  }

  lemma Eight()
    ensures Power(8) == 0x1_0000_0000_0000_0000
  {
    Four();
    assert Power(5) == 0x100_0000_0000 && Power(6) == 0x1_0000_0000_0000 && Power(7) == 0x100_0000_0000_0000;
  }

  lemma PackedParts(rate: nat, channels: nat, depth: nat, samples: nat)
    requires rate < 0x10_0000 && channels < 8 && depth < 32 && samples < 0x10_0000_0000
    ensures var bits := Packed(rate, channels, depth, samples);
            && bits < 0x1_0000_0000_0000_0000
            && bits / 0x1000_0000_0000 == rate && bits % 0x10_0000_0000 == samples
  {
  }

  lemma FlacLayout(last: bool, sizes: Bytes, rate: nat, channels: nat, depth: nat, samples: nat, digest: Bytes,
                   rest: Bytes)
    requires |sizes| == 10 && |digest| == 16
    ensures var b := FlacFile(last, sizes, rate, channels, depth, samples, digest, rest);
            && |b| >= 42 && b[..4] == FLAC && b[4] % 128 == 0 && b[5] == 0 && b[6] == 0 && b[7] == 34
            && b[18..26] == PutBig(Packed(rate, channels, depth, samples), 8)
  {
    var b := FlacFile(last, sizes, rate, channels, depth, samples, digest, rest);
    assert b[4..8] == [if last then 128 else 0, 0, 0, 34];
    assert b[4] == b[4..8][0] && b[5] == b[4..8][1] && b[6] == b[4..8][2] && b[7] == b[4..8][3];
  }

  lemma FlacIsNotWave(b: Bytes)
    requires |b| >= 4 && b[..4] == FLAC
    ensures WaveSeconds(b).None?
  {
    AsciiFirst("RIFF");
    AsciiFirst("fLaC");
  }

  /** FLAC plays its total samples over its sample rate, when it states both. */
  lemma FlacDuration(last: bool, sizes: Bytes, rate: nat, channels: nat, depth: nat, samples: nat, digest: Bytes,
                     rest: Bytes)
    requires |sizes| == 10 && |digest| == 16
    requires rate < 0x10_0000 && channels < 8 && depth < 32 && samples < 0x10_0000_0000
    ensures Seconds(FlacFile(last, sizes, rate, channels, depth, samples, digest, rest))
            == if rate > 0 && samples > 0 then Some(Duration(samples, rate)) else None
  {
    Eight();
    PackedParts(rate, channels, depth, samples);
    BigReads(Packed(rate, channels, depth, samples), 8);
    FlacLayout(last, sizes, rate, channels, depth, samples, digest, rest);
    FlacIsNotWave(FlacFile(last, sizes, rate, channels, depth, samples, digest, rest));
  }

  // ---- and no other file is measured ----

  lemma {:induction false} LittleBound(d: Bytes)
    ensures Little(d) < Power(|d|)
  {
    if d != [] {
      LittleBound(d[1..]);
    }
  }

  lemma OneByte(b: u8, n: nat)
    ensures (b as nat + 256 * n) % 256 == b as nat && (b as nat + 256 * n) / 256 == n
  {
  }

  lemma {:induction false} LittleWrites(d: Bytes)
    ensures PutLittle(Little(d), |d|) == d
  {
    if d != [] {
      OneByte(d[0], Little(d[1..]));
      LittleWrites(d[1..]);
      assert d == [d[0]] + d[1..];
    }
  }

  lemma {:induction false} BigBound(d: Bytes)
    ensures Big(d) < Power(|d|)
  {
    if d != [] {
      BigBound(d[..|d| - 1]);
    }
  }

  lemma PutBigLast(n: nat, b: u8, k: nat)
    requires k > 0
    ensures PutBig(256 * n + b as nat, k) == PutBig(n, k - 1) + [b]
  {
    OneByte(b, n);
  }

  lemma {:induction false} BigWrites(d: Bytes)
    ensures PutBig(Big(d), |d|) == d
  {
    if d != [] {
      PutBigLast(Big(d[..|d| - 1]), d[|d| - 1], |d|);
      BigWrites(d[..|d| - 1]);
      assert d == d[..|d| - 1] + [d[|d| - 1]];
    }
  }

  /** The chunks of what the walk goes over, and what is left behind them. */
  function Parsed(d: Bytes): (seq<Chunk>, Bytes)
    decreases |d|
  {
    if |d| < 8 || 8 + Little(d[4..8]) > |d| then ([], d)
    else
      var (c, cut) := FirstChunk(d);
      var (cs, slack) := Parsed(d[cut..]);
      ([c] + cs, slack)
  }

  /** The chunk at the start, and where the next one is. */
  function FirstChunk(d: Bytes): (r: (Chunk, nat))
    requires |d| >= 8 && 8 + Little(d[4..8]) <= |d|
    ensures 8 <= r.1 <= |d|
  {
    var size := Little(d[4..8]);
    var cut := Min(|d|, 8 + size + size % 2);
    (Chunk(d[..4], d[8..8 + size], d[8 + size..cut]), cut)
  }

  lemma ChunkWrites(d: Bytes, size: nat, cut: nat)
    requires |d| >= 8 && size == Little(d[4..8]) && 8 + size <= |d| && cut == Min(|d|, 8 + size + size % 2)
    ensures var c := Chunk(d[..4], d[8..8 + size], d[8 + size..cut]);
            EncodeChunk(c) + d[cut..] == d && WellFormed(c, cut == |d|)
  {
    Four();
    LittleBound(d[4..8]);
    LittleWrites(d[4..8]);
    assert d == d[..4] + d[4..8] + d[8..8 + size] + d[8 + size..cut] + d[cut..];
  }

  /** Whatever the walk gets to the end of is a list of chunks. */
  lemma {:induction false} WalkedIsFormed(d: Bytes, w: Wave)
    requires Walk(d, w).Some?
    ensures var (cs, slack) := Parsed(d); Encode(cs) + slack == d && Formed(cs, slack)
    decreases |d|
  {
    if |d| < 8 {
      assert [] + d == d;
    } else {
      var size := Little(d[4..8]);
      var cut := Min(|d|, 8 + size + size % 2);
      assert 8 + size <= |d|;
      var c := Chunk(d[..4], d[8..8 + size], d[8 + size..cut]);
      WalkTurn(d, w, size, cut, c);
      ChunkWrites(d, size, cut);
      WalkedIsFormed(d[cut..], OnChunk(w, c.id, c.body).value);
      assert FirstChunk(d) == (c, cut);
      var (cs, slack) := Parsed(d[cut..]);
      FormedFirst(c, cs, slack, d, d[cut..]);
    }
  }

  lemma WalkTurn(d: Bytes, w: Wave, size: nat, cut: nat, c: Chunk)
    requires |d| >= 8 && Walk(d, w).Some? && size == Little(d[4..8]) && cut == Min(|d|, 8 + size + size % 2)
    requires 8 + size <= |d| ==> c == Chunk(d[..4], d[8..8 + size], d[8 + size..cut])
    ensures 8 + size <= |d| && OnChunk(w, c.id, c.body).Some? && Walk(d[cut..], OnChunk(w, c.id, c.body).value).Some?
  {
    WalkHead(d, w, size, d[..4], if 8 + size <= |d| then d[8..8 + size] else []);
  }

  lemma FormedFirst(c: Chunk, cs: seq<Chunk>, slack: Bytes, d: Bytes, rest: Bytes)
    requires EncodeChunk(c) + rest == d && WellFormed(c, rest == []) && Encode(cs) + slack == rest && Formed(cs, slack)
    ensures Encode([c] + cs) + slack == d && Formed([c] + cs, slack)
  {
    assert ([c] + cs)[1..] == cs;
    Assoc(EncodeChunk(c), Encode(cs), slack);
    assert cs != [] ==> |Encode(cs)| >= |EncodeChunk(cs[0])| >= 8;
  }

  /** A file is a WAV file that plays. */
  ghost predicate IsWave(b: Bytes) {
    exists cs, slack, after :: WaveOf(b, cs, slack, after)
  }

  ghost predicate WaveOf(b: Bytes, cs: seq<Chunk>, slack: Bytes, after: Bytes) {
    && Formed(cs, slack) && 4 + |Encode(cs)| + |slack| < 0x1_0000_0000
    && b == WaveFile(cs, slack, after) && Playable(cs)
  }

  lemma WaveParts(b: Bytes, end: nat, cs: seq<Chunk>, slack: Bytes)
    requires 12 <= end <= |b| && b[..4] == RIFF && b[8..12] == WAVE && end == Little(b[4..8]) + 8
    requires Encode(cs) + slack == b[12..end]
    ensures 4 + |Encode(cs)| + |slack| < 0x1_0000_0000 && b == WaveFile(cs, slack, b[end..])
  {
    Four();
    LittleBound(b[4..8]);
    LittleWrites(b[4..8]);
    assert |Encode(cs) + slack| == end - 12;
    FiveParts(b, end);
  }

  lemma FiveParts(b: Bytes, end: nat)
    requires 12 <= end <= |b|
    ensures b == b[..4] + b[4..8] + b[8..12] + b[12..end] + b[end..]
  {
  }

  lemma WaveOnly(b: Bytes)
    ensures WaveSeconds(b).Some? <==> IsWave(b)
  {
    if WaveSeconds(b).Some? {
      var end := Little(b[4..8]) + 8;
      var d := b[12..end];
      WalkedIsFormed(d, Wave(0, 0, 0));
      var (cs, slack) := Parsed(d);
      WaveParts(b, end, cs, slack);
      WalkTold(cs, slack, Wave(0, 0, 0));
      LengthIs(cs);
      assert WaveOf(b, cs, slack, b[end..]);
    }
    if IsWave(b) {
      var cs, slack, after :| WaveOf(b, cs, slack, after);
      WaveDuration(cs, slack, after);
      WaveIsNotFlac(b);
    }
  }

  /** What a STREAMINFO states, and what is around it. */
  datatype Info = Info(last: bool, sizes: Bytes, rate: nat, channels: nat, depth: nat, samples: nat, digest: Bytes,
                       rest: Bytes)

  predicate FlacOf(b: Bytes, i: Info) {
    && |i.sizes| == 10 && |i.digest| == 16
    && 0 < i.rate < 0x10_0000 && i.channels < 8 && i.depth < 32 && 0 < i.samples < 0x10_0000_0000
    && b == FlacFile(i.last, i.sizes, i.rate, i.channels, i.depth, i.samples, i.digest, i.rest)
  }

  /** A file is a FLAC file that says how long it is. */
  ghost predicate IsFlac(b: Bytes) {
    exists i :: FlacOf(b, i)
  }

  lemma PackedIs(bits: nat)
    requires bits < 0x1_0000_0000_0000_0000
    ensures var middle := bits / 0x10_0000_0000 % 256;
            bits == Packed(bits / 0x1000_0000_0000, middle / 32, middle % 32, bits % 0x10_0000_0000)
            && bits / 0x1000_0000_0000 < 0x10_0000
  {
    var q, low := bits / 0x10_0000_0000, bits % 0x10_0000_0000;
    var rate, middle := q / 256, q % 256;
    assert bits == rate * 0x1000_0000_0000 + (middle * 0x10_0000_0000 + low);
    RateIs(bits, rate, middle * 0x10_0000_0000 + low);
    assert middle / 32 * 32 + middle % 32 == middle;
  }

  lemma RateIs(bits: nat, rate: nat, rest: nat)
    requires bits == rate * 0x1000_0000_0000 + rest && rest < 0x1000_0000_0000
    ensures bits / 0x1000_0000_0000 == rate
  {
  }

  lemma FlacParts(b: Bytes, bits: nat)
    requires |b| >= 42 && b[..4] == FLAC && b[4] % 128 == 0 && b[5] == 0 && b[6] == 0 && b[7] == 34
    requires bits == Big(b[18..26])
    ensures var middle := bits / 0x10_0000_0000 % 256;
            b == FlacFile(b[4] == 128, b[8..18], bits / 0x1000_0000_0000, middle / 32, middle % 32,
                          bits % 0x10_0000_0000, b[26..42], b[42..])
            && bits / 0x1000_0000_0000 < 0x10_0000
  {
    Eight();
    BigBound(b[18..26]);
    BigWrites(b[18..26]);
    PackedIs(bits);
    assert b[4] == 0 || b[4] == 128;
    assert b[4..8] == [b[4], b[5], b[6], b[7]];
    assert b == b[..4] + b[4..8] + b[8..18] + b[18..26] + b[26..42] + b[42..];
  }

  lemma FlacRead(b: Bytes)
    requires Streaminfo(b).Some?
    ensures IsFlac(b)
  {
    var bits := Big(b[18..26]);
    FlacParts(b, bits);
    var middle := bits / 0x10_0000_0000 % 256;
    assert FlacOf(b, Info(b[4] == 128, b[8..18], bits / 0x1000_0000_0000, middle / 32, middle % 32,
                          bits % 0x10_0000_0000, b[26..42], b[42..]));
  }

  lemma FlacMeasured(b: Bytes, i: Info)
    requires FlacOf(b, i)
    ensures Streaminfo(b).Some?
  {
    FlacDuration(i.last, i.sizes, i.rate, i.channels, i.depth, i.samples, i.digest, i.rest);
    FlacLayout(i.last, i.sizes, i.rate, i.channels, i.depth, i.samples, i.digest, i.rest);
    FlacIsNotWave(b);
  }

  lemma FlacOnly(b: Bytes)
    ensures Streaminfo(b).Some? <==> IsFlac(b)
  {
    if Streaminfo(b).Some? {
      FlacRead(b);
    }
    if IsFlac(b) {
      var i :| FlacOf(b, i);
      FlacMeasured(b, i);
    }
  }

  /** A file is measured exactly when it is a FLAC file that says how long it is or a WAV file that plays. */
  lemma MeasuredExactly(b: Bytes)
    ensures Seconds(b).Some? <==> IsFlac(b) || IsWave(b)
  {
    FlacOnly(b);
    WaveOnly(b);
  }

  // ---- what a format chunk has to say ----

  /** Samples of `width` whole bytes, integer (1) or float (3) by the tag. */
  datatype Pcm = Pcm(tag: nat, channels: nat, rate: nat, width: nat)

  function Frame(p: Pcm): nat {
    p.channels * p.width
  }

  function PerSecond(p: Pcm): nat {
    p.rate * Frame(p)
  }

  function FormatBytes(p: Pcm, extra: Bytes): Bytes {
    PutLittle(p.tag, 2) + PutLittle(p.channels, 2) + PutLittle(p.rate, 4) + PutLittle(PerSecond(p), 4)
    + PutLittle(Frame(p), 2) + PutLittle(8 * p.width, 2) + extra
  }

  /** Whatever the rates and sizes say again is what channels, rate and sample width make them. */
  predicate FormatSays(f: Bytes, p: Pcm, extra: Bytes) {
    && p.tag in {1, 3} && 0 < p.channels < 0x1_0000 && 0 < p.rate < 0x1_0000_0000 && 0 < 8 * p.width < 0x1_0000
    && Frame(p) < 0x1_0000 && PerSecond(p) < 0x1_0000_0000
    && f == FormatBytes(p, extra)
  }

  lemma FormatFields(f: Bytes)
    requires |f| >= 16
    ensures f == PutLittle(Little(f[0..2]), 2) + PutLittle(Little(f[2..4]), 2) + PutLittle(Little(f[4..8]), 4)
                 + PutLittle(Little(f[8..12]), 4) + PutLittle(Little(f[12..14]), 2) + PutLittle(Little(f[14..16]), 2)
                 + f[16..]
    ensures Little(f[0..2]) < 0x1_0000 && Little(f[2..4]) < 0x1_0000 && Little(f[4..8]) < 0x1_0000_0000
    ensures Little(f[8..12]) < 0x1_0000_0000 && Little(f[12..14]) < 0x1_0000 && Little(f[14..16]) < 0x1_0000
  {
    Four();
    assert Power(2) == 0x1_0000;
    LittleWrites(f[0..2]);
    LittleWrites(f[2..4]);
    LittleWrites(f[4..8]);
    LittleWrites(f[8..12]);
    LittleWrites(f[12..14]);
    LittleWrites(f[14..16]);
    LittleBound(f[0..2]);
    LittleBound(f[2..4]);
    LittleBound(f[4..8]);
    LittleBound(f[8..12]);
    LittleBound(f[12..14]);
    LittleBound(f[14..16]);
    assert f == f[0..2] + f[2..4] + f[4..8] + f[8..12] + f[12..14] + f[14..16] + f[16..];
  }

  lemma Fields(a: Bytes, b: Bytes, c: Bytes, d: Bytes, e: Bytes, g: Bytes, extra: Bytes)
    requires |a| == |b| == |e| == |g| == 2 && |c| == |d| == 4
    ensures var f := a + b + c + d + e + g + extra;
            |f| >= 16 && f[0..2] == a && f[2..4] == b && f[4..8] == c && f[8..12] == d
            && f[12..14] == e && f[14..16] == g
  {
  }

  lemma TwoReads(n: nat)
    requires n < 0x1_0000
    ensures Little(PutLittle(n, 2)) == n
  {
    assert Power(2) == 0x1_0000;
    LittleReads(n, 2);
  }

  lemma FourReads(n: nat)
    requires n < 0x1_0000_0000
    ensures Little(PutLittle(n, 4)) == n
  {
    Four();
    LittleReads(n, 4);
  }

  lemma FormatReads(p: Pcm, extra: Bytes)
    requires p.tag < 0x1_0000 && p.channels < 0x1_0000 && p.rate < 0x1_0000_0000 && 8 * p.width < 0x1_0000
    requires Frame(p) < 0x1_0000 && PerSecond(p) < 0x1_0000_0000
    ensures var f := FormatBytes(p, extra);
            && |f| >= 16 && Little(f[0..2]) == p.tag && Little(f[2..4]) == p.channels && Little(f[4..8]) == p.rate
            && Little(f[8..12]) == PerSecond(p) && Little(f[12..14]) == Frame(p) && Little(f[14..16]) == 8 * p.width
  {
    TwoReads(p.tag);
    TwoReads(p.channels);
    FourReads(p.rate);
    FourReads(PerSecond(p));
    TwoReads(Frame(p));
    TwoReads(8 * p.width);
    Fields(PutLittle(p.tag, 2), PutLittle(p.channels, 2), PutLittle(p.rate, 4), PutLittle(PerSecond(p), 4),
           PutLittle(Frame(p), 2), PutLittle(8 * p.width, 2), extra);
  }

  ghost predicate IsFormat(f: Bytes) {
    exists p, extra :: FormatSays(f, p, extra)
  }

  lemma FormatRead(f: Bytes)
    requires |f| >= 16 && Format(f).Some?
    ensures IsFormat(f)
  {
    FormatFields(f);
    var p := Pcm(Little(f[0..2]), Little(f[2..4]), Little(f[4..8]), Little(f[14..16]) / 8);
    assert Little(f[14..16]) == 8 * p.width;
    assert Frame(p) == Little(f[12..14]);
    assert PerSecond(p) == Little(f[8..12]);
    assert FormatSays(f, p, f[16..]);
  }

  lemma FormatValid(f: Bytes, p: Pcm, extra: Bytes)
    requires FormatSays(f, p, extra)
    ensures |f| >= 16 && Format(f).Some?
  {
    FormatReads(p, extra);
    assert 8 * p.width / 8 == p.width && 8 * p.width % 8 == 0;
  }

  /**
   A format is valid exactly when it is one of integer or float samples of whole bytes whose frame size and
   byte rate are what its channels, sample rate and sample width make them.
   */
  lemma FormatExactly(f: Bytes)
    ensures |f| >= 16 && Format(f).Some? <==> IsFormat(f)
  {
    if |f| >= 16 && Format(f).Some? {
      FormatRead(f);
    }
    if IsFormat(f) {
      var p, extra :| FormatSays(f, p, extra);
      FormatValid(f, p, extra);
    }
  }
}
