/**
 parseWavPcm (api/app/static/app.js:112-142): a walk over the chunks of a RIFF/WAVE file, and the writer it
 undoes. Chunks and their padding are those of Multimedia Programming Interface and Data Specifications 1.0,
 chapter 2; the fmt fields those of chapter 3.
 */
module Wav {
  import opened Prelude

  // ---- bytes ----

  function U16(d: seq<byte>, at: nat): nat
    requires at + 2 <= |d|
  {
    d[at] as nat + 256 * d[at + 1] as nat
  }

  function U32(d: seq<byte>, at: nat): nat
    requires at + 4 <= |d|
  {
    U16(d, at) + 65536 * U16(d, at + 2)
  }

  /** DataView.getUint32(at, false): the four bytes in reading order. */
  function Tag(d: seq<byte>, at: nat): seq<byte>
    requires at + 4 <= |d|
  {
    d[at..at + 4]
  }

  function Byte(n: nat): byte {
    (n % 256) as byte
  }

  function Le16(n: nat): seq<byte> {
    [Byte(n), Byte(n / 256)]
  }

  function Le32(n: nat): seq<byte> {
    Le16(n) + Le16(n / 65536)
  }

  function Signed(n: nat): int {
    if n < 32768 then n else n - 65536
  }

  const RIFF: seq<byte> := [0x52, 0x49, 0x46, 0x46]
  const WAVE: seq<byte> := [0x57, 0x41, 0x56, 0x45]
  const FMT: seq<byte> := [0x66, 0x6d, 0x74, 0x20]
  const DATA: seq<byte> := [0x64, 0x61, 0x74, 0x61]

  datatype Fmt = Fmt(audioFormat: nat, channels: nat, sampleRate: nat, bitsPerSample: nat)

  datatype Pcm = Pcm(sampleRate: nat, channels: nat, sampleCount: nat, samples: seq<int>)

  /** The samples of an Int16Array of n elements over the buffer from byte offset at. */
  function Samples(d: seq<byte>, at: nat, n: nat): (s: seq<int>)
    requires at + 2 * n <= |d|
    ensures |s| == n
  {
    if n == 0 then [] else Samples(d, at, n - 1) + [Signed(U16(d, at + 2 * (n - 1)))]
  }

  function FmtAt(d: seq<byte>, body: nat): Fmt
    requires body + 16 <= |d|
  {
    Fmt(U16(d, body), U16(d, body + 2), U32(d, body + 4), U16(d, body + 14))
  }

  /** Where the data chunk lies, clipped to the buffer. */
  datatype Span = Span(off: nat, len: nat)

  predicate Inside(d: seq<byte>, data: Option<Span>) {
    data.Some? ==> data.value.off + data.value.len <= |d|
  }

  /** What the walk has found so far; the last fmt and the last data chunk count. */
  datatype Found = Found(fmt: Option<Fmt>, data: Option<Span>)

  /** The chunk at off, as one turn of the loop reads it. */
  function Turn(d: seq<byte>, off: nat, f: Found): Found
    requires off + 8 <= |d|
  {
    var body := off + 8;
    var size := U32(d, off + 4);
    if Tag(d, off) == FMT && body + 16 <= |d| then f.(fmt := Some(FmtAt(d, body)))
    else if Tag(d, off) == DATA then f.(data := Some(Span(body, if size <= |d| - body then size else |d| - body)))
    else f
  }

  function Next(d: seq<byte>, off: nat): nat
    requires off + 8 <= |d|
  {
    off + 8 + U32(d, off + 4) + U32(d, off + 4) % 2
  }

  function Walk(d: seq<byte>, off: nat, f: Found): Found
    decreases |d| - off
  {
    if off + 8 > |d| then f else Walk(d, Next(d, off), Turn(d, off, f))
  }

  function Frames(samples: nat, channels: nat): nat {
    samples / if channels > 0 then channels else 1
  }

  /** Samples in the format fmt; a channel count of zero is taken as one. */
  function AsPcm(fmt: Fmt, samples: seq<int>): Pcm {
    Pcm(fmt.sampleRate, if fmt.channels > 0 then fmt.channels else 1, Frames(|samples|, fmt.channels), samples)
  }

  function Result(d: seq<byte>, f: Found): Option<Pcm>
    requires Inside(d, f.data)
  {
    if f.fmt.None? || f.fmt.value.audioFormat != 1 || f.fmt.value.bitsPerSample != 16
       || f.data.None? || f.data.value.len == 0 then None
    else Some(AsPcm(f.fmt.value, Samples(d, f.data.value.off, f.data.value.len / 2)))
  }

  lemma {:induction false} WalkStaysInside(d: seq<byte>, off: nat, f: Found)
    requires Inside(d, f.data)
    ensures Inside(d, Walk(d, off, f).data)
    decreases |d| - off
  {
    if off + 8 <= |d| {
      WalkStaysInside(d, Next(d, off), Turn(d, off, f));
    }
  }

  predicate Even(data: Option<Span>) {
    data.Some? ==> data.value.off % 2 == 0
  }

  /** From an even chunk offset one turn goes to an even one, and a data chunk it finds lies at an even one. */
  lemma TurnKeepsEven(d: seq<byte>, off: nat, f: Found)
    requires off + 8 <= |d| && off % 2 == 0 && Even(f.data) && Inside(d, f.data)
    ensures Next(d, off) % 2 == 0 && Even(Turn(d, off, f).data) && Inside(d, Turn(d, off, f).data)
  {
    var size := U32(d, off + 4);
    assert (size + size % 2) % 2 == 0;
  }

  /**
   Every read is inside the buffer and the walk ends. The chunk offset stays even, so the data offset is even
   and the aligned copy for an odd offset is never made (copied is false).
   */
  method ParseWavPcm(buf: seq<byte>) returns (pcm: Option<Pcm>, copied: bool)
    ensures |buf| < 44 || Tag(buf, 0) != RIFF || Tag(buf, 8) != WAVE ==> pcm.None?
    ensures |buf| >= 44 && Tag(buf, 0) == RIFF && Tag(buf, 8) == WAVE ==>
              var f := Walk(buf, 12, Found(None, None));
              Inside(buf, f.data) && pcm == Result(buf, f)
    ensures !copied
  {
    copied := false;
    if |buf| < 44 {
      return None, false;
    }
    if Tag(buf, 0) != RIFF || Tag(buf, 8) != WAVE {
      return None, false;
    }
    WalkStaysInside(buf, 12, Found(None, None));
    var off := 12;
    var fmt: Option<Fmt> := None;
    var data: Option<Span> := None;
    while off + 8 <= |buf|
      invariant off % 2 == 0
      invariant Even(data) && Inside(buf, data)
      invariant Walk(buf, off, Found(fmt, data)) == Walk(buf, 12, Found(None, None))
      decreases |buf| - off
    {
      ghost var found := Turn(buf, off, Found(fmt, data));
      TurnKeepsEven(buf, off, Found(fmt, data));
      WalkTurns(buf, off, Found(fmt, data));
      var size := U32(buf, off + 4);
      var body := off + 8;
      if Tag(buf, off) == FMT && body + 16 <= |buf| {
        fmt := Some(FmtAt(buf, body));
      } else if Tag(buf, off) == DATA {
        data := Some(Span(body, if size <= |buf| - body then size else |buf| - body));
      }
      assert found == Found(fmt, data);
      off := body + size + size % 2;
    }
    if fmt.None? || fmt.value.audioFormat != 1 || fmt.value.bitsPerSample != 16 || data.None? || data.value.len == 0 {
      return None, false;
    }
    var channels := if fmt.value.channels > 0 then fmt.value.channels else 1;
    var sampleLen := data.value.len / 2;
    if data.value.off % 2 != 0 {
      copied := true;
    }
    var samples := Samples(buf, data.value.off, sampleLen);
    pcm := Some(Pcm(fmt.value.sampleRate, channels, Frames(sampleLen, channels), samples));
  }

  // ---- the writer ----

  datatype Chunk = Chunk(tag: seq<byte>, body: seq<byte>)

  predicate Fits(c: Chunk) {
    |c.tag| == 4 && |c.body| < 0x1_0000_0000
  }

  /** Tag, little-endian size, body, and a zero byte after an odd body. */
  function WriteChunk(c: Chunk): seq<byte> {
    c.tag + Le32(|c.body|) + c.body + (if |c.body| % 2 == 1 then [0] else [])
  }

  function WriteChunks(cs: seq<Chunk>): seq<byte> {
    if cs == [] then [] else WriteChunk(cs[0]) + WriteChunks(cs[1..])
  }

  function WriteWave(cs: seq<Chunk>): seq<byte> {
    RIFF + Le32(4 + |WriteChunks(cs)|) + WAVE + WriteChunks(cs)
  }

  function WriteFmt(f: Fmt, byteRate: nat, blockAlign: nat): seq<byte> {
    Le16(f.audioFormat) + Le16(f.channels) + Le32(f.sampleRate) + Le32(byteRate) + Le16(blockAlign)
        + Le16(f.bitsPerSample)
  }

  function Unsigned(v: int): nat
    requires -32768 <= v < 32768
  {
    if v >= 0 then v else v + 65536
  }

  predicate Int16s(samples: seq<int>) {
    forall k :: 0 <= k < |samples| ==> -32768 <= samples[k] < 32768
  }

  function WriteSamples(samples: seq<int>): (d: seq<byte>)
    requires Int16s(samples)
    ensures |d| == 2 * |samples|
  {
    if samples == [] then [] else WriteSamples(samples[..|samples| - 1]) + Le16(Unsigned(samples[|samples| - 1]))
  }

  // ---- reading what was written ----

  /** The bytes w are in the buffer, from at on. */
  predicate Lies(d: seq<byte>, at: nat, w: seq<byte>)
    decreases |w|
  {
    at + |w| <= |d| && (w == [] || (d[at] == w[0] && Lies(d, at + 1, w[1..])))
  }

  lemma {:induction false} LiesAsSlice(d: seq<byte>, at: nat, w: seq<byte>)
    ensures Lies(d, at, w) <==> at + |w| <= |d| && d[at..at + |w|] == w
    decreases |w|
  {
    if w != [] && at + |w| <= |d| {
      LiesAsSlice(d, at + 1, w[1..]);
      var here := d[at..at + |w|];
      assert here == [d[at]] + d[at + 1..at + |w|] && w == [w[0]] + w[1..];
    }
  }

  lemma LiesAt(d: seq<byte>, at: nat, w: seq<byte>, i: nat)
    requires Lies(d, at, w) && i < |w|
    ensures at + i < |d| && d[at + i] == w[i]
  {
    LiesAsSlice(d, at, w);
    assert d[at..at + |w|][i] == d[at + i];
  }

  /** Where a concatenation lies in a buffer, its parts lie one after the other. */
  lemma Pieces(d: seq<byte>, at: nat, p: seq<byte>, q: seq<byte>)
    requires Lies(d, at, p + q)
    ensures Lies(d, at, p) && Lies(d, at + |p|, q)
  {
    LiesAsSlice(d, at, p + q);
    var w := d[at..at + |p| + |q|];
    assert d[at..at + |p|] == w[..|p|] && d[at + |p|..at + |p| + |q|] == w[|p|..];
    LiesAsSlice(d, at, p);
    LiesAsSlice(d, at + |p|, q);
  }

  lemma TwoBytes(n: nat)
    ensures n % 256 + 256 * (n / 256 % 256) == n % 65536
  {
    var a := n / 256;
    assert n == 65536 * (a / 256) + (256 * (a % 256) + n % 256);
  }

  lemma ReadLe16(d: seq<byte>, at: nat, n: nat)
    requires Lies(d, at, Le16(n))
    ensures U16(d, at) == n % 65536
  {
    LiesAt(d, at, Le16(n), 0);
    LiesAt(d, at, Le16(n), 1);
    TwoBytes(n);
  }

  lemma ReadLe32(d: seq<byte>, at: nat, n: nat)
    requires Lies(d, at, Le32(n)) && n < 0x1_0000_0000
    ensures U32(d, at) == n
  {
    Pieces(d, at, Le16(n), Le16(n / 65536));
    ReadLe16(d, at, n);
    ReadLe16(d, at + 2, n / 65536);
  }

  lemma ReadSample(d: seq<byte>, at: nat, v: int)
    requires -32768 <= v < 32768 && Lies(d, at, Le16(Unsigned(v)))
    ensures Signed(U16(d, at)) == v
  {
    ReadLe16(d, at, Unsigned(v));
  }

  /** A buffer with samples has all but the last, and then the last. */
  lemma SamplesSplit(d: seq<byte>, at: nat, samples: seq<int>, n: nat)
    requires Int16s(samples) && |samples| == n + 1 && Lies(d, at, WriteSamples(samples))
    ensures Int16s(samples[..n]) && Lies(d, at, WriteSamples(samples[..n]))
    ensures Lies(d, at + 2 * n, Le16(Unsigned(samples[n])))
  {
    Pieces(d, at, WriteSamples(samples[..n]), Le16(Unsigned(samples[n])));
  }

  lemma {:induction false} ReadSamples(d: seq<byte>, at: nat, samples: seq<int>)
    requires Int16s(samples) && Lies(d, at, WriteSamples(samples))
    ensures Samples(d, at, |samples|) == samples
  {
    if samples != [] {
      var n := |samples| - 1;
      SamplesSplit(d, at, samples, n);
      ReadSamples(d, at, samples[..n]);
      ReadSample(d, at + 2 * n, samples[n]);
      assert samples == samples[..n] + [samples[n]];
    }
  }

  // ---- the walk over a written chunk list ----

  /** Fmt chunks are long enough to be one. */
  predicate WellFormed(cs: seq<Chunk>) {
    cs == [] || (Fits(cs[0]) && (cs[0].tag == FMT ==> |cs[0].body| >= 16) && WellFormed(cs[1..]))
  }

  lemma {:induction false} WellFormedJoins(a: seq<Chunk>, b: seq<Chunk>)
    ensures WellFormed(a + b) <==> WellFormed(a) && WellFormed(b)
  {
    if a == [] {
      assert a + b == b;
    } else {
      assert (a + b)[1..] == a[1..] + b;
      WellFormedJoins(a[1..], b);
    }
  }

  function LastFmt(cs: seq<Chunk>): Option<Fmt>
    requires WellFormed(cs)
  {
    if cs == [] then None
    else if LastFmt(cs[1..]).Some? then LastFmt(cs[1..])
    else if cs[0].tag == FMT then Some(FmtAt(cs[0].body, 0)) else None
  }

  function LastData(cs: seq<Chunk>): Option<seq<byte>> {
    if cs == [] then None
    else if LastData(cs[1..]).Some? then LastData(cs[1..])
    else if cs[0].tag == DATA then Some(cs[0].body) else None
  }

  /** The fields read at two places with the same bytes are the same. */
  lemma SameFmt(d: seq<byte>, at: nat, e: seq<byte>)
    requires 16 <= |e| && Lies(d, at, e)
    ensures FmtAt(d, at) == FmtAt(e, 0)
  {
    LiesAsSlice(d, at, e);
    var w := d[at..at + |e|];
    assert d[at + 0] == w[0] && d[at + 1] == w[1] && d[at + 2] == w[2] && d[at + 3] == w[3];
    assert d[at + 4] == w[4] && d[at + 5] == w[5] && d[at + 6] == w[6] && d[at + 7] == w[7];
    assert d[at + 14] == w[14] && d[at + 15] == w[15];
  }

  /** Where the parts of a chunk lie in a buffer that has it at off. */
  lemma ChunkAt(d: seq<byte>, off: nat, c: Chunk)
    requires Fits(c) && Lies(d, off, WriteChunk(c))
    ensures Lies(d, off + 8, c.body) && Tag(d, off) == c.tag && U32(d, off + 4) == |c.body|
    ensures Next(d, off) == off + |WriteChunk(c)|
  {
    var pad := if |c.body| % 2 == 1 then [0] else [];
    Pieces(d, off, c.tag + Le32(|c.body|) + c.body, pad);
    Pieces(d, off, c.tag + Le32(|c.body|), c.body);
    Pieces(d, off, c.tag, Le32(|c.body|));
    LiesAsSlice(d, off, c.tag);
    ReadLe32(d, off + 4, |c.body|);
  }

  /** The bytes of a data chunk found, if one was. */
  function Bytes(d: seq<byte>, data: Option<Span>): Option<seq<byte>>
    requires Inside(d, data)
  {
    if data.None? then None else Some(d[data.value.off..data.value.off + data.value.len])
  }

  function Else<T>(a: Option<T>, b: Option<T>): Option<T> {
    if a.Some? then a else b
  }

  /** One turn of the loop at a written chunk finds what the chunk holds. */
  lemma TurnReads(d: seq<byte>, off: nat, c: Chunk, f: Found)
    requires Fits(c) && (c.tag == FMT ==> |c.body| >= 16) && Inside(d, f.data)
    requires Lies(d, off, WriteChunk(c))
    ensures off + 8 <= |d| && Next(d, off) == off + |WriteChunk(c)|
    ensures var g := Turn(d, off, f);
            && g.fmt == (if c.tag == FMT then Some(FmtAt(c.body, 0)) else f.fmt)
            && Inside(d, g.data)
            && Bytes(d, g.data) == (if c.tag == DATA then Some(c.body) else Bytes(d, f.data))
  {
    ChunkAt(d, off, c);
    LiesAsSlice(d, off + 8, c.body);
    if c.tag == FMT {
      SameFmt(d, off + 8, c.body);
    }
  }

  lemma WalkTurns(d: seq<byte>, off: nat, f: Found)
    requires off + 8 <= |d|
    ensures Walk(d, off, f) == Walk(d, Next(d, off), Turn(d, off, f))
  {
  }

  lemma ChunkFirst(d: seq<byte>, off: nat, cs: seq<Chunk>)
    requires cs != [] && Lies(d, off, WriteChunks(cs))
    ensures Lies(d, off, WriteChunk(cs[0])) && Lies(d, off + |WriteChunk(cs[0])|, WriteChunks(cs[1..]))
    ensures |WriteChunks(cs)| == |WriteChunk(cs[0])| + |WriteChunks(cs[1..])|
  {
    Pieces(d, off, WriteChunk(cs[0]), WriteChunks(cs[1..]));
  }

  /** The walk over written chunks finds the last fmt and the last data chunk, wherever they stand. */
  lemma {:induction false} WalkReads(d: seq<byte>, off: nat, cs: seq<Chunk>, f: Found)
    requires WellFormed(cs) && Inside(d, f.data)
    requires off + |WriteChunks(cs)| == |d| && Lies(d, off, WriteChunks(cs))
    ensures var g := Walk(d, off, f);
            && g.fmt == Else(LastFmt(cs), f.fmt)
            && Inside(d, g.data) && Bytes(d, g.data) == Else(LastData(cs), Bytes(d, f.data))
    decreases |cs|
  {
    if cs != [] {
      ChunkFirst(d, off, cs);
      TurnReads(d, off, cs[0], f);
      WalkTurns(d, off, f);
      WalkReads(d, Next(d, off), cs[1..], Turn(d, off, f));
    }
  }

  lemma {:induction false} LongEnough(cs: seq<Chunk>)
    requires WellFormed(cs)
    ensures |WriteChunks(cs)| >= (if LastFmt(cs).Some? then 24 else 0)
                                 + (if LastData(cs).Some? then 8 + |LastData(cs).value| else 0)
  {
    if cs != [] {
      LongEnough(cs[1..]);
    }
  }

  /** A written fmt chunk reads back as it was written, whatever follows its sixteen bytes. */
  lemma ReadFmt(f: Fmt, byteRate: nat, blockAlign: nat, more: seq<byte>)
    requires f.audioFormat < 65536 && f.channels < 65536 && f.sampleRate < 0x1_0000_0000 && f.bitsPerSample < 65536
    ensures FmtAt(WriteFmt(f, byteRate, blockAlign) + more, 0) == f
  {
    var e := WriteFmt(f, byteRate, blockAlign);
    var d := e + more;
    assert d[0..|e|] == e && e[0..|e|] == e;
    LiesAsSlice(d, 0, e);
    SameFmt(d, 0, e);
    LiesAsSlice(e, 0, e);
    var p4 := Le16(f.audioFormat) + Le16(f.channels) + Le32(f.sampleRate) + Le32(byteRate) + Le16(blockAlign);
    Pieces(e, 0, p4, Le16(f.bitsPerSample));
    var p3 := Le16(f.audioFormat) + Le16(f.channels) + Le32(f.sampleRate) + Le32(byteRate);
    Pieces(e, 0, p3, Le16(blockAlign));
    var p2 := Le16(f.audioFormat) + Le16(f.channels) + Le32(f.sampleRate);
    Pieces(e, 0, p2, Le32(byteRate));
    Pieces(e, 0, Le16(f.audioFormat) + Le16(f.channels), Le32(f.sampleRate));
    Pieces(e, 0, Le16(f.audioFormat), Le16(f.channels));
    ReadLe16(e, 0, f.audioFormat);
    ReadLe16(e, 2, f.channels);
    ReadLe32(e, 4, f.sampleRate);
    ReadLe16(e, 14, f.bitsPerSample);
  }

  lemma WaveHeader(cs: seq<Chunk>)
    ensures var d := WriteWave(cs);
            |d| == 12 + |WriteChunks(cs)| && Tag(d, 0) == RIFF && Tag(d, 8) == WAVE && Lies(d, 12, WriteChunks(cs))
  {
    var d, w := WriteWave(cs), WriteChunks(cs);
    assert d[12..12 + |w|] == w;
    LiesAsSlice(d, 12, w);
  }

  lemma SamplesOf(d: seq<byte>, at: nat, len: nat, samples: seq<int>)
    requires Int16s(samples) && len / 2 == |samples| && at + len <= |d| && Lies(d, at, WriteSamples(samples))
    ensures Samples(d, at, len / 2) == samples
  {
    ReadSamples(d, at, samples);
  }

  lemma ResultReads(d: seq<byte>, f: Found, fmt: Fmt, samples: seq<int>)
    requires Int16s(samples) && samples != [] && fmt.audioFormat == 1 && fmt.bitsPerSample == 16
    requires f.fmt == Some(fmt) && Inside(d, f.data) && Bytes(d, f.data) == Some(WriteSamples(samples))
    ensures Result(d, f) == Some(AsPcm(fmt, samples))
  {
    var at, len := f.data.value.off, f.data.value.len;
    assert d[at..at + len] == WriteSamples(samples) && len == 2 * |samples|;
    LiesAsSlice(d, at, WriteSamples(samples));
    SamplesOf(d, at, len, samples);
  }

  /** The samples at the rate of fmt, in whole frames of its channels, of which there is at least one. */
  predicate IsPcm(pcm: Pcm, fmt: Fmt, samples: seq<int>) {
    var channels := if fmt.channels == 0 then 1 else fmt.channels;
    && pcm.sampleRate == fmt.sampleRate && pcm.channels == channels && pcm.samples == samples
    && pcm.sampleCount * channels <= |samples| < pcm.sampleCount * channels + channels
  }

  lemma AsPcmIs(fmt: Fmt, samples: seq<int>)
    ensures IsPcm(AsPcm(fmt, samples), fmt, samples)
  {
  }

  /** The parser refuses a written file exactly if it has no 16-bit PCM fmt or no data at the end. */
  lemma RefusesOtherFiles(cs: seq<Chunk>)
    requires WellFormed(cs)
    ensures var d := WriteWave(cs); var f := Walk(d, 12, Found(None, None));
            && Inside(d, f.data)
            && (Result(d, f).None? <==>
                  || LastFmt(cs).None? || LastFmt(cs).value.audioFormat != 1 || LastFmt(cs).value.bitsPerSample != 16
                  || LastData(cs).None? || LastData(cs).value == [])
  {
    var d := WriteWave(cs);
    WaveHeader(cs);
    WalkReads(d, 12, cs, Found(None, None));
    var f := Walk(d, 12, Found(None, None));
    if f.data.Some? {
      assert |d[f.data.value.off..f.data.value.off + f.data.value.len]| == f.data.value.len;
    }
  }

  /**
   The parser undoes the writer. For every well-formed chunk list, with any other chunks of any size and order,
   whose last fmt is 16-bit PCM and whose last data chunk holds the samples, it gives back rate, channels and
   exactly those samples.
   */
  lemma ParseUndoesWrite(cs: seq<Chunk>, samples: seq<int>)
    requires WellFormed(cs) && Int16s(samples) && samples != []
    requires LastFmt(cs).Some? && LastFmt(cs).value.audioFormat == 1 && LastFmt(cs).value.bitsPerSample == 16
    requires LastData(cs) == Some(WriteSamples(samples))
    ensures var d := WriteWave(cs); var f := Walk(d, 12, Found(None, None));
            && |d| >= 44 && Tag(d, 0) == RIFF && Tag(d, 8) == WAVE
            && Inside(d, f.data)
            && Result(d, f).Some? && IsPcm(Result(d, f).value, LastFmt(cs).value, samples)
  {
    var d := WriteWave(cs);
    WaveHeader(cs);
    LongEnough(cs);
    WalkReads(d, 12, cs, Found(None, None));
    ResultReads(d, Walk(d, 12, Found(None, None)), LastFmt(cs).value, samples);
    AsPcmIs(LastFmt(cs).value, samples);
  }

  lemma {:induction false} LastOfJoined(a: seq<Chunk>, b: seq<Chunk>)
    requires WellFormed(a) && WellFormed(b)
    ensures WellFormed(a + b)
    ensures LastFmt(a + b) == Else(LastFmt(b), LastFmt(a)) && LastData(a + b) == Else(LastData(b), LastData(a))
    decreases |a|
  {
    WellFormedJoins(a, b);
    if a == [] {
      assert a + b == b;
    } else {
      assert (a + b)[1..] == a[1..] + b;
      LastOfJoined(a[1..], b);
    }
  }

  predicate Other(cs: seq<Chunk>) {
    cs == [] || (Fits(cs[0]) && cs[0].tag != FMT && cs[0].tag != DATA && Other(cs[1..]))
  }

  lemma {:induction false} OthersHoldNothing(cs: seq<Chunk>)
    requires Other(cs)
    ensures WellFormed(cs) && LastFmt(cs).None? && LastData(cs).None?
  {
    if cs != [] {
      OthersHoldNothing(cs[1..]);
    }
  }

  /** The usual file: a fmt chunk, then a data chunk, with any other chunks before, between and after. */
  lemma UsualFileRoundTrips(a: seq<Chunk>, b: seq<Chunk>, c: seq<Chunk>, f: Fmt, byteRate: nat, align: nat,
                            more: seq<byte>, samples: seq<int>)
    requires Other(a) && Other(b) && Other(c) && Int16s(samples) && samples != [] && |samples| < 0x8000_0000
    requires f.audioFormat == 1 && f.bitsPerSample == 16 && f.channels < 65536 && f.sampleRate < 0x1_0000_0000
    requires |more| + 16 < 0x1_0000_0000
    ensures var d := WriteWave(a + [Chunk(FMT, WriteFmt(f, byteRate, align) + more)] + b
                               + [Chunk(DATA, WriteSamples(samples))] + c);
            && |d| >= 44 && Tag(d, 0) == RIFF && Tag(d, 8) == WAVE
            && Inside(d, Walk(d, 12, Found(None, None)).data)
            && Result(d, Walk(d, 12, Found(None, None))).Some?
            && IsPcm(Result(d, Walk(d, 12, Found(None, None))).value, f, samples)
  {
    var fmt, data := [Chunk(FMT, WriteFmt(f, byteRate, align) + more)], [Chunk(DATA, WriteSamples(samples))];
    OthersHoldNothing(a);
    OthersHoldNothing(b);
    OthersHoldNothing(c);
    LastOfJoined(a, fmt);
    LastOfJoined(a + fmt, b);
    LastOfJoined(a + fmt + b, data);
    LastOfJoined(a + fmt + b + data, c);
    ReadFmt(f, byteRate, align, more);
    ParseUndoesWrite(a + fmt + b + data + c, samples);
  }

  // ---- a file that breaks off ----

  /** The walk goes past a written chunk. */
  lemma WalkPassesOne(d: seq<byte>, off: nat, c: Chunk, f: Found) returns (g: Found)
    requires Fits(c) && (c.tag == FMT ==> |c.body| >= 16) && Inside(d, f.data) && Lies(d, off, WriteChunk(c))
    ensures Walk(d, off, f) == Walk(d, off + |WriteChunk(c)|, g)
    ensures Inside(d, g.data) && g.fmt == if c.tag == FMT then Some(FmtAt(c.body, 0)) else f.fmt
  {
    TurnReads(d, off, c, f);
    WalkTurns(d, off, f);
    g := Turn(d, off, f);
  }

  lemma LastFmtFrom(cs: seq<Chunk>, f: Option<Fmt>)
    requires WellFormed(cs) && cs != []
    ensures Else(LastFmt(cs), f) ==
            Else(LastFmt(cs[1..]), if cs[0].tag == FMT then Some(FmtAt(cs[0].body, 0)) else f)
  {
  }

  /** The walk over written chunks, whatever comes after them, has the same outcome from their end. */
  lemma {:induction false} WalkPasses(d: seq<byte>, off: nat, cs: seq<Chunk>, f: Found, out: Found)
    returns (g: Found, end: nat)
    requires WellFormed(cs) && Inside(d, f.data) && Lies(d, off, WriteChunks(cs)) && Walk(d, off, f) == out
    ensures Walk(d, end, g) == out && g.fmt == Else(LastFmt(cs), f.fmt)
    ensures end == off + |WriteChunks(cs)|
    decreases |cs|
  {
    if cs == [] {
      g, end := f, off;
    } else {
      ChunkFirst(d, off, cs);
      LastFmtFrom(cs, f.fmt);
      g := WalkPassesOne(d, off, cs[0], f);
      g, end := WalkPasses(d, off + |WriteChunk(cs[0])|, cs[1..], g, out);
    }
  }

  lemma {:induction false} SamplesBegin(samples: seq<int>, n: nat)
    requires Int16s(samples) && n <= |samples|
    ensures WriteSamples(samples)[..2 * n] == WriteSamples(samples[..n])
  {
    if n < |samples| {
      var init := samples[..|samples| - 1];
      SamplesBegin(init, n);
      assert init[..n] == samples[..n];
    } else {
      assert samples[..n] == samples;
    }
  }

  /** A data chunk at off of which the buffer holds only the beginning: the walk takes what there is, and ends. */
  lemma BrokenData(d: seq<byte>, off: nat, size: nat, part: seq<byte>, f: Found)
    requires Lies(d, off, DATA + Le32(size) + part) && off + 8 + |part| == |d| && |part| < size < 0x1_0000_0000
    ensures Walk(d, off, f) == f.(data := Some(Span(off + 8, |part|)))
  {
    Pieces(d, off, DATA + Le32(size), part);
    Pieces(d, off, DATA, Le32(size));
    ReadLe32(d, off + 4, size);
    WalkTurns(d, off, f);
  }

  /** A file of written chunks, and then a data chunk of a size of which only a part is there. */
  predicate Broken(d: seq<byte>, cs: seq<Chunk>, size: nat, part: seq<byte>) {
    var end := 12 + |WriteChunks(cs)|;
    && |d| == end + 8 + |part| && Tag(d, 0) == RIFF && Tag(d, 8) == WAVE && Lies(d, 12, WriteChunks(cs))
    && Lies(d, end, DATA + Le32(size) + part)
  }

  lemma BrokenWalk(d: seq<byte>, cs: seq<Chunk>, size: nat, part: seq<byte>, fmt: Fmt) returns (f: Found)
    requires WellFormed(cs) && |part| < size < 0x1_0000_0000 && Broken(d, cs, size, part) && LastFmt(cs) == Some(fmt)
    ensures f == Walk(d, 12, Found(None, None))
    ensures f.fmt == Some(fmt) && f.data.Some?
    ensures Lies(d, f.data.value.off, part) && f.data.value.len == |part|
  {
    f := Walk(d, 12, Found(None, None));
    var g, end := WalkPasses(d, 12, cs, Found(None, None), f);
    BrokenData(d, end, size, part, g);
    Pieces(d, end, DATA + Le32(size), part);
  }

  /** The whole samples lie where the part of them lies. */
  lemma PartLies(d: seq<byte>, at: nat, samples: seq<int>, part: seq<byte>)
    requires Int16s(samples) && part <= WriteSamples(samples) && Lies(d, at, part)
    ensures Lies(d, at, WriteSamples(samples[..|part| / 2]))
  {
    var n := |part| / 2;
    SamplesBegin(samples, n);
    assert part == part[..2 * n] + part[2 * n..] && part[..2 * n] == WriteSamples(samples)[..2 * n];
    Pieces(d, at, part[..2 * n], part[2 * n..]);
  }

  lemma BrokenParses(d: seq<byte>, samples: seq<int>, part: seq<byte>, fmt: Fmt, f: Found)
    requires Int16s(samples) && part != [] && part <= WriteSamples(samples)
    requires f.fmt == Some(fmt) && fmt.audioFormat == 1 && fmt.bitsPerSample == 16
    requires f.data.Some? && Lies(d, f.data.value.off, part) && f.data.value.len == |part|
    ensures Inside(d, f.data) && Result(d, f).Some? && IsPcm(Result(d, f).value, fmt, samples[..|part| / 2])
  {
    PartLies(d, f.data.value.off, samples, part);
    SamplesOf(d, f.data.value.off, |part|, samples[..|part| / 2]);
    AsPcmIs(fmt, samples[..|part| / 2]);
  }

  /** A file that breaks off within its samples is read up to the last whole one. */
  lemma BrokenOff(d: seq<byte>, cs: seq<Chunk>, samples: seq<int>, part: seq<byte>)
    requires WellFormed(cs) && Int16s(samples) && part != [] && part < WriteSamples(samples)
    requires |samples| < 0x8000_0000 && Broken(d, cs, 2 * |samples|, part)
    requires LastFmt(cs).Some? && LastFmt(cs).value.audioFormat == 1 && LastFmt(cs).value.bitsPerSample == 16
    ensures var f := Walk(d, 12, Found(None, None));
            && |d| >= 44 && Inside(d, f.data)
            && Result(d, f).Some? && IsPcm(Result(d, f).value, LastFmt(cs).value, samples[..|part| / 2])
  {
    LongEnough(cs);
    var f := BrokenWalk(d, cs, 2 * |samples|, part, LastFmt(cs).value);
    BrokenParses(d, samples, part, LastFmt(cs).value, f);
  }
}
