/**
 extractPeaks and the column loop of drawWaveform (api/app/static/app.js:147-164, 785-793), in exact arithmetic.
 Both cut a line of items into n stretches with the same floors: samples into buckets, then buckets into columns.
 */
module Peaks {
  const SCALE := 32768

  // ---- cutting total items into n stretches ----

  /** Math.floor(k * per) with per = total / n. */
  function Cut(k: nat, total: nat, n: nat): int
    requires n > 0
  {
    Multiple(k, total as real / n as real)
  }

  function Multiple(k: nat, per: real): int {
    (k as real * per).Floor
  }

  function Max(a: int, b: int): int {
    if a < b then b else a
  }

  function Min(a: int, b: int): int {
    if a < b then a else b
  }

  /** The end of stretch k: at least one past its start, and inside the items. */
  function End(k: nat, total: nat, n: nat): int
    requires n > 0
  {
    Min(total, Max(Cut(k, total, n) + 1, Cut(k + 1, total, n)))
  }

  lemma FloorBetween(x: real, m: int)
    requires m as real <= x < m as real + 1.0
    ensures x.Floor == m
  {
  }

  lemma MultipleEnds(n: nat, per: real, total: nat)
    requires n as real * per == total as real
    ensures Multiple(0, per) == 0 && Multiple(n, per) == total
  {
    FloorBetween(0 as real * per, 0);
    FloorBetween(n as real * per, total);
  }

  lemma PerTimes(total: nat, n: nat)
    requires n > 0
    ensures n as real * (total as real / n as real) == total as real
  {
  }

  lemma CutEnds(total: nat, n: nat)
    requires n > 0
    ensures Cut(0, total, n) == 0 && Cut(n, total, n) == total
  {
    PerTimes(total, n);
    MultipleEnds(n, total as real / n as real, total);
  }

  lemma Scaled(a: nat, b: nat, per: real)
    requires a <= b && per >= 0.0
    ensures 0.0 <= a as real * per <= b as real * per
    ensures per >= 1.0 ==> b as real * per >= a as real * per + (b - a) as real
  {
    assert (b - a) as real * per >= 0.0;
    assert b as real * per == a as real * per + (b - a) as real * per;
    if per >= 1.0 {
      assert (b - a) as real * (per - 1.0) >= 0.0;
    }
  }

  lemma Ratio(total: nat, n: nat)
    requires n > 0
    ensures total as real / n as real >= 0.0 && (total >= n ==> total as real / n as real >= 1.0)
  {
    var per := total as real / n as real;
    assert per * n as real == total as real;
    if per < 1.0 {
      assert (1.0 - per) * n as real > 0.0;
    }
  }

  lemma FloorsFollow(x: real, y: real, m: nat)
    requires 0.0 <= x && x + m as real <= y
    ensures 0 <= x.Floor && x.Floor + m <= y.Floor
  {
  }

  lemma MultiplesFollow(a: nat, b: nat, per: real)
    requires a <= b && per >= 0.0
    ensures 0 <= Multiple(a, per) <= Multiple(b, per)
    ensures per >= 1.0 ==> Multiple(b, per) >= Multiple(a, per) + (b - a)
  {
    Scaled(a, b, per);
    FloorsFollow(a as real * per, b as real * per, if per >= 1.0 then b - a else 0);
  }

  lemma CutMonotone(a: nat, b: nat, total: nat, n: nat)
    requires n > 0 && a <= b
    ensures 0 <= Cut(a, total, n) <= Cut(b, total, n)
    ensures total >= n ==> Cut(b, total, n) >= Cut(a, total, n) + (b - a)
  {
    Ratio(total, n);
    MultiplesFollow(a, b, total as real / n as real);
  }

  lemma MultipleInside(k: nat, n: nat, per: real, total: nat)
    requires k < n && per > 0.0 && n as real * per == total as real
    ensures 0 <= Multiple(k, per) < total
  {
    Scaled(k, n, per);
    assert (n - k) as real * per > 0.0;
    assert k as real * per == n as real * per - (n - k) as real * per;
  }

  lemma CutInside(k: nat, total: nat, n: nat)
    requires k < n && total > 0
    ensures 0 <= Cut(k, total, n) < total
  {
    var per := total as real / n as real;
    PerTimes(total, n);
    assert per > 0.0;
    MultipleInside(k, n, per, total);
  }

  lemma OrderedTimes(a: real, b: real, c: real)
    requires c > 0.0
    ensures a <= b ==> a * c <= b * c
    ensures a < b ==> a * c < b * c
  {
    assert b * c - a * c == (b - a) * c;
    if a <= b {
      assert (b - a) * c >= 0.0;
    }
    if a < b {
      assert (b - a) * c > 0.0;
    }
  }

  lemma Regroup(k: real, per: real, n: real, total: real)
    requires n * per == total
    ensures k * per * n == k * total
  {
  }

  lemma Products(a: int, b: int)
    ensures (a * b) as real == a as real * b as real
  {
  }

  lemma WholePart(x: real, f: int, r: real)
    requires f == x.Floor && r > 0.0
    ensures f as real * r <= x * r < (f + 1) as real * r
  {
    OrderedTimes(f as real, x, r);
    OrderedTimes(x, (f + 1) as real, r);
  }

  lemma BackToWhole(a: int, b: int, c: int, x: real, y: real, z: real)
    requires a as real == x && b as real == y && c as real == z && x <= y < z
    ensures a <= b < c
  {
  }

  lemma WholePartOf(k: int, per: real, n: int, total: int, f: int)
    requires n > 0 && n as real * per == total as real && f == (k as real * per).Floor
    ensures f * n <= k * total < (f + 1) * n
  {
    Between(k as real, per, n as real, total as real, f);
    Products(f, n);
    Products(k, total);
    Products(f + 1, n);
    BackToWhole(f * n, k * total, (f + 1) * n,
                f as real * n as real, k as real * total as real, (f + 1) as real * n as real);
  }

  lemma Between(k: real, per: real, r: real, total: real, f: int)
    requires r > 0.0 && r * per == total && f == (k * per).Floor
    ensures f as real * r <= k * total < (f + 1) as real * r
  {
    var x := k * per;
    WholePart(x, f, r);
    assert x * r == k * total by {
      Regroup(k, per, r, total);
    }
  }

  /** The cut is the whole part of k * total / n. */
  lemma CutIsWholePart(k: nat, total: nat, n: nat)
    requires n > 0
    ensures Cut(k, total, n) * n <= k * total < (Cut(k, total, n) + 1) * n
  {
    PerTimes(total, n);
    WholePartOf(k, total as real / n as real, n, total, Cut(k, total, n));
  }

  /** Every stretch has an item, and only items. */
  lemma StretchesInside(k: nat, total: nat, n: nat)
    requires k < n && total > 0
    ensures 0 <= Cut(k, total, n) < End(k, total, n) <= total
  {
    CutInside(k, total, n);
  }

  /** A stretch ends where the next one starts, or holds one item where the next starts at the same place. */
  lemma StretchesMeet(k: nat, total: nat, n: nat)
    requires k < n && total > 0
    ensures End(k, total, n) == if Cut(k + 1, total, n) > Cut(k, total, n) then Cut(k + 1, total, n)
                                else Cut(k, total, n) + 1
  {
    CutInside(k, total, n);
    CutMonotone(k, k + 1, total, n);
    CutMonotone(k + 1, n, total, n);
    CutEnds(total, n);
  }

  lemma {:induction false} FindStretch(i: nat, total: nat, n: nat, from: nat) returns (k: nat)
    requires from < n && i < total && Cut(from, total, n) <= i
    ensures from <= k < n && Cut(k, total, n) <= i < End(k, total, n)
    decreases n - from
  {
    k := from;
    if from + 1 < n && Cut(from + 1, total, n) <= i {
      k := FindStretch(i, total, n, from + 1);
    } else if from + 1 == n {
      CutEnds(total, n);
    }
  }

  /** Every item is in some stretch. */
  lemma StretchesCover(i: nat, total: nat, n: nat) returns (k: nat)
    requires n > 0 && i < total
    ensures k < n && Cut(k, total, n) <= i < End(k, total, n)
  {
    CutEnds(total, n);
    k := FindStretch(i, total, n, 0);
  }

  /** No item is in two stretches. */
  predicate Disjoint(total: nat, n: nat)
    requires n > 0
  {
    forall j, k :: 0 <= j < k < n ==> End(j, total, n) <= Cut(k, total, n)
  }

  lemma {:induction false} DisjointSpreads(k: nat, total: nat, n: nat)
    requires k < n && total > 0 && Disjoint(total, n)
    ensures Cut(k, total, n) >= k
  {
    if k > 0 {
      DisjointSpreads(k - 1, total, n);
      StretchesInside(k - 1, total, n);
      assert End(k - 1, total, n) <= Cut(k, total, n);
    }
  }

  /** The stretches, which cover the items, part them exactly when there are no more stretches than items. */
  lemma PartitionExactly(total: nat, n: nat)
    requires n > 0 && total > 0
    ensures Disjoint(total, n) <==> total >= n
  {
    if total >= n {
      forall j, k | 0 <= j < k < n ensures End(j, total, n) <= Cut(k, total, n) {
        CutMonotone(j, j + 1, total, n);
        CutMonotone(j + 1, k, total, n);
        CutInside(k, total, n);
      }
    } else if Disjoint(total, n) {
      DisjointSpreads(n - 1, total, n);
      CutInside(n - 1, total, n);
    }
  }

  // ---- peaks ----

  function Abs(v: int): nat {
    if v < 0 then -v else v
  }

  function Channels(channels: int): nat {
    if channels > 0 then channels else 1
  }

  function Frames(samples: nat, channels: nat): nat
    requires channels > 0
  {
    samples / channels
  }

  lemma FrameInside(samples: nat, channels: nat, i: nat)
    requires channels > 0 && i < Frames(samples, channels)
    ensures i * channels < samples
  {
    assert samples >= Frames(samples, channels) * channels;
    assert (Frames(samples, channels) - i) * channels >= 1;
  }

  /** Channel 0 of every whole frame. */
  function Mono(samples: seq<int>, channels: int): (m: seq<int>)
    ensures |m| == Frames(|samples|, Channels(channels))
    ensures var ch := if channels > 0 then channels else 1; |m| * ch <= |samples| < |m| * ch + ch
    ensures var ch := if channels > 0 then channels else 1;
            forall i :: 0 <= i < |m| ==> i * ch < |samples| && m[i] == samples[i * ch]
  {
    var ch := Channels(channels);
    var frames := Frames(|samples|, ch);
    assert forall i: nat :: i < frames ==> i * ch < |samples| by {
      forall i: nat | i < frames ensures i * ch < |samples| {
        FrameInside(|samples|, ch, i);
      }
    }
    seq(frames, i requires 0 <= i < frames => samples[i * ch])
  }

  /** p is the largest magnitude of the frames lo..hi. */
  ghost predicate Loudest(mono: seq<int>, lo: int, hi: int, p: int)
    requires 0 <= lo <= hi <= |mono|
  {
    && (forall i :: lo <= i < hi ==> -p <= mono[i] <= p)
    && (exists i :: lo <= i < hi && (mono[i] == p || mono[i] == -p))
  }

  /** Int16 samples. */
  ghost predicate Int16s(samples: seq<int>) {
    forall i :: 0 <= i < |samples| ==> -SCALE <= samples[i] < SCALE
  }

  function Normal(magnitude: nat): real {
    magnitude as real / SCALE as real
  }

  /** Bucket b of n holds the loudest of its frames. */
  ghost predicate BucketIs(mono: seq<int>, n: nat, b: nat, peak: real)
    requires b < n && mono != []
  {
    StretchesInside(b, |mono|, n);
    exists p: nat :: Loudest(mono, Cut(b, |mono|, n), End(b, |mono|, n), p) && peak == p as real / 32768.0
  }

  /** The first buckets of n hold the loudest of their frames. */
  ghost predicate Filled(mono: seq<int>, n: nat, peaks: seq<real>)
    requires |peaks| <= n && mono != []
  {
    forall b :: 0 <= b < |peaks| ==> BucketIs(mono, n, b, peaks[b])
  }

  lemma FillNext(mono: seq<int>, n: nat, peaks: seq<real>, p: nat)
    requires |peaks| < n && mono != [] && Filled(mono, n, peaks)
    requires 0 <= Cut(|peaks|, |mono|, n) <= End(|peaks|, |mono|, n) <= |mono|
    requires Loudest(mono, Cut(|peaks|, |mono|, n), End(|peaks|, |mono|, n), p)
    ensures Filled(mono, n, peaks + [Normal(p)])
  {
    assert BucketIs(mono, n, |peaks|, Normal(p));
  }

  ghost predicate PeaksOf(mono: seq<int>, peaks: seq<real>) {
    if mono == [] then forall b :: 0 <= b < |peaks| ==> peaks[b] == 0.0
    else Filled(mono, |peaks|, peaks)
  }

  method ExtractPeaks(samples: seq<int>, channels: int, buckets: int) returns (out: array<real>)
    ensures fresh(out) && out.Length == Max(buckets, 0) && PeaksOf(Mono(samples, channels), out[..])
  {
    out := new real[if buckets > 0 then buckets else 0](_ => 0.0);
    var ch := Channels(channels);
    var frames := Frames(|samples|, ch);
    ghost var mono := Mono(samples, channels);
    if frames <= 0 || out.Length == 0 {
      return;
    }
    ghost var done := [];
    for b := 0 to out.Length
      invariant |done| == b && Filled(mono, out.Length, done)
      invariant forall k :: 0 <= k < b ==> out[k] == done[k]
    {
      StretchesInside(b, frames, out.Length);
      var start := Cut(b, frames, out.Length);
      var end := Min(frames, Max(start + 1, Cut(b + 1, frames, out.Length)));
      var peak := 0;
      for i := start to end
        invariant 0 <= peak && (i > start ==> Loudest(mono, start, i, peak)) && (i == start ==> peak == 0)
        invariant forall k :: 0 <= k < b ==> out[k] == done[k]
      {
        FrameInside(|samples|, ch, i);
        var v := Abs(samples[i * ch]);
        LoudestNext(mono, start, i, peak);
        if v > peak {
          peak := v;
        }
      }
      out[b] := Normal(peak);
      FillNext(mono, out.Length, done, peak);
      done := done + [Normal(peak)];
    }
  }

  lemma LoudestNext(mono: seq<int>, lo: nat, i: nat, peak: nat)
    requires lo <= i < |mono|
    requires if i == lo then peak == 0 else Loudest(mono, lo, i, peak)
    ensures Loudest(mono, lo, i + 1, if Abs(mono[i]) > peak then Abs(mono[i]) else peak)
  {
    if i > lo {
      var k :| lo <= k < i && Abs(mono[k]) == peak;
      assert Abs(mono[k]) == peak;
    }
    assert Abs(mono[i]) == Abs(mono[i]);
  }

  lemma NormalOrder(a: nat, b: nat)
    ensures a <= b ==> Normal(a) <= Normal(b)
    ensures 0.0 <= Normal(a) && (a <= SCALE ==> Normal(a) <= 1.0)
  {
  }

  lemma MonoIsInt16(samples: seq<int>, channels: int)
    requires Int16s(samples)
    ensures Int16s(Mono(samples, channels))
  {
  }

  lemma BucketInRange(mono: seq<int>, n: nat, b: nat, peak: real)
    requires Int16s(mono) && mono != [] && b < n && BucketIs(mono, n, b, peak)
    ensures 0.0 <= peak <= 1.0
  {
    StretchesInside(b, |mono|, n);
    var lo, hi := Cut(b, |mono|, n), End(b, |mono|, n);
    var p: nat :| Loudest(mono, lo, hi, p) && peak == Normal(p);
    var i :| lo <= i < hi && Abs(mono[i]) == p;
    NormalOrder(p, p);
  }

  /** Every peak lies between 0 and 1. */
  lemma PeaksInRange(samples: seq<int>, channels: int, peaks: seq<real>)
    requires Int16s(samples) && PeaksOf(Mono(samples, channels), peaks)
    ensures forall b :: 0 <= b < |peaks| ==> 0.0 <= peaks[b] <= 1.0
  {
    MonoIsInt16(samples, channels);
    PeaksFrom(Mono(samples, channels), peaks);
  }

  lemma PeaksFrom(mono: seq<int>, peaks: seq<real>)
    requires Int16s(mono) && PeaksOf(mono, peaks)
    ensures forall b :: 0 <= b < |peaks| ==> 0.0 <= peaks[b] <= 1.0
  {
    if mono != [] {
      forall b | 0 <= b < |peaks| ensures 0.0 <= peaks[b] <= 1.0 {
        BucketInRange(mono, |peaks|, b, peaks[b]);
      }
    }
  }

  /** x is the largest element. */
  ghost predicate Highest(xs: seq<real>, x: real) {
    (forall k :: 0 <= k < |xs| ==> xs[k] <= x) && x in xs
  }

  lemma BucketBound(mono: seq<int>, n: nat, b: nat, peak: real, loudest: nat)
    requires b < n && mono != [] && BucketIs(mono, n, b, peak) && Loudest(mono, 0, |mono|, loudest)
    ensures peak <= Normal(loudest)
    ensures forall i :: Cut(b, |mono|, n) <= i < End(b, |mono|, n) && 0 <= i < |mono| ==> Normal(Abs(mono[i])) <= peak
  {
    StretchesInside(b, |mono|, n);
    var lo, hi := Cut(b, |mono|, n), End(b, |mono|, n);
    var p: nat :| Loudest(mono, lo, hi, p) && peak == Normal(p);
    var i :| lo <= i < hi && Abs(mono[i]) == p;
    NormalOrder(p, loudest);
    forall i | lo <= i < hi ensures Normal(Abs(mono[i])) <= peak {
      NormalOrder(Abs(mono[i]), p);
    }
  }

  /** The highest peak is the largest channel 0 magnitude of all the samples. */
  lemma HighestPeak(mono: seq<int>, peaks: seq<real>, loudest: nat)
    requires mono != [] && peaks != [] && PeaksOf(mono, peaks) && Loudest(mono, 0, |mono|, loudest)
    ensures Highest(peaks, loudest as real / 32768.0)
  {
    forall b | 0 <= b < |peaks| ensures peaks[b] <= Normal(loudest) {
      BucketBound(mono, |peaks|, b, peaks[b], loudest);
    }
    var i :| 0 <= i < |mono| && Abs(mono[i]) == loudest;
    var b := StretchesCover(i, |mono|, |peaks|);
    BucketBound(mono, |peaks|, b, peaks[b], loudest);
    assert peaks[b] == Normal(loudest);
  }

  // ---- columns ----

  /** The bar for a peak: the peak's share of the height but two pixels, and never under one pixel. */
  predicate BarFor(bar: real, peak: real, height: nat) {
    var share := peak * (height as real - 2.0);
    bar >= 1.0 && bar >= share && (bar == 1.0 || bar == share)
  }

  /** bar is the one for the largest peak of column x. */
  ghost predicate ColumnIs(peaks: seq<real>, w: nat, height: nat, x: nat, bar: real)
    requires x < w && |peaks| > 0
  {
    StretchesInside(x, |peaks|, w);
    exists p :: Highest(peaks[Cut(x, |peaks|, w)..End(x, |peaks|, w)], p)
                && BarFor(bar, p, height)
  }

  /** The bars drawn, left to right. */
  method DrawColumns(peaks: seq<real>, w: nat, height: nat) returns (bars: seq<real>)
    requires forall b :: 0 <= b < |peaks| ==> peaks[b] >= 0.0
    ensures peaks == [] ==> bars == []
    ensures peaks != [] ==> |bars| == w && forall x :: 0 <= x < w ==> ColumnIs(peaks, w, height, x, bars[x])
  {
    bars := [];
    if |peaks| == 0 {
      return;
    }
    for x := 0 to w
      invariant |bars| == x && forall k :: 0 <= k < x ==> ColumnIs(peaks, w, height, k, bars[k])
    {
      var b0 := Cut(x, |peaks|, w);
      var b1 := Max(b0 + 1, Cut(x + 1, |peaks|, w));
      StretchesInside(x, |peaks|, w);
      var p := 0.0;
      var b := b0;
      while b < b1 && b < |peaks|
        invariant b0 <= b <= End(x, |peaks|, w)
        invariant b == b0 ==> p == 0.0
        invariant b > b0 ==> Highest(peaks[b0..b], p)
      {
        HighestNext(peaks, b0, b, p);
        if peaks[b] > p {
          p := peaks[b];
        }
        b := b + 1;
      }
      assert b == End(x, |peaks|, w);
      var share := p * (height as real - 2.0);
      bars := bars + [if share < 1.0 then 1.0 else share];
      assert ColumnIs(peaks, w, height, x, bars[x]);
    }
  }

  lemma HighestNext(peaks: seq<real>, b0: nat, b: nat, p: real)
    requires b0 <= b < |peaks| && peaks[b] >= 0.0
    requires if b == b0 then p == 0.0 else Highest(peaks[b0..b], p)
    ensures Highest(peaks[b0..b + 1], if peaks[b] > p then peaks[b] else p)
  {
    var now := peaks[b0..b + 1];
    assert now == peaks[b0..b] + [peaks[b]];
    assert now[b - b0] == peaks[b];
  }

  lemma SharesOrdered(p: real, q: real, room: real)
    requires 0.0 <= p <= q
    ensures p * room <= q * room || p * room <= 0.0
  {
    if room >= 0.0 {
      assert q * room == p * room + (q - p) * room;
      assert (q - p) * room >= 0.0;
    } else {
      assert p * room <= 0.0;
    }
  }

  /** A higher peak has no lower bar, and one peak has one bar. */
  lemma Taller(p: real, bar: real, q: real, other: real, height: nat)
    requires 0.0 <= p <= q && BarFor(bar, p, height) && BarFor(other, q, height)
    ensures bar <= other
  {
    SharesOrdered(p, q, height as real - 2.0);
  }

  lemma ColumnBound(peaks: seq<real>, w: nat, height: nat, x: nat, bar: real, top: real, tallest: real)
    requires x < w && |peaks| > 0 && ColumnIs(peaks, w, height, x, bar) && Highest(peaks, top)
    requires BarFor(tallest, top, height)
    requires forall b :: 0 <= b < |peaks| ==> peaks[b] >= 0.0
    ensures bar <= tallest
  {
    StretchesInside(x, |peaks|, w);
    var some := peaks[Cut(x, |peaks|, w)..End(x, |peaks|, w)];
    var p :| Highest(some, p) && BarFor(bar, p, height);
    var k :| 0 <= k < |some| && some[k] == p;
    assert some[k] == peaks[Cut(x, |peaks|, w) + k];
    Taller(p, bar, top, tallest, height);
  }

  /** The column that holds the highest peak shows it. */
  lemma ColumnOfHighest(peaks: seq<real>, w: nat, height: nat, x: nat, bar: real, top: real, b: nat)
    requires x < w && b < |peaks| && ColumnIs(peaks, w, height, x, bar) && Highest(peaks, top) && peaks[b] == top
    requires Cut(x, |peaks|, w) <= b < End(x, |peaks|, w)
    ensures BarFor(bar, top, height)
  {
    StretchesInside(x, |peaks|, w);
    var lo := Cut(x, |peaks|, w);
    var some := peaks[lo..End(x, |peaks|, w)];
    var p :| Highest(some, p) && BarFor(bar, p, height);
    assert some[b - lo] == top;
    var k :| 0 <= k < |some| && some[k] == p;
    assert some[k] == peaks[lo + k];
    assert p == top;
  }

  /** Some column shows the highest peak, and none is taller. */
  lemma HighestColumn(peaks: seq<real>, w: nat, height: nat, bars: seq<real>, top: real) returns (x: nat)
    requires w > 0 && |peaks| > 0 && |bars| == w && Highest(peaks, top)
    requires forall b :: 0 <= b < |peaks| ==> peaks[b] >= 0.0
    requires forall x :: 0 <= x < w ==> ColumnIs(peaks, w, height, x, bars[x])
    ensures x < w && Highest(bars, bars[x]) && BarFor(bars[x], top, height)
  {
    var b :| 0 <= b < |peaks| && peaks[b] == top;
    x := StretchesCover(b, |peaks|, w);
    ColumnOfHighest(peaks, w, height, x, bars[x], top, b);
    forall k | 0 <= k < w ensures bars[k] <= bars[x] {
      ColumnBound(peaks, w, height, k, bars[k], top, bars[x]);
    }
  }

  /**
   The loudest sample always reaches the canvas: whatever the number of frames, buckets and columns, the tallest
   bar is the one for the largest channel 0 magnitude.
   */
  lemma LoudestIsDrawn(samples: seq<int>, channels: int, peaks: seq<real>, w: nat, height: nat, bars: seq<real>,
                       loudest: nat)
    returns (x: nat)
    requires Int16s(samples) && Mono(samples, channels) != [] && PeaksOf(Mono(samples, channels), peaks) && peaks != []
    requires Loudest(Mono(samples, channels), 0, |Mono(samples, channels)|, loudest)
    requires w > 0 && |bars| == w
    requires forall x :: 0 <= x < w ==> ColumnIs(peaks, w, height, x, bars[x])
    ensures x < w && Highest(bars, bars[x]) && BarFor(bars[x], loudest as real / 32768.0, height)
  {
    HighestPeak(Mono(samples, channels), peaks, loudest);
    PeaksInRange(samples, channels, peaks);
    x := HighestColumn(peaks, w, height, bars, loudest as real / 32768.0);
  }
}
