/** Frequency-band levels of one animation frame (src/App.jsx, renderCombinedFrame).

    The analyser fills a byte buffer of frequency magnitudes; the frame splits it
    into bass, mid and treble ranges at 15% and 40% of its length, averages each
    range, normalises the averages by 128 and smooths them exponentially into
    persistent state. The split fractions are exact rationals here and the levels
    are reals: IEEE rounding of the original's floating-point arithmetic is not
    modelled. */
module Levels {

  /** fftSize given to the analyser node. */
  const FftSize: nat := 2048
  /** Length of the frequency buffer: half the FFT size. */
  const FrequencyBinCount: nat := FftSize / 2
  /** Average magnitude that normalises to level 1.0. */
  const Normaliser: real := 128.0
  /** Largest normalised level: a range whose every bin is 255. */
  const MaxLevel: real := 255.0 / 128.0
  /** Weight of the new raw level in one smoothing step. */
  const SmoothingFactor: real := 0.08

  /** Every bin is a byte magnitude. */
  predicate ByteBuffer(s: seq<int>) {
    forall i :: 0 <= i < |s| ==> 0 <= s[i] <= 255
  }

  // ---------------------------------------------------------------------------
  // Split points

  /** End of the bass range: floor(n * 0.15). */
  function BassEnd(n: nat): (b: nat)
    ensures b * 100 <= n * 15 < b * 100 + 100
  {
    n * 15 / 100
  }

  /** End of the mid range, start of treble: floor(n * 0.4). */
  function MidEnd(n: nat): (m: nat)
    ensures m * 100 <= n * 40 < m * 100 + 100
  {
    n * 40 / 100
  }

  /** The split points are ordered and inside the buffer. */
  lemma SplitOrdered(n: nat)
    ensures 0 <= BassEnd(n) <= MidEnd(n) <= n
  {
  }

  /** For the analyser's buffer of 1024 bins: bass is bins 0..152, mid 153..408,
      treble 409..1023. */
  lemma FrameSplit()
    ensures FrequencyBinCount == 1024
    ensures BassEnd(FrequencyBinCount) == 153 && MidEnd(FrequencyBinCount) == 409
  {
  }

  /** The three bands of a buffer. */
  datatype Band = Bass | Mid | Treble

  /** The band whose loop visits bin `i` of a buffer of `n` bins. */
  function BandOf(n: nat, i: nat): Band
  {
    if i < BassEnd(n) then Bass else if i < MidEnd(n) then Mid else Treble
  }

  /** Start and end of the loop range of a band. */
  function BandRange(n: nat, band: Band): (r: (nat, nat))
    ensures r.0 <= r.1 <= n
  {
    SplitOrdered(n);
    match band
    case Bass => (0, BassEnd(n))
    case Mid => (BassEnd(n), MidEnd(n))
    case Treble => (MidEnd(n), n)
  }

  /** The three ranges are disjoint and cover the buffer: every bin lies in the
      range of exactly one band, the one BandOf names. */
  lemma {:induction false} BandsPartition(n: nat, i: nat, band: Band)
    requires i < n
    ensures BandRange(n, band).0 <= i < BandRange(n, band).1 <==> band == BandOf(n, i)
  {
    SplitOrdered(n);
  }

  // ---------------------------------------------------------------------------
  // Sums and averages

  /** Sum of the bins in [lo, hi). */
  function Sum(s: seq<int>, lo: nat, hi: nat): int
    requires lo <= hi <= |s|
    decreases hi - lo
  {
    if lo == hi then 0 else Sum(s, lo, hi - 1) + s[hi - 1]
  }

  /** Sums over adjacent ranges add up. */
  lemma {:induction false} SumSplit(s: seq<int>, lo: nat, mid: nat, hi: nat)
    requires lo <= mid <= hi <= |s|
    ensures Sum(s, lo, mid) + Sum(s, mid, hi) == Sum(s, lo, hi)
    decreases hi - mid
  {
    if mid < hi {
      SumSplit(s, lo, mid, hi - 1);
    }
  }

  /** The three band sums together count every bin of the buffer once. */
  lemma BandSumsCoverBuffer(s: seq<int>)
    ensures var n := |s|;
      Sum(s, 0, BassEnd(n)) + Sum(s, BassEnd(n), MidEnd(n)) + Sum(s, MidEnd(n), n) == Sum(s, 0, n)
  {
    var n := |s|;
    SplitOrdered(n);
    SumSplit(s, 0, BassEnd(n), MidEnd(n));
    SumSplit(s, 0, MidEnd(n), n);
  }

  /** A sum of values in [m, M] lies between count*m and count*M. */
  lemma {:induction false} SumBounds(s: seq<int>, lo: nat, hi: nat, m: int, M: int)
    requires lo <= hi <= |s|
    requires forall i :: lo <= i < hi ==> m <= s[i] <= M
    ensures (hi - lo) * m <= Sum(s, lo, hi) <= (hi - lo) * M
    decreases hi - lo
  {
    if lo < hi {
      SumBounds(s, lo, hi - 1, m, M);
    }
  }

  /** Smallest bin in a non-empty range. */
  function RangeMin(s: seq<int>, lo: nat, hi: nat): (r: int)
    requires lo < hi <= |s|
    ensures forall i :: lo <= i < hi ==> r <= s[i]
    ensures exists i :: lo <= i < hi && s[i] == r
    decreases hi - lo
  {
    if hi - lo == 1 then s[lo]
    else
      var rest := RangeMin(s, lo, hi - 1);
      if s[hi - 1] < rest then s[hi - 1] else rest
  }

  /** Largest bin in a non-empty range. */
  function RangeMax(s: seq<int>, lo: nat, hi: nat): (r: int)
    requires lo < hi <= |s|
    ensures forall i :: lo <= i < hi ==> s[i] <= r
    ensures exists i :: lo <= i < hi && s[i] == r
    decreases hi - lo
  {
    if hi - lo == 1 then s[lo]
    else
      var rest := RangeMax(s, lo, hi - 1);
      if s[hi - 1] > rest then s[hi - 1] else rest
  }

  /** Mean of the bins in [lo, hi); an empty range averages to 0. */
  function Average(s: seq<int>, lo: nat, hi: nat): real
    requires lo <= hi <= |s|
  {
    if hi - lo > 0 then Sum(s, lo, hi) as real / (hi - lo) as real else 0.0
  }

  /** Dividing a total that lies between n*m and n*M by n gives a value between
      m and M. */
  lemma DivideBounds(total: int, n: nat, m: int, M: int)
    requires n > 0
    requires n * m <= total <= n * M
    ensures m as real <= total as real / n as real <= M as real
  {
    var q, k := total as real / n as real, n as real;
    assert q - m as real == (total as real - k * m as real) / k;
    assert M as real - q == (k * M as real - total as real) / k;
  }

  /** The average of a non-empty range lies between its smallest and largest bin. */
  lemma AverageWithinRange(s: seq<int>, lo: nat, hi: nat)
    requires lo < hi <= |s|
    ensures RangeMin(s, lo, hi) as real <= Average(s, lo, hi) <= RangeMax(s, lo, hi) as real
  {
    var m, M := RangeMin(s, lo, hi), RangeMax(s, lo, hi);
    SumBounds(s, lo, hi, m, M);
    DivideBounds(Sum(s, lo, hi), hi - lo, m, M);
  }

  /** Normalised level of a range: its average over 128. */
  function Level(s: seq<int>, lo: nat, hi: nat): real
    requires lo <= hi <= |s|
  {
    Average(s, lo, hi) / Normaliser
  }

  /** Over a byte buffer every level lies in [0, 255/128]; an empty range gives 0. */
  lemma LevelBounds(s: seq<int>, lo: nat, hi: nat)
    requires lo <= hi <= |s|
    requires ByteBuffer(s)
    ensures 0.0 <= Level(s, lo, hi) <= MaxLevel
    ensures lo == hi ==> Level(s, lo, hi) == 0.0
  {
    if lo < hi {
      SumBounds(s, lo, hi, 0, 255);
      DivideBounds(Sum(s, lo, hi), hi - lo, 0, 255);
    }
  }

  /** Sums the bins in [lo, hi) of the buffer with a loop, as each band's loop does. */
  method BandSum(data: array<int>, lo: nat, hi: nat) returns (sum: int)
    requires lo <= hi <= data.Length
    ensures sum == Sum(data[..], lo, hi)
  {
    sum := 0;
    var i := lo;
    while i < hi
      invariant lo <= i <= hi
      invariant sum == Sum(data[..], lo, i)
    {
      sum := sum + data[i];
      i := i + 1;
    }
  }

  /** The normalised bass, mid and treble levels of one frame's buffer. */
  method BandLevels(data: array<int>) returns (bass: real, mid: real, treble: real)
    ensures var s, n := data[..], data.Length;
      && bass == Level(s, 0, BassEnd(n))
      && mid == Level(s, BassEnd(n), MidEnd(n))
      && treble == Level(s, MidEnd(n), n)
    ensures ByteBuffer(data[..]) ==>
      0.0 <= bass <= MaxLevel && 0.0 <= mid <= MaxLevel && 0.0 <= treble <= MaxLevel
  {
    var n := data.Length;
    SplitOrdered(n);
    var bassEnd, midEnd := BassEnd(n), MidEnd(n);

    var bassSum := BandSum(data, 0, bassEnd);
    var bassAvg := if bassEnd > 0 then bassSum as real / bassEnd as real else 0.0;

    var midSum := BandSum(data, bassEnd, midEnd);
    var midAvg := if midEnd - bassEnd > 0 then midSum as real / (midEnd - bassEnd) as real else 0.0;

    var trebleSum := BandSum(data, midEnd, n);
    var trebleAvg := if n - midEnd > 0 then trebleSum as real / (n - midEnd) as real else 0.0;

    bass, mid, treble := bassAvg / Normaliser, midAvg / Normaliser, trebleAvg / Normaliser;

    if ByteBuffer(data[..]) {
      LevelBounds(data[..], 0, bassEnd);
      LevelBounds(data[..], bassEnd, midEnd);
      LevelBounds(data[..], midEnd, n);
    }
  }

  // ---------------------------------------------------------------------------
  // Smoothing

  /** One exponential smoothing step: move the smoothed value 8% of the way
      towards the new raw level. */
  function Smooth(smoothed: real, raw: real): (r: real)
    ensures smoothed <= raw ==> smoothed <= r <= raw
    ensures raw <= smoothed ==> raw <= r <= smoothed
    ensures raw == smoothed ==> r == smoothed
    ensures r - raw == (1.0 - SmoothingFactor) * (smoothed - raw)
  {
    smoothed + (raw - smoothed) * SmoothingFactor
  }

  /** The smoothed value after one step per frame, for the given raw levels. */
  function SmoothTrace(start: real, raws: seq<real>): real
    decreases |raws|
  {
    if raws == [] then start else SmoothTrace(Smooth(start, raws[0]), raws[1..])
  }

  /** A smoothed value that starts inside [lo, hi] and is fed raw levels inside
      [lo, hi] never leaves it; from 0 with byte-buffer levels it stays in
      [0, 255/128]. */
  lemma {:induction false} SmoothTraceBounded(start: real, raws: seq<real>, lo: real, hi: real)
    requires lo <= start <= hi
    requires forall k :: 0 <= k < |raws| ==> lo <= raws[k] <= hi
    ensures lo <= SmoothTrace(start, raws) <= hi
    decreases |raws|
  {
    if raws != [] {
      SmoothTraceBounded(Smooth(start, raws[0]), raws[1..], lo, hi);
    }
  }

  /** (1 - 0.08)^k: how much of the initial distance to a constant raw level
      remains after k frames. */
  function Decay(k: nat): (r: real)
    ensures 0.0 < r <= 1.0
  {
    if k == 0 then 1.0 else (1.0 - SmoothingFactor) * Decay(k - 1)
  }

  /** Fed a constant raw level, the distance from the smoothed value to it shrinks
      geometrically by 0.92 per frame. */
  lemma {:induction false} SmoothTraceConstant(start: real, raws: seq<real>, raw: real)
    requires forall k :: 0 <= k < |raws| ==> raws[k] == raw
    ensures SmoothTrace(start, raws) - raw == Decay(|raws|) * (start - raw)
    decreases |raws|
  {
    if raws != [] {
      var next := Smooth(start, raws[0]);
      SmoothTraceConstant(next, raws[1..], raw);
      calc {
        SmoothTrace(start, raws) - raw;
        SmoothTrace(next, raws[1..]) - raw;
        Decay(|raws| - 1) * (next - raw);
        Decay(|raws| - 1) * ((1.0 - SmoothingFactor) * (start - raw));
        Decay(|raws|) * (start - raw);
      }
    }
  }

  /** Overall level: the arithmetic mean of the three smoothed band levels. */
  function Overall(bass: real, mid: real, treble: real): (r: real)
    ensures r * 3.0 == bass + mid + treble
  {
    (bass + mid + treble) / 3.0
  }

  /** The overall level lies between the smallest and the largest band level. */
  lemma OverallBetween(bass: real, mid: real, treble: real, lo: real, hi: real)
    requires lo <= bass <= hi && lo <= mid <= hi && lo <= treble <= hi
    ensures lo <= Overall(bass, mid, treble) <= hi
  {
  }
}
