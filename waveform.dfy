/** The audio player's waveform engine: a decoded channel of raw samples is
    cut into equal consecutive blocks, one per bar, and each bar's amplitude
    is the mean absolute sample of its block. */
module Waveform {
  import opened Arith

  /** One entry of the filtered data. The source divides the block's sum by
      the block size, and with fewer samples than bars that is 0 / 0, which
      is NaN. */
  datatype Amplitude = Num(value: real) | NaN

  function Abs(x: real): (r: real)
    ensures r >= 0.0 && (r == x || r == -x)
  {
    if x < 0.0 then -x else x
  }

  /** The divisor actually used: a configured value below 2 is raised to 2. */
  function EffectiveDivisor(samplesDivider: real): (d: real)
    ensures d >= 2.0
    ensures samplesDivider >= 2.0 ==> d == samplesDivider
    ensures samplesDivider < 2.0 ==> d == 2.0
  {
    if samplesDivider < 2.0 then 2.0 else samplesDivider
  }

  /** The bar count `width / divisor` is a whole number; only then does the
      source's loop run exactly that many times. */
  predicate WholeBarCount(width: nat, samplesDivider: real)
  {
    var q := width as real / EffectiveDivisor(samplesDivider);
    q.Floor as real == q
  }

  /** Number of bars for a canvas of the given width. */
  function TargetBars(width: nat, samplesDivider: real): (bars: nat)
    requires WholeBarCount(width, samplesDivider)
    ensures bars as real * EffectiveDivisor(samplesDivider) == width as real
    ensures 2 * bars <= width
  {
    var d := EffectiveDivisor(samplesDivider);
    var q := width as real / d;
    assert q * d == width as real;
    assert 2.0 * q <= width as real;
    q.Floor
  }

  /** Samples per bar: the floor of the sample count over the bar count. */
  function BlockSize(len: nat, bars: nat): (size: nat)
    requires bars > 0
    ensures bars * size <= len < bars * (size + 1)
  {
    len / bars
  }

  /** Sample k belongs to bar i's block. */
  predicate InBlock(size: nat, i: nat, k: nat)
  {
    size * i <= k < size * (i + 1)
  }

  /** Sum of |raw[k]| for lo <= k < hi, accumulated from left to right. */
  function AbsSum(raw: seq<real>, lo: nat, hi: nat): (s: real)
    requires lo <= hi <= |raw|
    ensures s >= 0.0
    decreases hi - lo
  {
    if lo == hi then 0.0 else AbsSum(raw, lo, hi - 1) + Abs(raw[hi - 1])
  }

  /** Every sample read for bar i, at index size * i + j with j < size, lies
      inside the channel. */
  lemma BlockReadInRange(len: nat, bars: nat, i: nat, j: nat)
    requires 0 < bars && i < bars
    requires j < BlockSize(len, bars)
    ensures BlockSize(len, bars) * i + j < len
  {
    BlockEndInRange(len, bars, i);
  }

  /** Bar i's block ends at or before the end of the channel. */
  lemma BlockEndInRange(len: nat, bars: nat, i: nat)
    requires 0 < bars && i < bars
    ensures BlockSize(len, bars) * (i + 1) <= len
  {
    MulMonotone(BlockSize(len, bars), i + 1, bars);
  }

  /** The blocks are consecutive and disjoint and together cover the first
      bars * size samples: each such sample lies in the block of bar
      k / size and in no other. The tail that is left over is shorter than
      the bar count. */
  lemma SampleInOneBlock(len: nat, bars: nat, k: nat)
    requires 0 < bars && 0 < BlockSize(len, bars)
    requires k < bars * BlockSize(len, bars)
    ensures k / BlockSize(len, bars) < bars
    ensures InBlock(BlockSize(len, bars), k / BlockSize(len, bars), k)
    ensures forall i: nat :: InBlock(BlockSize(len, bars), i, k) ==> i == k / BlockSize(len, bars)
    ensures len - bars * BlockSize(len, bars) < bars
  {
    var size := BlockSize(len, bars);
    var q := k / size;
    assert k == size * q + k % size;
    if q >= bars {
      MulMonotone(size, bars, q);
    }
    forall i: nat | InBlock(size, i, k)
      ensures i == q
    {
      if i < q {
        MulMonotone(size, i + 1, q);
      } else if i > q {
        MulMonotone(size, q + 1, i);
      }
    }
  }

  /** The amplitude of bar i when the channel is cut into `bars` blocks: the
      mean absolute sample of block i, or NaN when there are fewer samples
      than bars. */
  function BarAmplitude(raw: seq<real>, bars: nat, i: nat): (a: Amplitude)
    requires i < bars
    ensures a.NaN? <==> |raw| < bars
    ensures a.Num? ==> a.value >= 0.0
  {
    var size := BlockSize(|raw|, bars);
    if size == 0 then NaN
    else
      BlockEndInRange(|raw|, bars, i);
      Num(AbsSum(raw, size * i, size * (i + 1)) / size as real)
  }

  /** Samples in [-1, 1] give sums no larger than the number of samples. */
  lemma {:induction false} AbsSumAtMostCount(raw: seq<real>, lo: nat, hi: nat)
    requires lo <= hi <= |raw|
    requires forall k :: lo <= k < hi ==> -1.0 <= raw[k] <= 1.0
    ensures AbsSum(raw, lo, hi) <= (hi - lo) as real
  {
    if lo < hi {
      AbsSumAtMostCount(raw, lo, hi - 1);
    }
  }

  /** Decoded samples lie in [-1, 1], so every amplitude does too (and it is
      never negative). */
  lemma AmplitudeAtMostOne(raw: seq<real>, bars: nat, i: nat)
    requires i < bars
    requires forall k :: 0 <= k < |raw| ==> -1.0 <= raw[k] <= 1.0
    ensures BarAmplitude(raw, bars, i).Num? ==> 0.0 <= BarAmplitude(raw, bars, i).value <= 1.0
  {
    var size := BlockSize(|raw|, bars);
    if size > 0 {
      BlockEndInRange(|raw|, bars, i);
      var lo, hi := size * i, size * (i + 1);
      assert hi == lo + size;
      AbsSumAtMostCount(raw, lo, hi);
      MeanAtMostOne(AbsSum(raw, lo, hi), size as real);
    }
  }

  lemma MeanAtMostOne(sum: real, count: real)
    requires 0.0 < count && sum <= count
    ensures sum / count <= 1.0
  {
  }

  /** createWaveform: one pass per bar, summing |sample| over the bar's block
      and pushing the sum divided by the block size. */
  method CreateWaveform(raw: seq<real>, width: nat, samplesDivider: real) returns (filtered: seq<Amplitude>)
    requires WholeBarCount(width, samplesDivider)
    ensures |filtered| == TargetBars(width, samplesDivider)
    ensures forall i :: 0 <= i < |filtered| ==> filtered[i] == BarAmplitude(raw, |filtered|, i)
  {
    var samples := TargetBars(width, samplesDivider);
    // With no bars the loop below never runs, whatever the block size.
    var blockSize := if samples == 0 then 0 else BlockSize(|raw|, samples);
    filtered := [];
    var i := 0;
    while i < samples
      invariant 0 <= i <= samples
      invariant |filtered| == i
      invariant forall k :: 0 <= k < i ==> filtered[k] == BarAmplitude(raw, samples, k)
    {
      var blockStart := blockSize * i;
      if blockSize > 0 {
        BlockEndInRange(|raw|, samples, i);
      }
      var sum := 0.0;
      var j := 0;
      while j < blockSize
        invariant 0 <= j <= blockSize
        invariant blockStart + blockSize <= |raw|
        invariant sum == AbsSum(raw, blockStart, blockStart + j)
      {
        sum := sum + Abs(raw[blockStart + j]);
        j := j + 1;
      }
      // 0 / 0 is NaN in the source.
      filtered := filtered + [if blockSize == 0 then NaN else Num(sum / blockSize as real)];
      i := i + 1;
    }
  }
}
