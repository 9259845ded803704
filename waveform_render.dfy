/** The audio player's waveform renderer and position mapper: where each bar
    goes on the canvas, whether it is drawn as listened, how a click on the
    canvas becomes a playback time. Only the computed numbers are modelled;
    the drawing calls themselves are not. */
module WaveformRender {
  import opened Media
  import opened Waveform
  import opened Arith

  /** What drawWaveform computes for one bar: its left edge, the width it is
      filled with, the merge offset and the colour choice. */
  datatype BarLayout = BarLayout(x: real, width: real, offset: int, listened: bool)

  /** Left edge of bar i when `count` bars share a canvas of the given width:
      i count-ths of the way across, so bars 0 to count start on the canvas. */
  function BarX(i: nat, count: nat, width: real): (x: real)
    requires count > 0
    ensures i <= count && 0.0 <= width ==> 0.0 <= x <= width
  {
    var f := i as real / count as real;
    ScaleFraction(f, width);
    assert i as real * (width / count as real) == f * width;
    i as real * (width / count as real)
  }

  /** Consecutive bars touch: each starts where the previous one ends. */
  lemma BarXStep(i: nat, count: nat, width: real)
    requires count > 0
    ensures BarX(i + 1, count, width) == BarX(i, count, width) + width / count as real
  {
  }

  /** The bars tile the canvas: the first starts at 0 and the last ends at
      the canvas width. */
  lemma BarsTileCanvas(count: nat, width: real)
    requires count > 0
    ensures BarX(0, count, width) == 0.0
    ensures BarX(count, count, width) == width
  {
  }

  /** Distance from bar i to the next multiple of mergeAmount above it. */
  function MergeOffset(i: nat, mergeAmount: int): (offset: int)
    requires mergeAmount >= 1
    ensures 1 <= offset <= mergeAmount
    ensures (i + offset) % mergeAmount == 0
  {
    var q := i / mergeAmount;
    DivModUnique(i + mergeAmount - i % mergeAmount, mergeAmount, q + 1, 0);
    mergeAmount - i % mergeAmount
  }

  /** No multiple of mergeAmount lies strictly between i and i + offset, so
      i + offset is the next multiple above i. */
  lemma MergeOffsetIsNextMultiple(i: nat, mergeAmount: int, k: int)
    requires mergeAmount >= 1
    requires i < k < i + MergeOffset(i, mergeAmount)
    ensures k % mergeAmount != 0
  {
    var m := mergeAmount;
    var q := i / m;
    DivModUnique(k, m, q, k - m * q);
  }

  /** Index of the first bar not yet listened: the floor of the played
      fraction of the bar count, so for a progress in [0, 100] the listened
      prefix is never longer than the waveform. */
  function CurrentPosition(progress: real, count: nat): (p: int)
    ensures 0.0 <= progress <= 100.0 ==> 0 <= p <= count
  {
    var fraction := progress / 100.0;
    assert 0.0 <= progress <= 100.0 ==> 0.0 <= fraction <= 1.0;
    ScaleFraction(fraction, count as real);
    (fraction * count as real).Floor
  }

  /** Number of bars drawn in the listened colour. */
  function ListenedCount(layout: seq<BarLayout>): nat
  {
    if layout == [] then 0
    else ListenedCount(layout[..|layout| - 1]) + (if layout[|layout| - 1].listened then 1 else 0)
  }

  /** When exactly the bars below p are listened, there are p of them,
      clamped to the number of bars. */
  lemma {:induction false} ListenedCountOfPrefix(layout: seq<BarLayout>, p: int)
    requires forall i :: 0 <= i < |layout| ==> (layout[i].listened <==> i < p)
    ensures ListenedCount(layout) == if p < 0 then 0 else if p > |layout| then |layout| else p
  {
    if layout != [] {
      var init := layout[..|layout| - 1];
      assert forall i :: 0 <= i < |init| ==> init[i] == layout[i];
      ListenedCountOfPrefix(init, p);
    }
  }

  /** Bar i of `count` bars on a canvas of the given width, as drawWaveform
      computes it: left edge BarX, the width of a share of the canvas less
      one pixel when the merge offset is 1, listened below the current
      position. */
  predicate IsBar(b: BarLayout, i: nat, count: nat, width: real, progress: real, mergeAmount: int)
    requires count > 0 && mergeAmount >= 1
    ensures IsBar(b, i, count, width, progress, mergeAmount) && i < count && 0.0 <= width ==>
      0.0 <= b.x && b.x + width / count as real <= width
    ensures IsBar(b, i, count, width, progress, mergeAmount) && progress <= 0.0 ==> !b.listened
  {
    BarXStep(i, count, width);
    && b.x == BarX(i, count, width)
    && b.offset == MergeOffset(i, mergeAmount)
    && b.width == width / count as real - (if b.offset == 1 then 1.0 else 0.0)
    && (b.listened <==> i < CurrentPosition(progress, count))
  }

  /** drawWaveform: bars of width `width / count` laid left to right from
      x = 0, the last one ending at the canvas edge. A bar is listened when
      it lies below the current position; the bar whose merge offset is 1
      is drawn one pixel narrower. Nothing is drawn for an empty waveform. */
  method DrawWaveform(waveform: seq<Amplitude>, width: real, progress: real, mergeAmount: int)
    returns (layout: seq<BarLayout>, x: real)
    requires mergeAmount >= 1
    ensures |layout| == |waveform|
    ensures forall i :: 0 <= i < |layout| ==> IsBar(layout[i], i, |layout|, width, progress, mergeAmount)
    ensures |layout| > 0 ==> x == width
    ensures 0.0 <= progress <= 100.0 ==> ListenedCount(layout) == CurrentPosition(progress, |layout|)
  {
    layout := [];
    x := 0.0;
    if |waveform| > 0 {
      var n := |waveform|;
      var barWidth := width / n as real;
      BarsTileCanvas(n, width);
      var i := 0;
      while i < n
        invariant 0 <= i <= n
        invariant |layout| == i
        invariant x == BarX(i, n, width)
        invariant forall k :: 0 <= k < i ==> IsBar(layout[k], k, n, width, progress, mergeAmount)
      {
        var offset := mergeAmount - i % mergeAmount;
        var currentPosition := ((progress / 100.0) * n as real).Floor;
        var isCurrentPositionListened := i < currentPosition;
        var barOffset := if offset - 1 != 0 then 0.0 else 1.0;
        var bar := BarLayout(x, barWidth - barOffset, offset, isCurrentPositionListened);
        assert offset == MergeOffset(i, mergeAmount);
        assert currentPosition == CurrentPosition(progress, n);
        assert IsBar(bar, i, n, width, progress, mergeAmount);
        layout := layout + [bar];
        BarXStep(i, n, width);
        x := x + barWidth;
        i := i + 1;
      }
      BarsTileCanvas(n, width);
    }
    if 0.0 <= progress <= 100.0 {
      ListenedCountOfPrefix(layout, CurrentPosition(progress, |layout|));
    }
  }

  /** handleCanvasClick: the time a click at clickX on a canvas of the given
      width seeks to. A click inside the canvas seeks inside the media. */
  function SeekTime(clickX: real, width: real, duration: real): (t: real)
    requires width > 0.0
    ensures 0.0 <= clickX <= width && 0.0 <= duration ==> 0.0 <= t <= duration
  {
    var fraction := clickX / width;
    ScaleFraction(fraction, duration);
    fraction * duration
  }

  /** Clicking at the left edge of bar i seeks to the start of bar i's share
      of the duration. */
  lemma ClickAtBarX(i: nat, count: nat, width: real, duration: real)
    requires count > 0 && width > 0.0
    ensures SeekTime(BarX(i, count, width), width, duration) == i as real * duration / count as real
  {
    var c := count as real;
    assert BarX(i, count, width) / width == i as real / c;
  }

  /** Clicking anywhere on bar i seeks into bar i's share of the duration:
      click mapping inverts the bar layout. */
  lemma ClickWithinBar(clickX: real, i: nat, count: nat, width: real, duration: real)
    requires count > 0 && width > 0.0 && duration > 0.0
    requires BarX(i, count, width) <= clickX < BarX(i + 1, count, width)
    ensures i as real * duration / count as real <= SeekTime(clickX, width, duration)
    ensures SeekTime(clickX, width, duration) < (i + 1) as real * duration / count as real
  {
    var t := SeekTime(clickX, width, duration);
    var lo, hi := BarX(i, count, width), BarX(i + 1, count, width);
    ClickAtBarX(i, count, width, duration);
    SeekTimeMonotone(lo, clickX, width, duration);
    assert i as real * duration / count as real <= t;
    ClickAtBarX(i + 1, count, width, duration);
    var next := (i + 1) as real * duration / count as real;
    assert SeekTime(hi, width, duration) == next;
    SeekTimeStrictlyMonotone(clickX, hi, width, duration);
    assert t < next;
  }

  lemma SeekTimeMonotone(a: real, b: real, width: real, duration: real)
    requires width > 0.0 && duration >= 0.0 && a <= b
    ensures SeekTime(a, width, duration) <= SeekTime(b, width, duration)
  {
    var fa, fb := a / width, b / width;
    DivMonotone(a, b, width);
    ScaleMonotone(fa, fb, duration);
    calc {
      SeekTime(a, width, duration);
      == fa * duration;
      <= fb * duration;
      == SeekTime(b, width, duration);
    }
  }

  lemma SeekTimeStrictlyMonotone(a: real, b: real, width: real, duration: real)
    requires width > 0.0 && duration > 0.0 && a < b
    ensures SeekTime(a, width, duration) < SeekTime(b, width, duration)
  {
    var fa, fb := a / width, b / width;
    DivStrict(a, b, width);
    ScaleStrict(fa, fb, duration);
    calc {
      SeekTime(a, width, duration);
      == fa * duration;
      < fb * duration;
      == SeekTime(b, width, duration);
    }
  }

  /** After a click, the time update that reports the new position makes
      exactly the bars lying wholly left of the click listened. */
  lemma ClickMarksBarsLeftOfIt(clickX: real, width: real, duration: real, count: nat, i: nat)
    requires width > 0.0 && duration != 0.0 && count > 0
    ensures i < CurrentPosition(ProgressPercent(SeekTime(clickX, width, duration), duration), count)
        <==> BarX(i + 1, count, width) <= clickX
  {
    var share := width / count as real;
    var y := clickX / share;
    ClickPosition(clickX, width, duration, count);
    FloorAbove(i, y);
    assert BarX(i + 1, count, width) == (i + 1) as real * share;
    ScaleBound((i + 1) as real, clickX, share);
  }

  /** i lies below the floor of y exactly when i + 1 is at most y. */
  lemma FloorAbove(i: int, y: real)
    ensures i < y.Floor <==> (i + 1) as real <= y
  {
  }

  /** The listened position after a click counts the bar shares left of the
      click: duration and the percentage scale cancel out. */
  lemma ClickPosition(clickX: real, width: real, duration: real, count: nat)
    requires width > 0.0 && duration != 0.0 && count > 0
    ensures CurrentPosition(ProgressPercent(SeekTime(clickX, width, duration), duration), count)
         == (clickX / (width / count as real)).Floor
  {
    var c := count as real;
    var t := SeekTime(clickX, width, duration);
    var p := ProgressPercent(t, duration);
    assert t == (clickX / width) * duration;
    CancelFactor(clickX / width, duration);
    assert t / duration == clickX / width;
    assert p == clickX / width * 100.0;
    CancelFactor(clickX / width, 100.0);
    assert p / 100.0 == clickX / width;
    assert (clickX / width) * c == clickX / (width / c);
  }
}
