/** The audio player component: play/pause, time updates, the waveform it
    holds and the seek by clicking on the canvas. */
module AudioPlayer {
  import opened Media
  import opened Waveform
  import opened WaveformRender

  /** The options that reach the modelled logic (colours only choose how a
      bar is painted, the canvas width and height only size its container). */
  datatype Options = Options(samplesDivider: real, mergeAmount: int)

  const DefaultOptions: Options := Options(1.0, 5)

  /** The options a caller passes; None is a key left out. */
  datatype GivenOptions = GivenOptions(samplesDivider: Option<real>, mergeAmount: Option<int>)

  /** The defaults overlaid with the given options: a given option wins, a
      left-out one takes its default. */
  function MergeOptions(given: GivenOptions): (o: Options)
    ensures given.samplesDivider.Some? ==> o.samplesDivider == given.samplesDivider.value
    ensures given.samplesDivider.None? ==> o.samplesDivider == DefaultOptions.samplesDivider
    ensures given.mergeAmount.Some? ==> o.mergeAmount == given.mergeAmount.value
    ensures given.mergeAmount.None? ==> o.mergeAmount == DefaultOptions.mergeAmount
  {
    Options(
      match given.samplesDivider case Some(d) => d case None => DefaultOptions.samplesDivider,
      match given.mergeAmount case Some(m) => m case None => DefaultOptions.mergeAmount)
  }

  /** With no options the player groups bars by five and, the default divider
      being below the clamp, samples every half canvas width. */
  lemma DefaultsAccepted()
    ensures MergeOptions(GivenOptions(None, None)) == DefaultOptions
    ensures DefaultOptions.mergeAmount >= 1
    ensures EffectiveDivisor(DefaultOptions.samplesDivider) == 2.0
    ensures forall w: nat :: w % 2 == 0 ==>
      WholeBarCount(w, DefaultOptions.samplesDivider) && TargetBars(w, DefaultOptions.samplesDivider) == w / 2
  {
    forall w: nat | w % 2 == 0
      ensures WholeBarCount(w, DefaultOptions.samplesDivider) && TargetBars(w, DefaultOptions.samplesDivider) == w / 2
    {
      assert (w as real / 2.0) == (w / 2) as real;
    }
  }

  class Player {
    var isPlaying: bool
    var duration: real
    var progress: real
    var waveform: seq<Amplitude>
    /** Position of the audio element, in seconds. */
    var currentTime: real
    /** The play() and pause() calls made on the audio element, oldest first. */
    var commands: seq<Command>
    /** Width of the canvas bitmap, in pixels. */
    const width: nat
    const samplesDivider: real
    const mergeAmount: int

    ghost predicate Valid()
      reads this
    {
      mergeAmount >= 1
    }

    constructor (width: nat, given: GivenOptions)
      requires MergeOptions(given).mergeAmount >= 1
      ensures Valid()
      ensures this.width == width
      ensures samplesDivider == MergeOptions(given).samplesDivider && mergeAmount == MergeOptions(given).mergeAmount
      ensures !isPlaying && duration == 0.0 && progress == 0.0 && waveform == []
      ensures currentTime == 0.0 && commands == []
    {
      var options := MergeOptions(given);
      this.width := width;
      samplesDivider := options.samplesDivider;
      mergeAmount := options.mergeAmount;
      isPlaying := false;
      duration := 0.0;
      progress := 0.0;
      waveform := [];
      currentTime := 0.0;
      commands := [];
    }

    /** handlePlayPause: pause when playing, play otherwise, and flip the flag. */
    method PlayPause()
      modifies this`isPlaying, this`commands
      ensures isPlaying == !old(isPlaying)
      ensures commands == old(commands) + [if old(isPlaying) then Pause else Play]
    {
      if isPlaying {
        commands := commands + [Pause];
      } else {
        commands := commands + [Play];
      }
      isPlaying := !isPlaying;
    }

    /** handleMetadataLoaded: the element reports its duration. */
    method MetadataLoaded(elementDuration: real)
      modifies this`duration
      ensures duration == elementDuration
    {
      duration := elementDuration;
    }

    /** handleTimeUpdate: the element reports its position, and progress
        becomes that position as a percentage of the duration. */
    method TimeUpdate(elementTime: real)
      requires duration != 0.0
      modifies this`currentTime, this`progress
      ensures currentTime == elementTime
      ensures progress == ProgressPercent(elementTime, duration)
      ensures 0.0 <= elementTime <= duration ==> 0.0 <= progress <= 100.0
    {
      currentTime := elementTime;
      progress := (currentTime / duration) * 100.0;
    }

    /** handleCanvasClick: move the element to the time under the click. */
    method CanvasClick(clickX: real)
      requires width > 0
      modifies this`currentTime
      ensures currentTime == SeekTime(clickX, width as real, duration)
      ensures 0.0 <= clickX <= width as real && 0.0 <= duration ==> 0.0 <= currentTime <= duration
    {
      currentTime := (clickX / width as real) * duration;
    }

    /** createWaveform followed by setWaveform, given the decoded channel. */
    method LoadWaveform(raw: seq<real>)
      requires WholeBarCount(width, samplesDivider)
      modifies this`waveform
      ensures |waveform| == TargetBars(width, samplesDivider)
      ensures forall i :: 0 <= i < |waveform| ==> waveform[i] == BarAmplitude(raw, |waveform|, i)
    {
      waveform := CreateWaveform(raw, width, samplesDivider);
    }

    /** drawWaveform for the current waveform and progress. */
    method Draw() returns (layout: seq<BarLayout>)
      requires Valid()
      ensures |layout| == |waveform|
      ensures forall i :: 0 <= i < |layout| ==> IsBar(layout[i], i, |layout|, width as real, progress, mergeAmount)
      ensures 0.0 <= progress <= 100.0 ==> ListenedCount(layout) == CurrentPosition(progress, |layout|)
    {
      var end;
      layout, end := DrawWaveform(waveform, width as real, progress, mergeAmount);
    }
  }
}
