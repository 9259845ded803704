/** The video player component as an event-driven state machine: each
    handler of the component is one event, `Step` says what it does to the
    player's state, and the class `Player` carries that state in fields that
    its methods update. */
module VideoPlayer {
  import opened Media
  import opened Arith

  /** The fixed keyboard seek step, in seconds. */
  const SeekStepSeconds: real := 5.0

  /** The playback rates offered by the rate buttons. */
  const PlaybackRates: seq<real> := [0.5, 1.0, 1.5, 2.0]

  /** A quality level from the streaming source's manifest. */
  datatype Level = Level(height: nat)

  /** A quality button: the level's position in the manifest and its label. */
  datatype Quality = Quality(index: nat, resolution: string)

  datatype Key = Space | ArrowLeft | ArrowRight | OtherKey

  /** The component's state, followed by what the component has set on the
      video elements and the streaming source. */
  datatype State = State(
    isPlaying: bool,
    progress: real,
    isDragging: bool,
    previewTime: real,
    duration: real,
    showPreview: bool,
    playbackRate: real,
    availableQualities: seq<Quality>,
    currentQuality: Option<int>,
    volume: real,
    isLoading: bool,
    // position of the primary video element
    currentTime: real,
    // position requested from the hidden preview video element
    previewElementTime: real,
    elementRate: real,
    elementVolume: real,
    // an Hls instance is attached (Hls.isSupported() held at mount)
    hlsAttached: bool,
    // the level last requested from the Hls instance, if any
    requestedLevel: Option<int>,
    // "canplay" listeners added to the primary element so far
    canPlayListeners: nat,
    // play() and pause() calls made on the primary element, oldest first
    commands: seq<Command>)

  /** What can happen to the player: user actions and notifications from the
      video element and the streaming source, each with its payload. */
  datatype Event =
    | PlayPause                              // handlePlayPause
    | MetadataLoaded(elementDuration: real)  // loadedmetadata
    | TimeUpdate(elementTime: real)          // timeupdate, handled by handleProgress
    | SeekStart                              // handleSeekStart
    // handleSeek; surfaceReady: the preview canvas, the preview element and
    // its 2D context exist, which in the source happens only while
    // showPreview holds, since the canvas is mounted only then
    | Seek(position: real, surfaceReady: bool)
    | SeekEnd(position: real)                // handleSeekEnd
    | CanPlay                                // canplay on the primary element
    | KeyDown(key: Key)                      // handleKeyDown
    | ManifestParsed(levels: seq<Level>)     // Hls MANIFEST_PARSED
    | LevelSwitched(level: int)              // Hls LEVEL_SWITCHED
    | ChangeQuality(qualityIndex: int)       // changeQuality
    | ChangePlaybackRate(rate: real)         // changePlaybackRate
    | VolumeChange(newVolume: real)          // handleVolumeChange

  /** The state right after mount; the elements start at rate 1 and volume 1. */
  function Initial(hlsSupported: bool): (s: State)
    ensures Inv(s)
    ensures !s.isPlaying && !s.isLoading && s.commands == []
    ensures s.hlsAttached == hlsSupported && s.currentQuality == None && s.availableQualities == []
  {
    State(false, 0.0, false, 0.0, 0.0, false, 1.0, [], None, 1.0, false,
          0.0, 0.0, 1.0, 1.0, hlsSupported, None, 0, [])
  }

  /** The number a string of decimal digits spells, most significant first. */
  function DigitsValue(s: string): nat
    requires forall k :: 0 <= k < |s| ==> '0' <= s[k] <= '9'
  {
    if s == [] then 0 else 10 * DigitsValue(s[..|s| - 1]) + (s[|s| - 1] - '0') as nat
  }

  /** Decimal digits of n, without leading zeros: the text JavaScript's
      template string gives for a non-negative integer. */
  function DecimalString(n: nat): (s: string)
    ensures 1 <= |s|
    ensures forall k :: 0 <= k < |s| ==> '0' <= s[k] <= '9'
    ensures s[0] == '0' ==> n == 0
    ensures DigitsValue(s) == n
  {
    var digit := ['0' + (n % 10) as char];
    if n < 10 then digit
    else
      var r := DecimalString(n / 10);
      assert (r + digit)[..|r + digit| - 1] == r;
      r + digit
  }

  /** The quality buttons built from the manifest's levels. */
  function Qualities(levels: seq<Level>): (qs: seq<Quality>)
    ensures |qs| == |levels|
    ensures forall k :: 0 <= k < |qs| ==> qs[k].index == k
    ensures forall k :: 0 <= k < |qs| ==> qs[k].resolution == DecimalString(levels[k].height) + "p"
  {
    seq(|levels|, k requires 0 <= k < |levels| => Quality(k, DecimalString(levels[k].height) + "p"))
  }

  /** ArrowLeft: back by the seek step, but not before 0. */
  function SeekBackward(t: real): (r: real)
    ensures 0.0 <= r && t - SeekStepSeconds <= r
    ensures 0.0 <= t ==> r <= t
    ensures r == 0.0 || r == t - SeekStepSeconds
  {
    if t - SeekStepSeconds < 0.0 then 0.0 else t - SeekStepSeconds
  }

  /** ArrowRight: forward by the seek step, but not past the duration. */
  function SeekForward(t: real, duration: real): (r: real)
    ensures r <= duration && r <= t + SeekStepSeconds
    ensures t <= duration ==> t <= r
    ensures r == duration || r == t + SeekStepSeconds
  {
    if duration < t + SeekStepSeconds then duration else t + SeekStepSeconds
  }

  /** The time a position of the seek slider (0 to 100) stands for. */
  function SliderTime(position: real, duration: real): (t: real)
    ensures 0.0 <= position <= 100.0 && 0.0 <= duration ==> 0.0 <= t <= duration
  {
    var fraction := position / 100.0;
    ScaleFraction(fraction, duration);
    fraction * duration
  }

  /** handlePlayPause: flips isPlaying and calls pause on a playing element,
      play on a paused one; nothing else changes. */
  function TogglePlay(s: State): (t: State)
    ensures t.isPlaying != s.isPlaying
    ensures |t.commands| == |s.commands| + 1 && t.commands[..|s.commands|] == s.commands
    ensures t.commands[|s.commands|] == Pause <==> s.isPlaying
    ensures t.(isPlaying := s.isPlaying, commands := s.commands) == s
  {
    s.(isPlaying := !s.isPlaying, commands := s.commands + [if s.isPlaying then Pause else Play])
  }

  /** The effect of one event on the player.  Whether Hls is attached never
      changes, the duration changes only when the element reports its
      metadata, and the element commands issued so far are never rewritten. */
  function Step(s: State, e: Event): (t: State)
    ensures t.hlsAttached == s.hlsAttached
    ensures !e.MetadataLoaded? ==> t.duration == s.duration
    ensures |s.commands| <= |t.commands| && t.commands[..|s.commands|] == s.commands
    ensures Inv(s) ==> Inv(t)
  {
    match e
    case PlayPause => TogglePlay(s)
    case MetadataLoaded(d) => s.(duration := d)
    case TimeUpdate(t) =>
      if !s.isDragging && s.duration != 0.0
      then s.(currentTime := t, progress := ProgressPercent(t, s.duration))
      else s.(currentTime := t)
    case SeekStart => s.(isDragging := true, showPreview := true)
    case Seek(position, surfaceReady) =>
      var seekTime := SliderTime(position, s.duration);
      s.(previewTime := seekTime,
         previewElementTime := if surfaceReady then seekTime else s.previewElementTime)
    case SeekEnd(position) =>
      s.(currentTime := SliderTime(position, s.duration), isDragging := false, showPreview := false,
         progress := position, isLoading := true, canPlayListeners := s.canPlayListeners + 1)
    case CanPlay => if s.canPlayListeners > 0 then s.(isLoading := false) else s
    case KeyDown(key) =>
      (match key
       case Space => TogglePlay(s)
       case ArrowLeft => s.(currentTime := SeekBackward(s.currentTime))
       case ArrowRight => s.(currentTime := SeekForward(s.currentTime, s.duration))
       case OtherKey => s)
    case ManifestParsed(levels) =>
      if !s.hlsAttached then s
      else
        var qs := Qualities(levels);
        s.(availableQualities := qs, currentQuality := if qs == [] then None else Some(qs[0].index))
    case LevelSwitched(level) => if !s.hlsAttached then s else s.(currentQuality := Some(level))
    case ChangeQuality(index) => if !s.hlsAttached then s else s.(requestedLevel := Some(index))
    case ChangePlaybackRate(rate) => s.(elementRate := rate, playbackRate := rate)
    case VolumeChange(v) =>
      // the element's volume setter throws outside [0, 1], before setVolume runs
      if 0.0 <= v <= 1.0 then s.(elementVolume := v, volume := v) else s
  }

  /** The quality button for q is disabled: no button is while no quality is
      current, and a disabled button is the current quality's. */
  predicate QualityButtonDisabled(s: State, q: Quality)
    ensures s.currentQuality == None ==> !QualityButtonDisabled(s, q)
    ensures QualityButtonDisabled(s, q) ==> s.currentQuality.value == q.index
  {
    s.currentQuality == Some(q.index)
  }

  /** The k-th rate button is disabled: when it is, every other rate button
      is enabled, since the rates are distinct. */
  predicate RateButtonDisabled(s: State, k: nat)
    requires k < |PlaybackRates|
    ensures RateButtonDisabled(s, k) ==>
      forall j :: 0 <= j < |PlaybackRates| && j != k ==> PlaybackRates[j] != s.playbackRate
  {
    s.playbackRate == PlaybackRates[k]
  }

  /** The seek slider's value: the previewed position while dragging, the
      progress otherwise; None stands for the NaN of 0 / 0 before the
      duration is known. */
  function SliderValue(s: State): (r: Option<real>)
    ensures r.None? <==> s.isDragging && s.duration == 0.0
    ensures !s.isDragging ==> r == Some(s.progress)
    ensures r.Some? && s.isDragging ==> r.value * s.duration == s.previewTime * 100.0
  {
    if !s.isDragging then Some(s.progress)
    else if s.duration == 0.0 then None
    else Some((s.previewTime / s.duration) * 100.0)
  }

  /** What every reachable state satisfies: the elements' rate and volume
      mirror the state, dragging and the preview come and go together, the
      loading overlay has a canplay listener to clear it, the quality buttons
      are numbered in order, and without Hls nothing about qualities is
      ever set. */
  ghost predicate Inv(s: State)
  {
    && s.elementRate == s.playbackRate
    && s.elementVolume == s.volume
    && s.isDragging == s.showPreview
    && (s.isLoading ==> s.canPlayListeners > 0)
    && (forall k :: 0 <= k < |s.availableQualities| ==> s.availableQualities[k].index == k)
    && (!s.hlsAttached ==> s.availableQualities == [] && s.currentQuality == None && s.requestedLevel == None)
  }

  /** The play/pause button and the Space key flip isPlaying and call pause
      exactly when the player was playing, play otherwise. */
  lemma PlayPauseToggles(s: State)
    ensures Step(s, PlayPause).isPlaying == !s.isPlaying
    ensures Step(s, PlayPause).commands == s.commands + [if s.isPlaying then Pause else Play]
    ensures Step(s, KeyDown(Space)) == Step(s, PlayPause)
    ensures Step(Step(s, PlayPause), PlayPause).isPlaying == s.isPlaying
  {
  }

  /** The state after a sequence of key presses. */
  function PressKeys(s: State, keys: seq<Key>): State
    decreases keys
  {
    if keys == [] then s else PressKeys(Step(s, KeyDown(keys[0])), keys[1..])
  }

  /** Key presses change neither the duration nor, from a position in
      [0, duration], the fact that the position lies in [0, duration]. */
  lemma {:induction false} KeysKeepTimeInRange(s: State, keys: seq<Key>)
    requires 0.0 <= s.currentTime <= s.duration
    ensures PressKeys(s, keys).duration == s.duration
    ensures 0.0 <= PressKeys(s, keys).currentTime <= s.duration
    decreases keys
  {
    if keys != [] {
      KeysKeepTimeInRange(Step(s, KeyDown(keys[0])), keys[1..]);
    }
  }

  /** A time update moves the progress only when no drag is under way and the
      duration is known, and then to a percentage in [0, 100] for a position
      inside the media. */
  lemma TimeUpdateProgress(s: State, t: real)
    ensures Step(s, TimeUpdate(t)).progress != s.progress ==> !s.isDragging && s.duration != 0.0
    ensures !s.isDragging && s.duration != 0.0 ==>
      Step(s, TimeUpdate(t)).progress * s.duration == t * 100.0
    ensures !s.isDragging && 0.0 <= t <= s.duration && s.duration != 0.0 ==>
      0.0 <= Step(s, TimeUpdate(t)).progress <= 100.0
  {
  }

  /** Pressing on the seek slider starts a drag and shows the preview. */
  lemma SeekStartShowsPreview(s: State)
    ensures Step(s, SeekStart).isDragging && Step(s, SeekStart).showPreview
    ensures Step(s, SeekStart).currentTime == s.currentTime
  {
  }

  /** A seek, whether from a drag or from anywhere else, previews the time
      for the position, asks the preview element for it when the preview
      surface exists, and leaves the primary position and playback alone. */
  lemma SeekMovesOnlyPreview(s: State, position: real, surfaceReady: bool)
    ensures Step(s, Seek(position, surfaceReady)).previewTime == position / 100.0 * s.duration
    ensures Step(s, Seek(position, surfaceReady)).currentTime == s.currentTime
    ensures Step(s, Seek(position, surfaceReady)).isPlaying == s.isPlaying
    ensures Step(s, Seek(position, surfaceReady)).isDragging == s.isDragging
    ensures surfaceReady ==> Step(s, Seek(position, surfaceReady)).previewElementTime == position / 100.0 * s.duration
    ensures !surfaceReady ==> Step(s, Seek(position, surfaceReady)).previewElementTime == s.previewElementTime
  {
  }

  /** During a drag with a known duration the slider shows the position the
      pointer moved it to. */
  lemma SliderFollowsDrag(s: State, position: real, surfaceReady: bool)
    requires s.isDragging && s.duration != 0.0
    ensures SliderValue(Step(s, Seek(position, surfaceReady))) == Some(position)
  {
    var moved := Step(s, Seek(position, surfaceReady));
    var d := s.duration;
    var fraction := position / 100.0;
    assert moved.previewTime == fraction * d;
    CancelFactor(fraction, d);
    assert moved.previewTime / d == fraction;
    assert SliderValue(moved) == Some(fraction * 100.0);
  }

  /** Releasing the slider commits the time under the pointer to the primary
      element, ends the drag, hides the preview and shows the loading overlay
      until the element can play; the slider stays where it was released. */
  lemma SeekEndCommits(s: State, position: real)
    ensures Step(s, SeekEnd(position)).currentTime == position / 100.0 * s.duration
    ensures !Step(s, SeekEnd(position)).isDragging && !Step(s, SeekEnd(position)).showPreview
    ensures Step(s, SeekEnd(position)).progress == position
    ensures Step(s, SeekEnd(position)).isLoading
    ensures SliderValue(Step(s, SeekEnd(position))) == Some(position)
    ensures !Step(Step(s, SeekEnd(position)), CanPlay).isLoading
  {
  }

  /** A parsed manifest yields one quality per level, numbered in order, and
      selects the first one, or none for an empty manifest. */
  lemma ManifestSelectsFirst(s: State, levels: seq<Level>)
    requires s.hlsAttached
    ensures var t := Step(s, ManifestParsed(levels));
      && |t.availableQualities| == |levels|
      && (forall k :: 0 <= k < |levels| ==> t.availableQualities[k].index == k)
      && t.currentQuality == (if levels == [] then None else Some(0))
  {
  }

  /** A quality request only reaches the streaming source (and without Hls
      does nothing); the active quality is whatever level the source reports
      last, whatever was requested. */
  lemma QualityFollowsSource(s: State, requested: int, reported: int)
    ensures !s.hlsAttached ==> Step(s, ChangeQuality(requested)) == s
    ensures Step(s, ChangeQuality(requested)).currentQuality == s.currentQuality
    ensures s.hlsAttached ==> Step(s, ChangeQuality(requested)).requestedLevel == Some(requested)
    ensures s.hlsAttached ==>
      Step(Step(s, ChangeQuality(requested)), LevelSwitched(reported)).currentQuality == Some(reported)
  {
  }

  /** Setting a rate or a volume twice is the same as setting it once; a
      volume outside [0, 1] is refused by the element and changes nothing. */
  lemma SettersIdempotent(s: State, rate: real, v: real)
    ensures Step(Step(s, ChangePlaybackRate(rate)), ChangePlaybackRate(rate)) == Step(s, ChangePlaybackRate(rate))
    ensures Step(Step(s, VolumeChange(v)), VolumeChange(v)) == Step(s, VolumeChange(v))
    ensures 0.0 <= v <= 1.0 ==> Step(s, VolumeChange(v)).volume == v && Step(s, VolumeChange(v)).elementVolume == v
    ensures !(0.0 <= v <= 1.0) ==> Step(s, VolumeChange(v)) == s
  {
  }

  /** After choosing the k-th rate, its button and only its button is
      disabled; after the source reports a level, exactly that level's quality
      button is. */
  lemma ButtonsDisabledForCurrent(s: State, k: nat, j: nat, level: int, q: Quality)
    requires k < |PlaybackRates| && j < |PlaybackRates|
    ensures RateButtonDisabled(Step(s, ChangePlaybackRate(PlaybackRates[k])), j) <==> j == k
    ensures s.hlsAttached ==>
      (QualityButtonDisabled(Step(s, LevelSwitched(level)), q) <==> q.index == level)
  {
  }

  /** Two levels, 360p and 720p: asking for the second and hearing the source
      switch to it leaves 720p active, its button disabled and 360p enabled. */
  lemma TwoLevelScenario()
    ensures var s0 := Step(Initial(true), ManifestParsed([Level(360), Level(720)]));
      var s1 := Step(Step(s0, ChangeQuality(1)), LevelSwitched(1));
      && s0.availableQualities == [Quality(0, "360p"), Quality(1, "720p")]
      && s0.currentQuality == Some(0)
      && s1.currentQuality == Some(1)
      && QualityButtonDisabled(s1, s0.availableQualities[1])
      && !QualityButtonDisabled(s1, s0.availableQualities[0])
  {
    TwoLevelQualities();
  }

  /** The buttons for levels of height 360 and 720 read "360p" and "720p". */
  lemma TwoLevelQualities()
    ensures Qualities([Level(360), Level(720)]) == [Quality(0, "360p"), Quality(1, "720p")]
  {
    assert DecimalString(3) == "3";
    assert DecimalString(36) == "36";
    assert DecimalString(360) == "360";
    assert DecimalString(7) == "7";
    assert DecimalString(72) == "72";
    assert DecimalString(720) == "720";
    assert "360" + "p" == "360p";
    assert "720" + "p" == "720p";
    var qs := Qualities([Level(360), Level(720)]);
    assert qs[0] == Quality(0, "360p") && qs[1] == Quality(1, "720p");
  }

  class Player {
    var isPlaying: bool
    var progress: real
    var isDragging: bool
    var previewTime: real
    var duration: real
    var showPreview: bool
    var playbackRate: real
    var availableQualities: seq<Quality>
    var currentQuality: Option<int>
    var volume: real
    var isLoading: bool
    var currentTime: real
    var previewElementTime: real
    var elementRate: real
    var elementVolume: real
    const hlsAttached: bool
    var requestedLevel: Option<int>
    var canPlayListeners: nat
    var commands: seq<Command>

    /** The player's fields as one state value. */
    function Snapshot(): State
      reads this
    {
      State(isPlaying, progress, isDragging, previewTime, duration, showPreview, playbackRate,
            availableQualities, currentQuality, volume, isLoading, currentTime, previewElementTime,
            elementRate, elementVolume, hlsAttached, requestedLevel, canPlayListeners, commands)
    }

    constructor (hlsSupported: bool)
      ensures Snapshot() == Initial(hlsSupported)
      ensures Inv(Snapshot())
    {
      isPlaying, progress, isDragging, previewTime := false, 0.0, false, 0.0;
      duration, showPreview, playbackRate := 0.0, false, 1.0;
      availableQualities, currentQuality, volume, isLoading := [], None, 1.0, false;
      currentTime, previewElementTime, elementRate, elementVolume := 0.0, 0.0, 1.0, 1.0;
      hlsAttached, requestedLevel, canPlayListeners, commands := hlsSupported, None, 0, [];
    }

    method PlayPause()
      modifies this
      ensures Snapshot() == Step(old(Snapshot()), Event.PlayPause)
      ensures isPlaying == !old(isPlaying)
    {
      var wasPlaying := isPlaying;
      isPlaying := !wasPlaying;
      commands := commands + [if wasPlaying then Pause else Play];
    }

    method MetadataLoaded(elementDuration: real)
      modifies this
      ensures Snapshot() == Step(old(Snapshot()), Event.MetadataLoaded(elementDuration))
    {
      duration := elementDuration;
    }

    /** The element reports its position and handleProgress runs. */
    method TimeUpdate(elementTime: real)
      modifies this
      ensures Snapshot() == Step(old(Snapshot()), Event.TimeUpdate(elementTime))
      ensures isDragging || duration == 0.0 ==> progress == old(progress)
    {
      currentTime := elementTime;
      if !isDragging && duration != 0.0 {
        progress := (currentTime / duration) * 100.0;
      }
    }

    method SeekStart()
      modifies this
      ensures Snapshot() == Step(old(Snapshot()), Event.SeekStart)
    {
      isDragging := true;
      showPreview := true;
    }

    /** handleSeek, then drawPreviewFrame's request to the preview element. */
    method Seek(position: real, surfaceReady: bool)
      modifies this
      ensures Snapshot() == Step(old(Snapshot()), Event.Seek(position, surfaceReady))
      ensures currentTime == old(currentTime)
    {
      var seekTime := (position / 100.0) * duration;
      previewTime := seekTime;
      if surfaceReady {
        previewElementTime := seekTime;
      }
    }

    method SeekEnd(position: real)
      modifies this
      ensures Snapshot() == Step(old(Snapshot()), Event.SeekEnd(position))
    {
      var seekTime := (position / 100.0) * duration;
      currentTime := seekTime;
      isDragging := false;
      showPreview := false;
      progress := position;
      isLoading := true;
      canPlayListeners := canPlayListeners + 1;
    }

    /** The primary element fires canplay; each listener added by SeekEnd
        clears the loading flag. */
    method CanPlay()
      modifies this
      ensures Snapshot() == Step(old(Snapshot()), Event.CanPlay)
    {
      if canPlayListeners > 0 {
        isLoading := false;
      }
    }

    method KeyDown(key: Key)
      modifies this
      ensures Snapshot() == Step(old(Snapshot()), Event.KeyDown(key))
      ensures 0.0 <= old(currentTime) <= duration ==> 0.0 <= currentTime <= duration
    {
      match key
      case Space =>
        PlayPause();
      case ArrowLeft =>
        currentTime := if currentTime - SeekStepSeconds < 0.0 then 0.0 else currentTime - SeekStepSeconds;
      case ArrowRight =>
        currentTime := if duration < currentTime + SeekStepSeconds then duration else currentTime + SeekStepSeconds;
      case OtherKey =>
    }

    method ManifestParsed(levels: seq<Level>)
      modifies this
      ensures Snapshot() == Step(old(Snapshot()), Event.ManifestParsed(levels))
    {
      if hlsAttached {
        var qualities := Qualities(levels);
        availableQualities := qualities;
        currentQuality := if |qualities| > 0 then Some(qualities[0].index) else None;
      }
    }

    method LevelSwitched(level: int)
      modifies this
      ensures Snapshot() == Step(old(Snapshot()), Event.LevelSwitched(level))
    {
      if hlsAttached {
        currentQuality := Some(level);
      }
    }

    method ChangeQuality(qualityIndex: int)
      modifies this
      ensures Snapshot() == Step(old(Snapshot()), Event.ChangeQuality(qualityIndex))
      ensures currentQuality == old(currentQuality)
    {
      if !hlsAttached {
        return;
      }
      requestedLevel := Some(qualityIndex);
    }

    method ChangePlaybackRate(rate: real)
      modifies this
      ensures Snapshot() == Step(old(Snapshot()), Event.ChangePlaybackRate(rate))
    {
      elementRate := rate;
      playbackRate := rate;
    }

    /** The slider moved; the element refuses a volume outside [0, 1] by
        throwing, which ends the handler before the state is set. */
    method VolumeChange(newVolume: real)
      modifies this
      ensures Snapshot() == Step(old(Snapshot()), Event.VolumeChange(newVolume))
    {
      if !(0.0 <= newVolume <= 1.0) {
        return;
      }
      elementVolume := newVolume;
      volume := newVolume;
    }
  }
}
