# Audio and video player logic, modelled in Dafny

This project models the logic of the two player components of the
`players` repository. Everything else in the components is markup and
browser glue.

- **Audio player** (`src/features/audio-player/player.tsx`).
  - The waveform engine cuts a decoded channel of raw samples into one
    block per bar and takes the mean absolute sample of each block
    (`createWaveform`).
  - The renderer computes, for each bar, its x position, its merge offset,
    its drawn width and whether it is painted as listened (`drawWaveform`).
  - The position mapper turns a click on the canvas into a playback time
    (`handleCanvasClick`) and a time update into a progress percentage
    (`handleTimeUpdate`).
  - Play/pause flips the playing flag.
- **Video player** (`src/features/video-player/player.tsx`).
  - It is an event-driven state machine. The component's state and what it
    sets on the video elements and on the Hls instance form a `State`
    value. Each handler or notification is an `Event`, and `Step` gives its
    effect.
  - The class `VideoPlayer.Player` keeps the same state in fields. Each of
    its methods is one handler, proved to change the fields exactly as
    `Step` says.
  - Lemmas about `Step` state the keyboard clamps and the drag protocol.
    They also state the quality and rate rules and the invariants every
    event keeps.

Times, progress and amplitudes are `real`: exact arithmetic, not IEEE
doubles. Waveform entries are `Amplitude = Num(value) | NaN`. This keeps
the one NaN the downsampling loop can produce: a block size of 0 makes the
loop compute 0 / 0.

Files: `arith.dfy` holds the arithmetic helper lemmas. `media.dfy` holds
the values both players share. `waveform.dfy`, `waveform_render.dfy` and
`audio_player.dfy` model the audio player. `video_player.dfy` models the
video player.

### Behaviour of the code worth knowing

- With more bars than samples, the waveform is not refused: the loop
  pushes NaN for every bar (`BarAmplitude` is `NaN` exactly when
  `|raw| < bars`).
- A canvas click is not clamped. `SeekTime` stays in `[0, duration]` only
  for a click inside the canvas.
- Preview frames carry no request id or epoch, so a late `seeked` frame can
  overwrite a newer one; the model claims no ordering of preview frames.
- A playback rate is applied as given; the only rates the buttons offer
  are those of `PLAYBACK_RATES`.
- A volume is applied only inside `[0, 1]`. The volume slider (video player
  lines 263-270) delivers values in that range; outside it the element's
  volume setter throws before `setVolume` runs, so the state is unchanged.
- Choosing the current rate or quality is prevented by disabling that
  button (`RateButtonDisabled`, `QualityButtonDisabled`).
- A seek before the duration is known multiplies by a duration of 0 and
  seeks to 0.
- A click on bar i seeks into bar i's share of the duration,
  `[i × duration / bars, (i + 1) × duration / bars)` (`ClickWithinBar`).
  That share is not the time span of the samples bar i was averaged from
  when the sample count is not a multiple of the bar count: block i covers
  samples `[i × size, (i + 1) × size)` and the unread tail is dropped. With
  199 samples and 100 bars, bar 99 averages sample 99, but a click on it
  seeks to about sample 197.

## Model

| member | source | states |
|---|---|---|
| `Waveform.EffectiveDivisor` | src/features/audio-player/player.tsx:66 | the divisor is never below 2, a divider of 2 or more is used as given, and anything smaller (the default 1 included) acts as 2 |
| `Waveform.TargetBars` | src/features/audio-player/player.tsx:65-66 | for a whole bar count, bars × divisor equals the canvas width, so there are at most width / 2 bars |
| `Waveform.BlockSize` | src/features/audio-player/player.tsx:67 | the block size is the floor of samples over bars: bars × size ≤ len < bars × (size + 1) |
| `Waveform.AbsSum` | src/features/audio-player/player.tsx:73-77 | the running sum of absolute samples over a block is never negative |
| `Waveform.BlockReadInRange` | src/features/audio-player/player.tsx:71-77 | every index read, blockSize × i + j with i < bars and j < blockSize, is inside the channel |
| `Waveform.BlockEndInRange` | src/features/audio-player/player.tsx:72-77 | bar i's block ends at or before the end of the channel |
| `Waveform.SampleInOneBlock` | src/features/audio-player/player.tsx:67-77 | the blocks are consecutive and disjoint: each of the first bars × size samples lies in block k / size and in no other; the dropped tail is shorter than the bar count |
| `Waveform.BarAmplitude` | src/features/audio-player/player.tsx:72-78 | a bar's entry is NaN exactly when there are fewer samples than bars; otherwise it is a non-negative mean |
| `Waveform.AbsSumAtMostCount` | src/features/audio-player/player.tsx:75-77 | samples in [-1, 1] sum in absolute value to at most the number of samples |
| `Waveform.AmplitudeAtMostOne` | src/features/audio-player/player.tsx:76-78 | for samples in [-1, 1], every non-NaN bar amplitude lies in [0, 1] |
| `Waveform.CreateWaveform` | src/features/audio-player/player.tsx:64-81 | the loop pushes exactly one entry per bar, and entry i is the mean absolute sample of block i (NaN when the block size is 0) |
| `WaveformRender.BarX` | src/features/audio-player/player.tsx:100-120 | bar i starts i / count of the way across the canvas, so bars 0 to count start inside [0, width] |
| `WaveformRender.BarXStep` | src/features/audio-player/player.tsx:100-120 | each bar starts where the previous one ends, one bar width further |
| `WaveformRender.BarsTileCanvas` | src/features/audio-player/player.tsx:100-120 | the first bar starts at 0 and the last one ends at the canvas width |
| `WaveformRender.MergeOffset` | src/features/audio-player/player.tsx:104 | for mergeAmount ≥ 1 the offset lies in [1, mergeAmount] and i + offset is a multiple of mergeAmount |
| `WaveformRender.MergeOffsetIsNextMultiple` | src/features/audio-player/player.tsx:104 | no multiple of mergeAmount lies strictly between i and i + offset, so i + offset is the next multiple above i |
| `WaveformRender.CurrentPosition` | src/features/audio-player/player.tsx:106 | for progress in [0, 100] the listened position floor(progress / 100 × len) lies in [0, len] |
| `WaveformRender.IsBar` | src/features/audio-player/player.tsx:101-119 | a bar laid out as drawWaveform does lies inside the canvas (its left edge at or after 0, its share ending at or before the width), and no bar is listened at a progress of 0 or less |
| `WaveformRender.ListenedCountOfPrefix` | src/features/audio-player/player.tsx:106-111 | when exactly the bars below p are listened, the number of listened bars is p clamped to [0, len] |
| `WaveformRender.DrawWaveform` | src/features/audio-player/player.tsx:98-126 | one layout per entry; bar i sits at i × (width / len), has merge offset MergeOffset(i), is one pixel narrower exactly when that offset is 1, and is listened iff i < floor(progress / 100 × len); after the last bar x equals the width; for progress in [0, 100] the listened count is that floor; nothing is drawn for an empty waveform |
| `WaveformRender.SeekTime` | src/features/audio-player/player.tsx:144-148 | a click inside the canvas seeks to a time in [0, duration] |
| `WaveformRender.ClickAtBarX` | src/features/audio-player/player.tsx:147 | clicking at bar i's x seeks to i × duration / len, the start of bar i's share of the duration |
| `WaveformRender.ClickWithinBar` | src/features/audio-player/player.tsx:147 | clicking anywhere on bar i seeks into [i × duration / len, (i + 1) × duration / len), so click mapping inverts the bar layout |
| `WaveformRender.SeekTimeMonotone` | src/features/audio-player/player.tsx:147 | a click further right never seeks to an earlier time |
| `WaveformRender.SeekTimeStrictlyMonotone` | src/features/audio-player/player.tsx:147 | for a positive duration, a click further right seeks to a strictly later time |
| `WaveformRender.ClickPosition` | src/features/audio-player/player.tsx:139-147 | after a click, the listened position is the number of whole bar shares left of the click: duration and percentage cancel out |
| `WaveformRender.ClickMarksBarsLeftOfIt` | src/features/audio-player/player.tsx:139-147 | after a click and the time update that reports the new position, exactly the bars lying wholly left of the click are drawn as listened |
| `Media.ProgressPercent` | src/features/audio-player/player.tsx:141 | progress is the position as a percentage of the duration, and it lies in [0, 100] for a position inside the media |
| `AudioPlayer.MergeOptions` | src/features/audio-player/player.tsx:5-24 | each option the caller gives overrides the default, and each it leaves out takes the default |
| `AudioPlayer.DefaultsAccepted` | src/features/audio-player/player.tsx:5-12 | with no options given the defaults apply, merge by 5, and the divider 1 acts as 2, so an even canvas width gives width / 2 bars |
| `AudioPlayer.Player.constructor` | src/features/audio-player/player.tsx:16-33 | the player starts paused with zero duration, zero progress, an empty waveform and the merged options |
| `AudioPlayer.Player.PlayPause` | src/features/audio-player/player.tsx:129-137 | the playing flag flips, and pause is called exactly when the player was playing (play otherwise) |
| `AudioPlayer.Player.MetadataLoaded` | src/features/audio-player/player.tsx:47-49 | the duration becomes the one the element reports |
| `AudioPlayer.Player.TimeUpdate` | src/features/audio-player/player.tsx:139-142 | progress becomes the reported position as a percentage of the duration, in [0, 100] for a position inside the media |
| `AudioPlayer.Player.CanvasClick` | src/features/audio-player/player.tsx:144-149 | the element's position becomes SeekTime of the click, inside [0, duration] for a click inside the canvas |
| `AudioPlayer.Player.LoadWaveform` | src/features/audio-player/player.tsx:64-81 | the stored waveform has one entry per bar, each the mean absolute sample of its block |
| `AudioPlayer.Player.Draw` | src/features/audio-player/player.tsx:92-127 | the layout for the stored waveform and progress, with the guarantees of DrawWaveform |
| `VideoPlayer.DecimalString` | src/features/video-player/player.tsx:38 | a height is rendered as a non-empty string of decimal digits with no leading zero whose decimal value is the height |
| `VideoPlayer.Qualities` | src/features/video-player/player.tsx:36-39 | one quality per level; quality k has index k and label "<height>p" |
| `VideoPlayer.SeekBackward` | src/features/video-player/player.tsx:148-153 | ArrowLeft lands at t − 5 or at 0, never below 0, never before t − 5, and never after t when t ≥ 0 |
| `VideoPlayer.SeekForward` | src/features/video-player/player.tsx:154-159 | ArrowRight lands at t + 5 or at the duration, never past the duration, and never before t when t ≤ duration |
| `VideoPlayer.SliderTime` | src/features/video-player/player.tsx:88-97 | a slider position in [0, 100] stands for a time in [0, duration] |
| `VideoPlayer.Initial` | src/features/video-player/player.tsx:13-25 | the initial state is paused, not loading, with no commands, no qualities and no current quality, and it satisfies the player invariant |
| `VideoPlayer.TogglePlay` | src/features/video-player/player.tsx:69-73 | isPlaying flips, exactly one command is appended, pause exactly when it was playing, and nothing else changes |
| `VideoPlayer.Step` | src/features/video-player/player.tsx:35-175 | every event keeps the invariant (the element's rate and volume equal the state's, dragging and the preview come and go together, a loading overlay always has a canplay listener, quality k has index k, and without Hls no quality state is ever set); only loaded metadata changes the duration; Hls never comes or goes; commands already issued are never rewritten |
| `VideoPlayer.SliderValue` | src/features/video-player/player.tsx:213 | the slider shows progress when not dragging; while dragging it shows previewTime as a percentage of the duration, and it is undefined (NaN) exactly while dragging with a duration of 0 |
| `VideoPlayer.QualityButtonDisabled` | src/features/video-player/player.tsx:243 | no quality button is disabled while no quality is current, and a disabled button is the current quality's |
| `VideoPlayer.RateButtonDisabled` | src/features/video-player/player.tsx:251-255 | when the k-th rate button is disabled, every other rate button is enabled |
| `VideoPlayer.PlayPauseToggles` | src/features/video-player/player.tsx:69-73 | play/pause flips isPlaying and calls pause exactly when it was playing; Space does the same; toggling twice restores isPlaying |
| `VideoPlayer.KeysKeepTimeInRange` | src/features/video-player/player.tsx:141-163 | from a position in [0, duration], any sequence of key presses keeps the position in [0, duration] |
| `VideoPlayer.TimeUpdateProgress` | src/features/video-player/player.tsx:75-81 | a time update changes progress only when not dragging and the duration is non-zero, and then to position / duration × 100, inside [0, 100] for a position inside the media |
| `VideoPlayer.SeekStartShowsPreview` | src/features/video-player/player.tsx:83-86 | pressing the slider sets isDragging and showPreview and leaves the position alone |
| `VideoPlayer.SeekMovesOnlyPreview` | src/features/video-player/player.tsx:88-93 | any slider change, dragged or not, sets previewTime to position / 100 × duration, asks the preview element for that time only when the surface exists, and leaves the primary position, playback and dragging unchanged |
| `VideoPlayer.SliderFollowsDrag` | src/features/video-player/player.tsx:213 | during a drag with a known duration, the slider shows the position it was moved to |
| `VideoPlayer.SeekEndCommits` | src/features/video-player/player.tsx:95-105 | releasing commits position / 100 × duration to the primary element, clears isDragging and showPreview, sets progress to the position and isLoading, and the next canplay clears isLoading |
| `VideoPlayer.ManifestSelectsFirst` | src/features/video-player/player.tsx:35-42 | a parsed manifest yields one quality per level, numbered in order, and the current quality becomes 0, or none for an empty manifest |
| `VideoPlayer.QualityFollowsSource` | src/features/video-player/player.tsx:44-46 | without Hls, changeQuality does nothing; with Hls it only forwards the index and never changes currentQuality; a level switch sets currentQuality to the reported level, whatever was requested |
| `VideoPlayer.SettersIdempotent` | src/features/video-player/player.tsx:135-175 | setting a playback rate or a volume twice gives the same state as setting it once; a volume in [0, 1] reaches both the element and the state, and one outside it changes nothing |
| `VideoPlayer.ButtonsDisabledForCurrent` | src/features/video-player/player.tsx:239-259 | after the k-th rate is chosen, exactly the k-th rate button is disabled; after a level switch, exactly that level's quality button is disabled |
| `VideoPlayer.TwoLevelQualities` | src/features/video-player/player.tsx:36-39 | levels of height 360 and 720 give the buttons "360p" and "720p", numbered 0 and 1 |
| `VideoPlayer.TwoLevelScenario` | src/features/video-player/player.tsx:35-46 | with levels 360 and 720, requesting index 1 and then a switch to 1 leaves quality 1 current, the 720p button disabled and the 360p button enabled |
| `VideoPlayer.Player.constructor` | src/features/video-player/player.tsx:13-25 | the fields start as the initial state, which satisfies the invariant |
| `VideoPlayer.Player.PlayPause` | src/features/video-player/player.tsx:69-73 | the fields change as Step says for PlayPause, and isPlaying flips |
| `VideoPlayer.Player.MetadataLoaded` | src/features/video-player/player.tsx:48 | the fields change as Step says for a loaded duration |
| `VideoPlayer.Player.TimeUpdate` | src/features/video-player/player.tsx:75-81 | the fields change as Step says for a time update; progress stays put while dragging or before the duration is known |
| `VideoPlayer.Player.SeekStart` | src/features/video-player/player.tsx:83-86 | the fields change as Step says for the start of a drag |
| `VideoPlayer.Player.Seek` | src/features/video-player/player.tsx:88-125 | the fields change as Step says for a slider move, and the primary position is unchanged |
| `VideoPlayer.Player.SeekEnd` | src/features/video-player/player.tsx:95-105 | the fields change as Step says for a release |
| `VideoPlayer.Player.CanPlay` | src/features/video-player/player.tsx:104 | the fields change as Step says for canplay |
| `VideoPlayer.Player.KeyDown` | src/features/video-player/player.tsx:141-163 | the fields change as Step says for the key; a position in [0, duration] stays there |
| `VideoPlayer.Player.ManifestParsed` | src/features/video-player/player.tsx:35-42 | the fields change as Step says for a parsed manifest |
| `VideoPlayer.Player.LevelSwitched` | src/features/video-player/player.tsx:44-46 | the fields change as Step says for a level switch |
| `VideoPlayer.Player.ChangeQuality` | src/features/video-player/player.tsx:127-133 | the fields change as Step says for a quality request, and currentQuality is unchanged |
| `VideoPlayer.Player.ChangePlaybackRate` | src/features/video-player/player.tsx:135-139 | the fields change as Step says for a rate change |
| `VideoPlayer.Player.VolumeChange` | src/features/video-player/player.tsx:170-175 | the fields change as Step says for a volume change: both volumes become v inside [0, 1], nothing changes outside it |

## Left out

- Fetching the source, creating the `AudioContext`, `decodeAudioData` and `getChannelData` (audio player lines 51-64) are not modelled. The decoded channel is an input to `CreateWaveform`.
- `Waveform.CreateWaveform` requires that the canvas width divided by the divisor is a whole number. With a fractional bar count the source's loop runs `ceil` of it times and reads past the channel.
- `WaveformRender.MergeOffset`, `WaveformRender.DrawWaveform`, `AudioPlayer.MergeOptions` and `AudioPlayer.Player.constructor` take mergeAmount as a whole number; the constructor's `requires MergeOptions(given).mergeAmount >= 1` applies that to the whole player. In the source it is an ordinary number option and line 104's `%` is a floating-point remainder. A fractional merge amount gives fractional offsets, some below 1: with 2.5 bar 2 gets offset 0.5, and bar 4 gets offset 1 and is drawn one pixel narrower. The offset range [1, mergeAmount] and the next-multiple property are proved only for whole merge amounts.
- `WaveformRender.DrawWaveform` requires `mergeAmount ≥ 1`. For 0 the source computes `i % 0` (NaN offsets), and negative values are not meaningful as a merge width.
- The bar height `waveform[i + offset] * height` is not modelled, because it can read past the end of the waveform. The drawing calls (`clearRect`, `fillRect`, `drawImage`), the colours and the canvas height are not modelled either. Only the computed numbers are.
- `AudioPlayer.Player.TimeUpdate` requires a non-zero duration. The source divides by the duration without a guard, so a time update before the metadata arrives gives NaN or Infinity.
- The audio player's canvas-resize effect (lines 36-42) is not modelled. The canvas width is a parameter. The effect's guard returns whenever the container exists, so as written it never resizes the canvas.
- The preview frame drawn on the `seeked` event (video player lines 107-125) is not modelled. Only the time requested from the preview element is modelled. That request happens when the canvas, the preview element and its 2D context exist (`surfaceReady`). The canvas is mounted only while `showPreview` is true (video player lines 226-233), so in the source `surfaceReady` can hold only while the preview is shown, i.e. during a drag; the model leaves `surfaceReady` free and does not tie it to `showPreview`.
- Hls construction, `loadSource`, `attachMedia`, `destroy` and event registration are not modelled. The same goes for the non-Hls `video.src` path, the window `keydown` listener registration and the React hooks. `MANIFEST_PARSED` and `LEVEL_SWITCHED` are events carrying their payload. They are ignored when no Hls instance was created, because no listener exists then.
- The slider and volume inputs deliver strings (`event.target.value`), which JavaScript coerces to numbers. The model takes them as numbers. `SeekEnd` stores the position itself as progress, as the source stores the string.
- Media playback itself is not modelled: the elements' clocks, buffering and what `play()` and `pause()` do. A time update carries the position the element reports. The elements start at rate 1 and volume 1, the browser defaults.
- IEEE floating-point rounding, NaN and Infinity are not modelled, except for the NaN of an empty block. A duration of NaN or Infinity, as a live stream reports, is not modelled.
- `AudioPlayer.Player.CanvasClick`, `WaveformRender.SeekTime`, `WaveformRender.ClickWithinBar` and `WaveformRender.ClickMarksBarsLeftOfIt` take the click's `offsetX` in canvas bitmap pixels, i.e. they assume the canvas is displayed at its bitmap width. In the source `offsetX` is in CSS pixels while `canvas.width` is in bitmap pixels, and with the resize effect dead the two differ whenever the page scales the canvas.
- The canvas width and height options only size the canvas container (audio player lines 156-163) and are not modelled; the colour options only choose paint.
- `VideoPlayer.Step` does not model the playback-rate setter refusing a rate: every rate the buttons offer is one the element accepts.
- `src/App.tsx` is only composition and is not part of this model.
