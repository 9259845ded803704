/** Values shared by the audio and the video player. */
module Media {

  datatype Option<T> = None | Some(value: T)

  /** The two playback calls a player makes on its media element. */
  datatype Command = Play | Pause

  /** Playback position as a percentage of the duration, as both players
      compute it from a time update. */
  function ProgressPercent(currentTime: real, duration: real): (p: real)
    requires duration != 0.0
    ensures 0.0 <= currentTime <= duration ==> 0.0 <= p <= 100.0
    ensures p * duration == currentTime * 100.0
  {
    (currentTime / duration) * 100.0
  }
}
