/**
 * One sample of the player's transport state
 * (AuraLyrics/Models/PlaybackState.swift).
 */
module Playback {

  /**
   * Immutable: a new sample replaces the old one wholesale. `position` and
   * `duration` are seconds, `timestamp` is the capture instant in seconds of
   * the wall clock. Equality compares all nine fields.
   */
  datatype PlaybackState = PlaybackState(
    track: string,
    artist: string,
    album: string,
    isPlaying: bool,
    position: real,
    duration: real,
    artworkUrl: string,
    isSpotifyRunning: bool,
    timestamp: real)

  /**
   * `PlaybackState.empty`. Its timestamp is the instant at which the static
   * constant was first evaluated, which the model takes as a parameter.
   */
  function Empty(capturedAt: real): PlaybackState {
    PlaybackState("", "", "", false, 0.0, 0.0, "", true, capturedAt)
  }

  /** `PlaybackState.notRunning`. */
  function NotRunning(capturedAt: real): PlaybackState {
    PlaybackState("", "", "", false, 0.0, 0.0, "", false, capturedAt)
  }

  /** `.empty`: no track, paused at 0 of 0, the player reported running. */
  lemma EmptyIsIdle(t: real)
    ensures var e := Empty(t);
      e.track == "" && e.artist == "" && e.album == "" && e.artworkUrl == ""
      && !e.isPlaying && e.position == 0.0 && e.duration == 0.0 && e.isSpotifyRunning
  {
  }

  /**
   * `.notRunning` is `.empty` with the running flag turned off and its own
   * capture instant: each static constant reads the clock when it is first
   * used, so the two timestamps are in general different.
   */
  lemma NotRunningIsEmptyStopped(emptyStamp: real, notRunningStamp: real)
    ensures NotRunning(notRunningStamp) == Empty(emptyStamp).(isSpotifyRunning := false, timestamp := notRunningStamp)
    ensures NotRunning(notRunningStamp) != Empty(emptyStamp)
  {
  }

  /**
   * `description`. The two numbers are printed with `%.1f`; that formatting
   * of binary floating point is the parameter `oneDecimal`.
   */
  function Description(s: PlaybackState, oneDecimal: real -> string): string {
    if !s.isSpotifyRunning then "[Spotify] Not Running"
    else
      "[Spotify] " + (if s.isPlaying then "\U{25B6}\U{FE0F}" else "\U{23F8}\U{FE0F}")
      + " " + s.track + " - " + s.artist
      + " (" + oneDecimal(s.position) + "s / " + oneDecimal(s.duration) + "s)"
  }

  /** A stopped player is described the same way whatever else the sample holds. */
  lemma DescriptionWhenNotRunning(s: PlaybackState, u: PlaybackState, f: real -> string, g: real -> string)
    requires !s.isSpotifyRunning && !u.isSpotifyRunning
    ensures Description(s, f) == Description(u, g) == "[Spotify] Not Running"
  {
  }

  /** A running player's description names the track and the artist. */
  lemma DescriptionWhenRunning(s: PlaybackState, f: real -> string)
    requires s.isSpotifyRunning
    ensures var d := Description(s, f);
      var head := "[Spotify] " + (if s.isPlaying then "\U{25B6}\U{FE0F}" else "\U{23F8}\U{FE0F}") + " ";
      |head| + |s.track| + 3 + |s.artist| <= |d|
      && d[..|head|] == head
      && d[|head|..|head| + |s.track|] == s.track
      && d[|head| + |s.track| + 3..|head| + |s.track| + 3 + |s.artist|] == s.artist
  {
  }

  /** Samples that differ only in their capture time are unequal. */
  lemma CaptureTimeMatters(s: PlaybackState, t: real)
    requires t != s.timestamp
    ensures s.(timestamp := t) != s
  {
  }
}
