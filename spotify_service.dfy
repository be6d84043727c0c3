/**
 * `SpotifyService` (AuraLyrics/Services/SpotifyService.swift): what the
 * service does with the string its polling AppleScript returns. The script
 * answers `NOT_RUNNING`, `ERROR`, or seven fields joined with `|||`: name,
 * artist, album, duration, position, player state and artwork URL. Running
 * the script, the notification observer and the polling timer are outside
 * the model: each poll is one call of `FetchSpotifyState` with the script's
 * outcome, the clock reading and the decimal parser as arguments.
 */
module Spotify {
  import opened Wrappers
  import opened Text
  import opened Playback

  /** The field separator of the script's answer. */
  const Separator: string := "|||"

  /**
   * How one run of the poll script ended: the script could not be built,
   * running it reported an error, its result has no string value, or it
   * returned a string.
   */
  datatype ScriptOutcome = NoScript | ScriptError | NoString | Answer(text: string)

  /** `Double(text) ?? 0.0` after commas have become points; `parse` is `Double(_:)`. */
  function ReadNumber(field: string, parse: string -> Option<real>): (r: real)
    ensures parse(ReplaceChar(field, ',', '.')).None? ==> r == 0.0
  {
    match parse(ReplaceChar(field, ',', '.'))
    case Some(v) => v
    case None => 0.0
  }

  /** Replacing commas a second time changes nothing. */
  lemma ReplaceCharIdempotent(s: string, from: char, to: char)
    requires from != to
    ensures ReplaceChar(ReplaceChar(s, from, to), from, to) == ReplaceChar(s, from, to)
  {
  }

  /** A decimal comma and a decimal point read the same. */
  lemma ReadNumberCommaInsensitive(field: string, parse: string -> Option<real>)
    ensures ReadNumber(ReplaceChar(field, ',', '.'), parse) == ReadNumber(field, parse)
  {
    ReplaceCharIdempotent(field, ',', '.');
  }

  /** The millisecond heuristic for the duration. */
  function NormaliseDuration(d: real): real {
    if d > 10000.0 then d / 1000.0 else d
  }

  /** The millisecond heuristic for the position, against the normalised duration. */
  function NormalisePosition(p: real, d: real): real {
    if p > 10000.0 && p > d then p / 1000.0
    else if p > d * 1000.0 then p / 1000.0
    else p
  }

  /** 212000 ms becomes 212 s; 180 s stays 180 s. */
  lemma DurationExamples()
    ensures NormaliseDuration(212000.0) == 212.0
    ensures NormaliseDuration(180.0) == 180.0
  {
  }

  /**
   * The duration is either kept or divided by 1000, the latter exactly when
   * it exceeds 10000; a duration in milliseconds of a track of at most 10
   * seconds is therefore read as seconds.
   */
  lemma DurationDividedIff(d: real)
    ensures NormaliseDuration(d) == d || NormaliseDuration(d) == d / 1000.0
    ensures d > 10000.0 <==> (NormaliseDuration(d) != d && NormaliseDuration(d) == d / 1000.0)
    ensures NormaliseDuration(9000.0) == 9000.0
  {
  }

  /** The position is divided by 1000 at most once. */
  lemma PositionDividedAtMostOnce(p: real, d: real)
    ensures NormalisePosition(p, d) == p || NormalisePosition(p, d) == p / 1000.0
  {
  }

  /**
   * A position is divided exactly when it exceeds both 10000 and the
   * duration, or exceeds a thousand times the duration.
   */
  lemma PositionDividedIff(p: real, d: real)
    requires p != 0.0
    ensures NormalisePosition(p, d) == p / 1000.0 <==> (p > 10000.0 && p > d) || p > d * 1000.0
  {
  }

  /** 45000 ms into a 212 s track is 45 s. */
  lemma PositionExample()
    ensures NormalisePosition(45000.0, NormaliseDuration(212.0)) == 45.0
    ensures NormalisePosition(45000.0, NormaliseDuration(212000.0)) == 45.0
  {
  }

  /** A sample already in seconds, with the position inside the track, is left alone. */
  lemma SecondsSampleKept(p: real, d: real)
    requires 0.0 <= p <= d <= 10000.0
    ensures NormaliseDuration(d) == d && NormalisePosition(p, NormaliseDuration(d)) == p
  {
  }

  /**
   * When the duration reads as 0 (say it did not parse), any positive
   * position is taken for milliseconds: 30 s becomes 0.03 s.
   */
  lemma ZeroDurationShrinksPosition(p: real)
    requires p > 0.0
    ensures NormalisePosition(p, NormaliseDuration(0.0)) == p / 1000.0
    ensures NormalisePosition(30.0, 0.0) == 0.03
  {
  }

  /**
   * `parseResult` up to the point where it publishes: the sample the
   * answer describes, or `None` when it has fewer than seven fields. The
   * source's initialiser call leaves out `isSpotifyRunning`; the model takes
   * that value as the parameter `running`. `now` is the `Date()` it stamps.
   */
  function ParsedState(input: string, parse: string -> Option<real>, running: bool, now: real): Option<PlaybackState> {
    var parts := SplitOn(input, Separator);
    if |parts| < 7 then None
    else
      var duration := NormaliseDuration(ReadNumber(parts[3], parse));
      var position := NormalisePosition(ReadNumber(parts[4], parse), duration);
      Some(PlaybackState(parts[0], parts[1], parts[2], parts[5] == "playing", position, duration, parts[6], running, now))
  }

  /** An answer with fewer than seven fields gives no sample. */
  lemma TooFewFieldsIff(input: string, parse: string -> Option<real>, running: bool, now: real)
    ensures ParsedState(input, parse, running, now).None? <==> |SplitOn(input, Separator)| < 7
  {
  }

  /**
   * The text fields are copied verbatim (and hold no separator), the
   * player is playing exactly when the state field is `playing`, and the
   * numbers are the normalised readings of fields 3 and 4.
   */
  lemma ParsedFields(input: string, parse: string -> Option<real>, running: bool, now: real)
    requires ParsedState(input, parse, running, now).Some?
    ensures var s := ParsedState(input, parse, running, now).value;
      var parts := SplitOn(input, Separator);
      && s.track == parts[0] && s.artist == parts[1] && s.album == parts[2] && s.artworkUrl == parts[6]
      && !Contains(s.track, Separator) && !Contains(s.artist, Separator)
      && !Contains(s.album, Separator) && !Contains(s.artworkUrl, Separator)
      && (s.isPlaying <==> parts[5] == "playing")
      && s.duration == NormaliseDuration(ReadNumber(parts[3], parse))
      && s.position == NormalisePosition(ReadNumber(parts[4], parse), s.duration)
      && s.isSpotifyRunning == running && s.timestamp == now
  {
    SplitOnPiecesFree(input, Separator, 0);
    SplitOnPiecesFree(input, Separator, 1);
    SplitOnPiecesFree(input, Separator, 2);
    SplitOnPiecesFree(input, Separator, 6);
  }

  /** Fields after the seventh are ignored. */
  lemma ExtraFieldsIgnored(a: string, b: string, parse: string -> Option<real>, running: bool, now: real)
    requires |SplitOn(a, Separator)| >= 7 && |SplitOn(b, Separator)| >= 7
    requires SplitOn(a, Separator)[..7] == SplitOn(b, Separator)[..7]
    ensures ParsedState(a, parse, running, now) == ParsedState(b, parse, running, now)
  {
    var pa, pb := SplitOn(a, Separator), SplitOn(b, Separator);
    assert forall k | 0 <= k < 7 :: pa[k] == pa[..7][k] == pb[..7][k] == pb[k];
  }

  /**
   * Round trip with the script: seven fields without a `|`, joined the way
   * the script joins them, come back as the sample's fields.
   */
  lemma ScriptAnswerReadBack(fields: seq<string>, parse: string -> Option<real>, running: bool, now: real)
    requires |fields| == 7
    requires forall k :: 0 <= k < 7 ==> Avoids(fields[k], '|')
    ensures var s := ParsedState(Join(fields, Separator), parse, running, now);
      && s.Some?
      && s.value.track == fields[0] && s.value.artist == fields[1] && s.value.album == fields[2]
      && s.value.artworkUrl == fields[6] && (s.value.isPlaying <==> fields[5] == "playing")
  {
    SplitOnJoin(fields, Separator);
  }

  /** A well-formed answer whose track name starts with `ERROR` is taken for the error sentinel. */
  lemma ErrorPrefixedTrackDropped(rest: string, current: PlaybackState, empty: PlaybackState,
                                  parse: string -> Option<real>, running: bool, now: real)
    ensures AfterFetch(current, empty, Answer("ERROR" + rest), parse, running, now) == current
  {
    assert ("ERROR" + rest)[..5] == "ERROR";
    assert ("ERROR" + rest)[0] != "NOT_RUNNING"[0];
  }

  /** `parseResult` as a whole: the new sample replaces the state when it differs. */
  function AfterParse(current: PlaybackState, input: string, parse: string -> Option<real>, running: bool, now: real): PlaybackState {
    match ParsedState(input, parse, running, now)
    case None => current
    case Some(next) => if current != next then next else current
  }

  /** `fetchSpotifyState` as a whole; `empty` is the value of the static `.empty`. */
  function AfterFetch(current: PlaybackState, empty: PlaybackState, outcome: ScriptOutcome,
                      parse: string -> Option<real>, running: bool, now: real): PlaybackState {
    match outcome
    case NoScript => current
    case ScriptError => current
    case NoString => current
    case Answer(text) =>
      if text == "NOT_RUNNING" then (if current.isPlaying then empty else current)
      else if StartsWith(text, "ERROR") then current
      else AfterParse(current, text, parse, running, now)
  }

  /**
   * `NOT_RUNNING` stops a playing sample by installing `.empty`, which
   * still reports the player as running, and leaves any other sample alone.
   */
  lemma NotRunningStopsPlayback(current: PlaybackState, t: real, parse: string -> Option<real>, running: bool, now: real)
    ensures var after := AfterFetch(current, Empty(t), Answer("NOT_RUNNING"), parse, running, now);
      && !after.isPlaying
      && (current.isPlaying ==> after == Empty(t) && after.isSpotifyRunning && after != NotRunning(t))
      && (!current.isPlaying ==> after == current)
  {
  }

  /** A failed run, a missing string or an `ERROR` answer leaves the state as it was. */
  lemma FailuresLeaveState(current: PlaybackState, empty: PlaybackState, outcome: ScriptOutcome,
                           parse: string -> Option<real>, running: bool, now: real)
    requires outcome.NoScript? || outcome.ScriptError? || outcome.NoString?
      || (outcome.Answer? && StartsWith(outcome.text, "ERROR"))
    ensures AfterFetch(current, empty, outcome, parse, running, now) == current
  {
    if outcome.Answer? {
      assert outcome.text[..5] == "ERROR";
      assert "NOT_RUNNING"[..5] == "NOT_R";
    }
  }

  /** Delivering the same answer twice at the same instant changes nothing the second time. */
  lemma AfterParseIdempotent(current: PlaybackState, input: string, parse: string -> Option<real>, running: bool, now: real)
    ensures var once := AfterParse(current, input, parse, running, now);
      AfterParse(once, input, parse, running, now) == once
  {
  }

  /**
   * Synthesised equality includes the capture instant, so a well-formed
   * answer read at a new instant is always published, even when nothing
   * about the playback changed.
   */
  lemma FreshStampAlwaysPublished(current: PlaybackState, input: string, parse: string -> Option<real>, running: bool, now: real)
    requires |SplitOn(input, Separator)| >= 7 && now != current.timestamp
    ensures AfterParse(current, input, parse, running, now) != current
    ensures AfterParse(current, input, parse, running, now).timestamp == now
  {
  }

  /** The state after a parse is the previous one or the parsed sample, nothing else. */
  lemma AfterParseOutcome(current: PlaybackState, input: string, parse: string -> Option<real>, running: bool, now: real)
    ensures var after := AfterParse(current, input, parse, running, now);
      var parsed := ParsedState(input, parse, running, now);
      (parsed.None? ==> after == current) && (parsed.Some? ==> after == parsed.value)
  {
  }

  /**
   * The service. `currentState` is `@Published`; `publications` counts the
   * assignments to it, each of which notifies the subscribers.
   */
  class SpotifyService {
    var currentState: PlaybackState
    var publications: nat
    /** The instant the static `.empty` was first read, which is its timestamp. */
    const emptyStamp: real
    const empty: PlaybackState := Empty(emptyStamp)

    /** Starts at `.empty`. */
    constructor(stamp: real)
      ensures emptyStamp == stamp && currentState == Empty(stamp) && publications == 0
    {
      emptyStamp := stamp;
      currentState := Empty(stamp);
      publications := 0;
    }

    /** `fetchSpotifyState`: dispatch on the script's outcome. */
    method FetchSpotifyState(outcome: ScriptOutcome, parse: string -> Option<real>, running: bool, now: real)
      modifies this
      ensures currentState == AfterFetch(old(currentState), empty, outcome, parse, running, now)
      ensures publications == old(publications) + (if currentState != old(currentState) then 1 else 0)
    {
      match outcome
      case NoScript =>
      case ScriptError =>
      case NoString =>
      case Answer(text) =>
        if text == "NOT_RUNNING" {
          if currentState.isPlaying {
            currentState := empty;
            publications := publications + 1;
          }
        } else if !StartsWith(text, "ERROR") {
          ParseResult(text, parse, running, now);
        }
    }

    /** `parseResult`: split, read and normalise, then publish only a different sample. */
    method ParseResult(input: string, parse: string -> Option<real>, running: bool, now: real)
      modifies this
      ensures currentState == AfterParse(old(currentState), input, parse, running, now)
      ensures publications == old(publications) + (if currentState != old(currentState) then 1 else 0)
    {
      var parts := SplitOn(input, Separator);
      if |parts| < 7 {
        return;
      }
      var duration := ReadNumber(parts[3], parse);
      var position := ReadNumber(parts[4], parse);
      if duration > 10000.0 {
        duration := duration / 1000.0;
      }
      if position > 10000.0 && position > duration {
        position := position / 1000.0;
      } else if position > duration * 1000.0 {
        position := position / 1000.0;
      }
      var newState := PlaybackState(parts[0], parts[1], parts[2], parts[5] == "playing",
                                    position, duration, parts[6], running, now);
      if currentState != newState {
        currentState := newState;
        publications := publications + 1;
      }
    }
  }
}
