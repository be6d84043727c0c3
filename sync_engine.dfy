/**
 * `LyricsManager` (AuraLyrics/Services/LyricsManager.swift): the engine that
 * keeps the lyrics of the playing track and the line under the playhead.
 * It reacts to four events, each a method of the class below: a new
 * playback sample, a timer tick, and the success or failure of a lyrics
 * fetch. The fetch runs in a `Task`; here a started fetch is remembered in
 * `pending` and its completion is a separate event that names which of the
 * started fetches finished, in whatever order they finish.
 *
 * Each line's `UUID()` is drawn fresh when the line is built; here the
 * manager keeps the next unused id in `nextId`, numbers the lines of a
 * completed fetch from it and moves it past them.
 *
 * Every method is specified by a function on `SyncState`, the snapshot of
 * all fields, and the properties of the engine are lemmas about those
 * functions.
 */
module Sync {
  import opened Wrappers
  import opened LyricsModels
  import opened Playback
  import opened Fetcher
  import opened LRCParser

  /**
   * All fields of the manager; `pending` holds the sample each running
   * fetch was started for, and `nextId` is the first id not yet handed out.
   */
  datatype SyncState = SyncState(
    lyrics: seq<LyricsLine>,
    isLoading: bool,
    error: Option<string>,
    currentPosition: real,
    activeLineID: Option<nat>,
    currentTrackID: Option<string>,
    lastState: PlaybackState,
    pending: seq<PlaybackState>,
    nextId: nat)

  const NotFoundMessage: string := "Lyrics not found"
  const FailedMessage: string := "Failed to fetch lyrics"

  /** The state after `init`; `emptyStamp` is the timestamp of `.empty`. */
  function Initial(emptyStamp: real): SyncState {
    SyncState([], false, None, 0.0, None, None, Empty(emptyStamp), [], 0)
  }

  /** The key of a track: its name and artist joined with `-`. */
  function TrackKey(state: PlaybackState): string {
    state.track + "-" + state.artist
  }

  // ------------------------------------------------------------ active line

  /**
   * The index of `lines.last { $0.startTime <= position }`: the last line
   * that has started by `position`, or `None` when none has.
   */
  function LastStarted(lines: seq<LyricsLine>, position: real): (r: Option<nat>)
    ensures r.Some? ==> r.value < |lines| && StartSeconds(lines[r.value]) <= position
    ensures r.Some? ==> forall j :: r.value < j < |lines| ==> StartSeconds(lines[j]) > position
    ensures r.None? <==> forall j :: 0 <= j < |lines| ==> StartSeconds(lines[j]) > position
  {
    if lines == [] then None
    else if StartSeconds(lines[|lines| - 1]) <= position then Some(|lines| - 1)
    else LastStarted(lines[..|lines| - 1], position)
  }

  /** The id of that line, if any. */
  function ActiveId(lines: seq<LyricsLine>, position: real): Option<nat> {
    match LastStarted(lines, position)
    case Some(k) => Some(lines[k].id)
    case None => None
  }

  /** `updateActiveLine`: recompute the active line unless there are no lyrics. */
  function UpdateActive(s: SyncState): SyncState {
    if s.lyrics == [] then s
    else s.(activeLineID := ActiveId(s.lyrics, s.currentPosition))
  }

  /**
   * On lyrics sorted by start time every line up to the active one has
   * started and every later one has not: the active line is the one whose
   * interval contains the position.
   */
  lemma ActiveLineBrackets(lines: seq<LyricsLine>, position: real)
    requires SortedByStart(lines)
    ensures match LastStarted(lines, position)
      case Some(k) =>
        (forall j :: 0 <= j <= k ==> StartSeconds(lines[j]) <= position)
        && (forall j :: k < j < |lines| ==> StartSeconds(lines[j]) > position)
      case None => forall j :: 0 <= j < |lines| ==> StartSeconds(lines[j]) > position
  {
    match LastStarted(lines, position)
    case Some(k) =>
      forall j | 0 <= j <= k
        ensures StartSeconds(lines[j]) <= position
      {
        assert lines[j].startTime <= lines[k].startTime;
      }
    case None =>
  }

  /** On sorted lyrics the active line never moves backwards as the position advances. */
  lemma {:induction false} ActiveLineMonotone(lines: seq<LyricsLine>, p: real, q: real)
    requires SortedByStart(lines) && p <= q
    ensures LastStarted(lines, p).Some? ==> LastStarted(lines, q).Some?
    ensures LastStarted(lines, p).Some? ==> LastStarted(lines, p).value <= LastStarted(lines, q).value
  {
    if LastStarted(lines, p).Some? {
      var k := LastStarted(lines, p).value;
      assert StartSeconds(lines[k]) <= q;
    }
  }

  /** When ids are distinct, the active id names exactly one line, the one `LastStarted` picks. */
  lemma ActiveIdNamesOneLine(lines: seq<LyricsLine>, position: real, j: nat)
    requires DistinctIds(lines) && j < |lines|
    requires ActiveId(lines, position) == Some(lines[j].id)
    ensures LastStarted(lines, position) == Some(j)
  {
  }

  /** Lines at 0 s, 10 s and 20 s: at 15 s the second is active, at 20 s the third, before 0 s none. */
  lemma ActiveLineExample(a: nat, b: nat, c: nat)
    ensures var lines := [LyricsLine(a, 0, "one"), LyricsLine(b, 1000, "two"), LyricsLine(c, 2000, "three")];
      && ActiveId(lines, 15.0) == Some(b)
      && ActiveId(lines, 20.0) == Some(c)
      && ActiveId(lines, 0.0) == Some(a)
      && ActiveId(lines, -0.5) == None
  {
    var lines := [LyricsLine(a, 0, "one"), LyricsLine(b, 1000, "two"), LyricsLine(c, 2000, "three")];
    assert lines[..2] == [lines[0], lines[1]];
    assert lines[..2][..1] == [lines[0]];
  }

  // ------------------------------------------------------------- events

  /** `updatePosition`: interpolate from the last sample when the player is playing. */
  function OnTick(s: SyncState, now: real): SyncState {
    if !s.lastState.isPlaying then s
    else UpdateActive(s.(currentPosition := s.lastState.position + (now - s.lastState.timestamp)))
  }

  /** The start of `fetchLyrics`: raise the loading flag, clear the error, launch the fetch. */
  function StartFetch(s: SyncState, state: PlaybackState): SyncState {
    s.(isLoading := true, error := None, pending := s.pending + [state])
  }

  /** `handleStateChange`. */
  function OnStateChange(s: SyncState, state: PlaybackState): SyncState {
    var key := TrackKey(state);
    var s1 := s.(lastState := state);
    var s2 :=
      if Some(key) != s.currentTrackID && state.track != "" then StartFetch(s1.(currentTrackID := Some(key)), state)
      else if state.track == "" then s1.(lyrics := [], currentTrackID := None, activeLineID := None)
      else s1;
    UpdateActive(s2.(currentPosition := state.position))
  }

  /** The message a failed fetch leaves in `error`. */
  function ErrorMessage(e: FetchError): string {
    if e == Lyrics(NotFound) then NotFoundMessage else FailedMessage
  }

  /**
   * The completion of the `k`-th running fetch, whose transport answered
   * `response`; the lines it builds are numbered from `nextId`, which then
   * moves past them.
   */
  function OnFetchDone(s: SyncState, k: nat, response: Response): SyncState
    requires k < |s.pending|
  {
    var s1 := s.(pending := s.pending[..k] + s.pending[k + 1..]);
    match FetchLyrics(response, s.nextId)
    case Ok(lines) => s1.(lyrics := lines, isLoading := false, nextId := s.nextId + |lines|)
    case Err(e) => s1.(isLoading := false, error := Some(ErrorMessage(e)), lyrics := [])
  }

  // ---------------------------------------------------------- invariant

  /**
   * What the engine keeps true: the recorded key is that of the last sample
   * (none for an empty track), a loading flag means a fetch is running, the
   * only errors are the two messages, the lyrics hold no id twice, and
   * every id in use, the active one included, has been handed out.
   */
  predicate Consistent(s: SyncState) {
    && s.currentTrackID == (if s.lastState.track == "" then None else Some(TrackKey(s.lastState)))
    && (s.isLoading ==> s.pending != [])
    && (s.error.Some? ==> s.error.value == NotFoundMessage || s.error.value == FailedMessage)
    && DistinctIds(s.lyrics)
    && (forall j :: 0 <= j < |s.lyrics| ==> s.lyrics[j].id < s.nextId)
    && (s.activeLineID.Some? ==> s.activeLineID.value < s.nextId)
  }

  lemma InitialConsistent(t: real)
    ensures Consistent(Initial(t))
  {
  }

  lemma OnStateChangeConsistent(s: SyncState, state: PlaybackState)
    requires Consistent(s)
    ensures Consistent(OnStateChange(s, state))
  {
  }

  lemma OnTickConsistent(s: SyncState, now: real)
    requires Consistent(s)
    ensures Consistent(OnTick(s, now))
  {
  }

  lemma OnFetchDoneConsistent(s: SyncState, k: nat, response: Response)
    requires Consistent(s) && k < |s.pending|
    ensures Consistent(OnFetchDone(s, k, response))
  {
    FetchedIdsFresh(response, s.nextId);
  }

  // ---------------------------------------------------------- properties

  /**
   * A fetch starts, and the key is recorded, exactly when the key differs
   * from the recorded one and the track is not empty; the fetch is for the
   * delivered sample, raises the loading flag, clears the error and keeps
   * the lyrics shown so far.
   */
  lemma FetchStartsIff(s: SyncState, state: PlaybackState)
    ensures var t := OnStateChange(s, state);
      (|t.pending| == |s.pending| + 1 <==> Some(TrackKey(state)) != s.currentTrackID && state.track != "")
    ensures var t := OnStateChange(s, state);
      Some(TrackKey(state)) != s.currentTrackID && state.track != "" ==>
        && t.pending == s.pending + [state] && t.currentTrackID == Some(TrackKey(state))
        && t.isLoading && t.error.None? && t.lyrics == s.lyrics
    ensures var t := OnStateChange(s, state);
      !(Some(TrackKey(state)) != s.currentTrackID && state.track != "") ==>
        t.pending == s.pending && t.isLoading == s.isLoading && t.error == s.error
  {
  }

  /** Delivering a sample of the same track and artist again starts no fetch. */
  lemma RedeliveryStartsNoFetch(s: SyncState, state: PlaybackState)
    requires Consistent(s)
    requires state.track == s.lastState.track && state.artist == s.lastState.artist
    ensures OnStateChange(s, state).pending == s.pending
  {
  }

  /**
   * Delivering the same sample twice in a row is the same as delivering it
   * once: no second fetch starts and the active line stays where it is.
   */
  lemma StateChangeIdempotent(s: SyncState, state: PlaybackState)
    ensures OnStateChange(OnStateChange(s, state), state) == OnStateChange(s, state)
  {
  }

  /**
   * An empty track clears the lyrics, the key and the active line, and
   * leaves the loading flag, the error and the running fetches alone.
   */
  lemma EmptyTrackClears(s: SyncState, state: PlaybackState)
    requires state.track == ""
    ensures var t := OnStateChange(s, state);
      && t.lyrics == [] && t.currentTrackID.None? && t.activeLineID.None?
      && t.isLoading == s.isLoading && t.error == s.error && t.pending == s.pending
  {
  }

  /**
   * Every sample is remembered, moves the playhead to its position and
   * recomputes the active line over the lyrics then shown (or keeps it
   * when there are none).
   */
  lemma StateChangeMovesPlayhead(s: SyncState, state: PlaybackState)
    ensures var t := OnStateChange(s, state);
      && t.lastState == state && t.currentPosition == state.position
      && (t.lyrics != [] ==> t.activeLineID == ActiveId(t.lyrics, state.position))
      && (t.lyrics == [] && state.track != "" ==> t.activeLineID == s.activeLineID)
  {
  }

  /** A tick while paused changes nothing. */
  lemma TickWhilePausedIsNoOp(s: SyncState, now: real)
    requires !s.lastState.isPlaying
    ensures OnTick(s, now) == s
  {
  }

  /**
   * A tick while playing sets the playhead to the sampled position plus
   * the time since the sample, recomputes the active line, and changes
   * nothing else.
   */
  lemma TickInterpolates(s: SyncState, now: real)
    requires s.lastState.isPlaying
    ensures var t := OnTick(s, now);
      && t.currentPosition == s.lastState.position + (now - s.lastState.timestamp)
      && t.activeLineID == (if s.lyrics == [] then s.activeLineID else ActiveId(s.lyrics, t.currentPosition))
      && t.(currentPosition := s.currentPosition, activeLineID := s.activeLineID) == s
  {
  }

  /** On sorted lyrics, later ticks of one sample never move the active line backwards. */
  lemma TicksAdvanceActiveLine(s: SyncState, now: real, later: real)
    requires s.lastState.isPlaying && s.lyrics != [] && SortedByStart(s.lyrics) && now <= later
    requires LastStarted(s.lyrics, OnTick(s, now).currentPosition).Some?
    ensures LastStarted(s.lyrics, OnTick(s, later).currentPosition).Some?
    ensures LastStarted(s.lyrics, OnTick(s, now).currentPosition).value
         <= LastStarted(s.lyrics, OnTick(s, later).currentPosition).value
  {
    ActiveLineMonotone(s.lyrics, OnTick(s, now).currentPosition, OnTick(s, later).currentPosition);
  }

  /**
   * A successful fetch installs its lines and lowers the loading flag; it
   * neither clears the error nor recomputes the active line.
   */
  lemma FetchSuccess(s: SyncState, k: nat, response: Response)
    requires k < |s.pending| && FetchLyrics(response, s.nextId).Ok?
    ensures var t := OnFetchDone(s, k, response);
      && t.lyrics == FetchLyrics(response, s.nextId).value && !t.isLoading
      && t.nextId == s.nextId + |t.lyrics|
      && t.error == s.error && t.activeLineID == s.activeLineID
      && t.currentTrackID == s.currentTrackID && |t.pending| == |s.pending| - 1
  {
  }

  /**
   * A failed fetch empties the lyrics, lowers the loading flag and says
   * "Lyrics not found" exactly when the server answered 404.
   */
  lemma FetchFailure(s: SyncState, k: nat, response: Response)
    requires k < |s.pending| && FetchLyrics(response, s.nextId).Err?
    ensures var t := OnFetchDone(s, k, response);
      && t.lyrics == [] && !t.isLoading && t.error.Some? && t.nextId == s.nextId
      && t.activeLineID == s.activeLineID && t.currentTrackID == s.currentTrackID
      && t.lastState == s.lastState && t.currentPosition == s.currentPosition
      && t.pending == s.pending[..k] + s.pending[k + 1..]
      && (t.error.value == NotFoundMessage <==> response.Http? && response.statusCode == 404)
      && (t.error.value != NotFoundMessage ==> t.error.value == FailedMessage)
  {
    NotFoundIff(response, s.nextId);
  }

  /** A 404 ends in "Lyrics not found". */
  lemma NotFoundMessageExample(s: SyncState, body: Option<LRCLibResponse>)
    requires |s.pending| == 1
    ensures OnFetchDone(s, 0, Http(404, body)).error == Some(NotFoundMessage)
  {
  }

  /**
   * A completion is never checked against the current track: when the
   * fetch for track A finishes after the player moved on to track B, A's
   * lines are installed while B's key stays recorded.
   */
  lemma StaleCompletionApplied(t0: real, a: PlaybackState, b: PlaybackState, response: Response)
    requires a.track != "" && b.track != "" && TrackKey(a) != TrackKey(b)
    requires FetchLyrics(response, 0).Ok?
    ensures var s := OnStateChange(OnStateChange(Initial(t0), a), b);
      && s.pending == [a, b]
      && OnFetchDone(s, 0, response).lyrics == FetchLyrics(response, 0).value
      && OnFetchDone(s, 0, response).currentTrackID == Some(TrackKey(b))
      && OnFetchDone(s, 0, response).pending == [b]
  {
    var s := OnStateChange(OnStateChange(Initial(t0), a), b);
    assert s.pending[1..] == [b];
  }

  /**
   * A successful completion keeps the active line id of the lyrics it
   * replaces (it does not recompute it), but that id names none of the
   * installed lines: they are numbered from ids never handed out before.
   */
  lemma StaleActiveIdNamesNoNewLine(s: SyncState, k: nat, response: Response)
    requires Consistent(s) && k < |s.pending| && FetchLyrics(response, s.nextId).Ok?
    ensures var t := OnFetchDone(s, k, response);
      && t.activeLineID == s.activeLineID
      && (t.activeLineID.Some? ==> forall j :: 0 <= j < |t.lyrics| ==> t.lyrics[j].id != t.activeLineID.value)
  {
    FetchedIdsFresh(response, s.nextId);
  }

  /**
   * The key joins name and artist with `-`, so two different tracks can
   * share a key: "A-B" by "C" and "A" by "B-C" are taken for the same track
   * and the second starts no fetch.
   */
  lemma KeysCanCollide(s: SyncState, x: PlaybackState, y: PlaybackState)
    requires x.track == "A-B" && x.artist == "C" && y.track == "A" && y.artist == "B-C"
    ensures TrackKey(x) == TrackKey(y)
    ensures OnStateChange(OnStateChange(s, x), y).pending == OnStateChange(s, x).pending
  {
    assert TrackKey(x) == "A-B-C" == TrackKey(y);
  }

  // ---------------------------------------------------------- the class

  /** The manager, with its published and private fields. */
  class LyricsManager {
    var lyrics: seq<LyricsLine>
    var isLoading: bool
    var error: Option<string>
    var currentPosition: real
    var activeLineID: Option<nat>
    var currentTrackID: Option<string>
    var lastState: PlaybackState
    var pending: seq<PlaybackState>
    var nextId: nat

    function Snapshot(): SyncState
      reads this
    {
      SyncState(lyrics, isLoading, error, currentPosition, activeLineID, currentTrackID, lastState, pending, nextId)
    }

    predicate Valid()
      reads this
    {
      Consistent(Snapshot())
    }

    constructor(emptyStamp: real)
      ensures Snapshot() == Initial(emptyStamp) && Valid()
    {
      lyrics := [];
      isLoading := false;
      error := None;
      currentPosition := 0.0;
      activeLineID := None;
      currentTrackID := None;
      lastState := Empty(emptyStamp);
      pending := [];
      nextId := 0;
    }

    /** `updateActiveLine`. */
    method UpdateActiveLine()
      modifies this
      ensures Snapshot() == UpdateActive(old(Snapshot()))
    {
      if lyrics == [] {
        return;
      }
      var matching := LastStarted(lyrics, currentPosition);
      var matchingID := if matching.Some? then Some(lyrics[matching.value].id) else None;
      if activeLineID != matchingID {
        activeLineID := matchingID;
      }
    }

    /** `updatePosition`, fired by the 0.1 s timer at clock reading `now`. */
    method UpdatePosition(now: real)
      requires Valid()
      modifies this
      ensures Snapshot() == OnTick(old(Snapshot()), now) && Valid()
    {
      if !lastState.isPlaying {
        return;
      }
      var timePassed := now - lastState.timestamp;
      currentPosition := lastState.position + timePassed;
      UpdateActiveLine();
    }

    /** `handleStateChange`, fired for every published playback sample. */
    method HandleStateChange(state: PlaybackState)
      requires Valid()
      modifies this
      ensures Snapshot() == OnStateChange(old(Snapshot()), state) && Valid()
    {
      ghost var before := Snapshot();
      OnStateChangeConsistent(before, state);
      lastState := state;
      var trackID := TrackKey(state);
      if Some(trackID) != currentTrackID && state.track != "" {
        currentTrackID := Some(trackID);
        FetchLyrics(state);
      } else if state.track == "" {
        lyrics := [];
        currentTrackID := None;
        activeLineID := None;
      }
      currentPosition := state.position;
      UpdateActiveLine();
    }

    /** The synchronous start of `fetchLyrics`; the fetch itself is now running. */
    method FetchLyrics(state: PlaybackState)
      modifies this
      ensures Snapshot() == StartFetch(old(Snapshot()), state)
    {
      isLoading := true;
      error := None;
      pending := pending + [state];
    }

    /**
     * The completion of the `k`-th running fetch on the main actor; its
     * lines are numbered from `nextId`.
     */
    method CompleteFetch(k: nat, response: Response)
      requires Valid() && k < |pending|
      modifies this
      ensures Snapshot() == OnFetchDone(old(Snapshot()), k, response) && Valid()
    {
      OnFetchDoneConsistent(Snapshot(), k, response);
      pending := pending[..k] + pending[k + 1..];
      match Fetcher.FetchLyrics(response, nextId)
      case Ok(fetched) =>
        lyrics := fetched;
        isLoading := false;
        nextId := nextId + |fetched|;
      case Err(e) =>
        isLoading := false;
        if e == Lyrics(NotFound) {
          error := Some(NotFoundMessage);
        } else {
          error := Some(FailedMessage);
        }
        lyrics := [];
    }
  }
}
