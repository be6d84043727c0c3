# AuraLyrics lyrics-timing engine in Dafny

AuraLyrics is a macOS menu-bar app. It polls Spotify for the current
track, fetches lyrics for that track from lrclib.net, and highlights the
line under the playhead. This project models the parts of the app that
hold logic, and proves properties of them:

- `LRCParser`: the timed-lyrics (LRC) parser. The pattern
  `\[(\d+):(\d+)(?:\.|:)(\d+)\](.*)` is modelled match by match. A match
  becomes a line whose start time is minutes·6000 + seconds·100 + fraction,
  in hundredths of a second. The lines are then sorted by start time.
  `Parse` is the loop of the source, proved against the specification
  function `ParsedLines`.
- `Fetcher`: the part of `LyricsFetcher.fetchLyrics` that does not touch
  the network. It builds the query, classifies the HTTP answer, and turns
  synced lyrics, plain lyrics or no lyrics into lines.
- `LyricsModels` and `Playback`: the value types `LyricsLine`,
  `LRCLibResponse` and `PlaybackState`, including `.empty`, `.notRunning`
  and `description`.
- `Spotify`: how `SpotifyService` handles the string its poll script
  returns. This covers the `NOT_RUNNING` and `ERROR` sentinels, the
  `|||` split, decimal commas, and the millisecond heuristic. It also
  covers publishing only a different sample.
- `Sync`: `LyricsManager`, the single-writer state machine. It handles
  four events:
  - a new sample;
  - a 0.1 s tick;
  - a fetch success;
  - a fetch failure.

  Each method is proved to produce the state that a pure transition
  function gives. The engine's invariant and behaviour are lemmas about
  those functions.
- `MenuBar`: `MenuBarManager`'s mode, visibility and lock state machine
  over four window booleans, plus the menu it builds as a pure function.
- `Text`: the Foundation string operations these use:
  - trimming a character set;
  - splitting at newline characters;
  - splitting and joining on a separator string;
  - replacing a character.

Identifiers are modelled as follows:

- Lyric ids (Swift `UUID`s) are naturals handed out in order, so
  "fresh" means "not handed out before". The parser and the fetcher number
  their lines from a `firstId` argument. `LyricsManager` keeps the next
  unused id in a `nextId` field and numbers each fetched result from it.
- Clock readings (`Date()`) are `real` seconds passed in as arguments.
- `Double(String)` is an argument `parse: string -> Option<real>`.

## Model

| member | source | states |
|---|---|---|
| LyricsModels.IdsFromDistinct | AuraLyrics/Models/LyricsModels.swift:3-4 | lines whose ids are drawn one after another never share an id |
| LyricsModels.SeparatelyBuiltLinesDiffer | AuraLyrics/Models/LyricsModels.swift:3-6 | two lines with different ids are unequal even when start time and text agree (equality includes the id) |
| Playback.EmptyIsIdle | AuraLyrics/Models/PlaybackState.swift:19-29 | `.empty` has empty texts, is not playing, is at 0 of 0 and reports the player running |
| Playback.NotRunningIsEmptyStopped | AuraLyrics/Models/PlaybackState.swift:19-41 | `.notRunning` equals `.empty` except that it reports the player not running and carries its own capture instant |
| Playback.DescriptionWhenNotRunning | AuraLyrics/Models/PlaybackState.swift:14-15 | the description is "[Spotify] Not Running" whenever the player is not running, whatever the other fields |
| Playback.DescriptionWhenRunning | AuraLyrics/Models/PlaybackState.swift:14-17 | otherwise it starts with "[Spotify] " and names the track and artist |
| Playback.CaptureTimeMatters | AuraLyrics/Models/PlaybackState.swift:3-12 | two samples differing only in capture time are unequal |
| Text.TrimSpec | AuraLyrics/Services/LRCParser.swift:20 | trimming removes a run of the set from each end and leaves a middle that neither starts nor ends with the set |
| Text.TrimIdempotent | AuraLyrics/Services/LRCParser.swift:20 | trimming twice is trimming once |
| Text.SplitWhereSpec | AuraLyrics/Services/LyricsFetcher.swift:53 | splitting at newline characters gives one more piece than there are newline characters, none of them holding one |
| Text.SplitWhereRejoin | AuraLyrics/Services/LyricsFetcher.swift:53 | putting the removed newline characters back between the pieces, in order, gives the input |
| Text.JoinSplitOn | AuraLyrics/Services/SpotifyService.swift:138 | joining the pieces of a split with the separator gives back the input |
| Text.SplitOnPiecesFree | AuraLyrics/Services/SpotifyService.swift:138 | no piece of a split contains the separator |
| Text.SplitOnJoin | AuraLyrics/Services/SpotifyService.swift:138 | pieces that avoid the separator's first character split back out of their join |
| LRCParser.DigitRunSpec | AuraLyrics/Services/LRCParser.swift:7 | a greedy `\d+` run covers only digits and stops at a non-digit or the end |
| LRCParser.LineRunSpec | AuraLyrics/Services/LRCParser.swift:7 | a greedy `.*` run covers no line terminator and stops at one or at the end |
| LRCParser.MatchAtSound | AuraLyrics/Services/LRCParser.swift:7 | what the matcher finds at a position is a match of the pattern there |
| LRCParser.MatchAtComplete | AuraLyrics/Services/LRCParser.swift:7 | every match of the pattern at a position is the one the matcher finds |
| LRCParser.MatchesFromSound | AuraLyrics/Services/LRCParser.swift:13 | every match reported for the document is a match of the pattern |
| LRCParser.MatchesFromCovers | AuraLyrics/Services/LRCParser.swift:13 | every match of the pattern in the document lies inside some reported match: no tag is skipped |
| LRCParser.MatchesFromComplete | AuraLyrics/Services/LRCParser.swift:13 | a match of the pattern that no earlier reported match runs over is reported itself |
| LRCParser.MatchesFromOrdered | AuraLyrics/Services/LRCParser.swift:13 | the reported matches are in document order and do not overlap |
| LRCParser.NoNumericTagNoMatch | AuraLyrics/Services/LRCParser.swift:7 | a document where no `[` is followed by a digit (e.g. `[ar:Name]` tags) yields no match |
| LRCParser.OneMatchPerInputLine | AuraLyrics/Services/LRCParser.swift:7 | on one input line only the first tag matches; the greedy text swallows any later tag |
| LRCParser.LongFractionExample | AuraLyrics/Services/LRCParser.swift:19-26 | `[00:01.500]` matches and starts at 600 hundredths (6 s): the fraction is divided by 100 whatever its digit count |
| LRCParser.Collect | AuraLyrics/Services/LRCParser.swift:15-29 | one line per match, in match order, with the k-th match's start time and trimmed text and the k-th fresh id |
| LRCParser.InsertSorted | AuraLyrics/Services/LRCParser.swift:33 | inserting into a sorted list keeps it sorted by start time |
| LRCParser.SortByStart | AuraLyrics/Services/LRCParser.swift:33 | sorting is a permutation (same multiset) |
| LRCParser.SortByStartSorted | AuraLyrics/Services/LRCParser.swift:33 | sorting orders lines by non-decreasing start time |
| LRCParser.SortByStartStable | AuraLyrics/Services/LRCParser.swift:33 | lines with equal start times keep their encounter order |
| LRCParser.SortByStartDistinct | AuraLyrics/Services/LRCParser.swift:33 | sorting keeps ids distinct |
| LRCParser.ParsedLinesFacts | AuraLyrics/Services/LRCParser.swift:15-33 | the parsed lines are sorted, a permutation of the collected lines, one per match, with distinct ids |
| LRCParser.Parse | AuraLyrics/Services/LRCParser.swift:4-34 | the loop of `parse` followed by the sort returns `ParsedLines`, which is sorted, a permutation of one line per match, with distinct ids |
| LRCParser.ParsedLineOrigin | AuraLyrics/Services/LRCParser.swift:15-33 | every parsed line is the line built from one match, its id telling which; nothing else appears |
| LRCParser.ParsedLinesOrdered | AuraLyrics/Services/LRCParser.swift:32-33 | the parsed lines are ordered by start time, then by encounter order |
| Fetcher.TruncateToInt | AuraLyrics/Services/LyricsFetcher.swift:19 | `Int(duration)` truncates toward zero |
| Fetcher.NatToStringReadsBack | AuraLyrics/Services/LyricsFetcher.swift:19 | the decimal text of a natural reads back as that natural |
| Fetcher.QueryItems | AuraLyrics/Services/LyricsFetcher.swift:15-20 | the query carries track_name, artist_name, album_name and duration, in that order |
| Fetcher.QueryDurationWholeSeconds | AuraLyrics/Services/LyricsFetcher.swift:19 | the duration parameter is the decimal text of the whole seconds of the duration |
| Fetcher.QueryDurationExample | AuraLyrics/Services/LyricsFetcher.swift:19 | 212.9 s is sent as "212" |
| Fetcher.FetchLyrics | AuraLyrics/Services/LyricsFetcher.swift:24-63 | the classifier never reports an invalid URL |
| Fetcher.NotFoundIff | AuraLyrics/Services/LyricsFetcher.swift:36-38 | the result is `notFound` exactly for status 404 |
| Fetcher.NoDataIff | AuraLyrics/Services/LyricsFetcher.swift:32-42 | the result is `noData` exactly for a non-HTTP answer or a status other than 200 and 404 |
| Fetcher.DecodeErrorIff | AuraLyrics/Services/LyricsFetcher.swift:44-62 | the result is `decodeError` exactly when a 200 body does not decode |
| Fetcher.OkIff | AuraLyrics/Services/LyricsFetcher.swift:47-59 | lines come back exactly when a 200 body decodes |
| Fetcher.SyncedLyricsWin | AuraLyrics/Services/LyricsFetcher.swift:49-50 | with synced lyrics present the result is their parse, whatever the plain lyrics |
| Fetcher.PlainLyricsUsed | AuraLyrics/Services/LyricsFetcher.swift:51-56 | without synced lyrics, plain lyrics give their lines, all at 0 with non-empty text |
| Fetcher.FetchedIdsFresh | AuraLyrics/Services/LyricsFetcher.swift:47-59 | the lines of a successful fetch hold no id twice and carry only ids from `firstId` up to `firstId` plus their count |
| Fetcher.NoLyricsIsEmpty | AuraLyrics/Services/LyricsFetcher.swift:57-58 | a body with neither field gives an empty list, not an error |
| Fetcher.NonEmptyAppend | AuraLyrics/Services/LyricsFetcher.swift:55 | dropping empty texts from a concatenation drops them from each half |
| Fetcher.PlainLinesShape | AuraLyrics/Services/LyricsFetcher.swift:53-56 | plain lines:<br>- there are at most one more than there are newline characters;<br>- they carry fresh ids in order;<br>- they start at 0;<br>- their texts are non-empty, hold no newline and have no blank at either end |
| Fetcher.PlainSingleLine | AuraLyrics/Services/LyricsFetcher.swift:53-56 | text without a newline gives the single trimmed line, if it is not blank |
| Fetcher.PlainLinesConcat | AuraLyrics/Services/LyricsFetcher.swift:53-56 | two texts joined by a line feed give the lines of the first, then those of the second, in source order |
| Spotify.ReadNumberCommaInsensitive | AuraLyrics/Services/SpotifyService.swift:148-152 | a decimal comma reads like a decimal point, and an unreadable number is 0 |
| Spotify.DurationDividedIff | AuraLyrics/Services/SpotifyService.swift:156-158 | the duration is divided by 1000 exactly when it exceeds 10000, else kept |
| Spotify.DurationExamples | AuraLyrics/Services/SpotifyService.swift:156-158 | 212000 becomes 212 and 180 stays 180 |
| Spotify.PositionDividedAtMostOnce | AuraLyrics/Services/SpotifyService.swift:161-167 | the position is kept or divided by 1000, never more |
| Spotify.PositionDividedIff | AuraLyrics/Services/SpotifyService.swift:161-167 | a non-zero position is divided exactly when it exceeds both 10000 and the duration, or exceeds 1000 times the duration |
| Spotify.PositionExample | AuraLyrics/Services/SpotifyService.swift:156-167 | 45000 against a 212 s track (given in seconds or in ms) is 45 s |
| Spotify.SecondsSampleKept | AuraLyrics/Services/SpotifyService.swift:156-167 | a sample in seconds with the position inside the track is left alone |
| Spotify.ZeroDurationShrinksPosition | AuraLyrics/Services/SpotifyService.swift:152-167 | a zero duration makes any positive position count as milliseconds |
| Spotify.TooFewFieldsIff | AuraLyrics/Services/SpotifyService.swift:138-143 | no sample comes out exactly when there are fewer than seven fields |
| Spotify.ParsedFields | AuraLyrics/Services/SpotifyService.swift:145-183 | the sample's fields:<br>- fields 0, 1, 2 and 6 are copied verbatim and hold no separator;<br>- isPlaying holds iff field 5 is "playing";<br>- the numbers are the normalised readings;<br>- the running flag and the stamp are the given ones |
| Spotify.ExtraFieldsIgnored | AuraLyrics/Services/SpotifyService.swift:138-170 | answers that agree on their first seven fields give the same sample |
| Spotify.ScriptAnswerReadBack | AuraLyrics/Services/SpotifyService.swift:138-172 | seven fields joined as the poll script joins them come back as the sample's fields |
| Spotify.AfterParseOutcome | AuraLyrics/Services/SpotifyService.swift:140-189 | after a parse the state is the old one when nothing parsed, else the parsed sample |
| Spotify.AfterParseIdempotent | AuraLyrics/Services/SpotifyService.swift:185-189 | delivering the same answer again at the same instant changes nothing |
| Spotify.FreshStampAlwaysPublished | AuraLyrics/Services/SpotifyService.swift:174-189 | a well-formed answer read at a new instant always replaces the state |
| Spotify.NotRunningStopsPlayback | AuraLyrics/Services/SpotifyService.swift:115-121 | `NOT_RUNNING` installs `.empty` (which reports the player running) only when playing, else leaves the state alone |
| Spotify.FailuresLeaveState | AuraLyrics/Services/SpotifyService.swift:99-127 | a failed script, a missing string or an `ERROR` answer leaves the state alone |
| Spotify.ErrorPrefixedTrackDropped | AuraLyrics/Services/SpotifyService.swift:124-127 | a well-formed answer whose track name starts with "ERROR" is dropped |
| Spotify.SpotifyService.FetchSpotifyState | AuraLyrics/Services/SpotifyService.swift:96-130 | the new state is `AfterFetch` of the old one, and it is published once when it changed |
| Spotify.SpotifyService.ParseResult | AuraLyrics/Services/SpotifyService.swift:132-190 | the new state is `AfterParse` of the old one, and it is published once when it changed |
| Sync.LastStarted | AuraLyrics/Services/LyricsManager.swift:57 | the index of the last line started by the position; no line after it has started; none exactly when no line has started |
| Sync.ActiveLineBrackets | AuraLyrics/Services/LyricsManager.swift:55-57 | on sorted lyrics every line up to the active one has started and none after it has |
| Sync.ActiveLineMonotone | AuraLyrics/Services/LyricsManager.swift:55-57 | on sorted lyrics the active line never moves back as the position grows |
| Sync.ActiveIdNamesOneLine | AuraLyrics/Services/LyricsManager.swift:57-62 | with distinct ids the active id names the line `LastStarted` picks |
| Sync.ActiveLineExample | AuraLyrics/Services/LyricsManager.swift:52-64 | lines at 0, 10, 20 s: active is the first at 0 s, the second at 15 s, the third at 20 s, none before 0 s |
| Sync.InitialConsistent | AuraLyrics/Services/LyricsManager.swift:8-19 | the initial state satisfies the engine invariant |
| Sync.OnStateChangeConsistent | AuraLyrics/Services/LyricsManager.swift:66-83 | a new sample keeps the invariant: the recorded key is the last sample's, loading implies a running fetch, errors are the two messages |
| Sync.OnTickConsistent | AuraLyrics/Services/LyricsManager.swift:41-50 | a tick keeps the invariant |
| Sync.OnFetchDoneConsistent | AuraLyrics/Services/LyricsManager.swift:98-114 | a completion keeps the invariant, including that the lyrics hold no id twice and that every id in use, the active one included, was handed out before `nextId` |
| Sync.FetchStartsIff | AuraLyrics/Services/LyricsManager.swift:68-87 | a fetch for the sample starts and the key is recorded exactly when the key differs and the track is non-empty; loading is raised and the error cleared, and the old lyrics are kept |
| Sync.RedeliveryStartsNoFetch | AuraLyrics/Services/LyricsManager.swift:71 | the same track and artist again start no fetch |
| Sync.StateChangeIdempotent | AuraLyrics/Services/LyricsManager.swift:66-83 | delivering the same sample twice in a row gives the same state as delivering it once: no second fetch, same active line |
| Sync.EmptyTrackClears | AuraLyrics/Services/LyricsManager.swift:74-78 | an empty track clears the lyrics, the key and the active line, and leaves loading, error and running fetches alone |
| Sync.StateChangeMovesPlayhead | AuraLyrics/Services/LyricsManager.swift:67-82 | every sample is kept, moves the playhead to its position and recomputes the active line (kept as it was when there are no lyrics) |
| Sync.TickWhilePausedIsNoOp | AuraLyrics/Services/LyricsManager.swift:42 | a tick while not playing changes nothing |
| Sync.TickInterpolates | AuraLyrics/Services/LyricsManager.swift:41-50 | a tick while playing sets position = sampled position + elapsed time, recomputes the active line, and changes nothing else |
| Sync.TicksAdvanceActiveLine | AuraLyrics/Services/LyricsManager.swift:41-57 | on sorted lyrics later ticks never move the active line back |
| Sync.FetchSuccess | AuraLyrics/Services/LyricsManager.swift:98-102 | success installs the lines, numbered from `nextId`, moves `nextId` past them and lowers loading; error, active line and key are untouched |
| Sync.StaleActiveIdNamesNoNewLine | AuraLyrics/Services/LyricsManager.swift:98-102 | after a success the kept active line id names none of the installed lines, since their ids are fresh |
| Sync.FetchFailure | AuraLyrics/Services/LyricsManager.swift:103-114 | failure empties the lyrics, lowers loading, uses no id, removes only the finished fetch, keeps the key, the last sample, the position and the active line id (which then names no shown line), and says "Lyrics not found" exactly for a 404, else "Failed to fetch lyrics" |
| Sync.NotFoundMessageExample | AuraLyrics/Services/LyricsManager.swift:106-107 | a 404 ends in "Lyrics not found" |
| Sync.StaleCompletionApplied | AuraLyrics/Services/LyricsManager.swift:89-115 | a fetch for track A that completes after the switch to B installs A's lines while B stays current |
| Sync.KeysCanCollide | AuraLyrics/Services/LyricsManager.swift:68-71 | "A-B" by "C" and "A" by "B-C" share a key, so the second starts no fetch |
| Sync.LyricsManager.UpdateActiveLine | AuraLyrics/Services/LyricsManager.swift:52-64 | the new state is `UpdateActive` of the old one |
| Sync.LyricsManager.UpdatePosition | AuraLyrics/Services/LyricsManager.swift:41-50 | the new state is `OnTick` of the old one, and the invariant holds |
| Sync.LyricsManager.HandleStateChange | AuraLyrics/Services/LyricsManager.swift:66-83 | the new state is `OnStateChange` of the old one, and the invariant holds |
| Sync.LyricsManager.FetchLyrics | AuraLyrics/Services/LyricsManager.swift:85-89 | the new state is `StartFetch` of the old one |
| Sync.LyricsManager.CompleteFetch | AuraLyrics/Services/LyricsManager.swift:89-115 | the new state is `OnFetchDone` of the old one: the result's lines are numbered from `nextId`, which moves past them, and the invariant holds |
| MenuBar.RawValueRoundTrip | AuraLyrics/Services/MenuBarManager.swift:12-15 | a mode's raw value reads back as the mode, and only raw values read back |
| MenuBar.RestoredModeSpec | AuraLyrics/Services/MenuBarManager.swift:31-36 | a saved valid mode is restored; a missing or unknown entry gives `.lyrics` |
| MenuBar.HideOfferedIff | AuraLyrics/Services/MenuBarManager.swift:105-115 | "Hide Window" is offered exactly when the window is visible |
| MenuBar.ShowLyricsOfferedIff | AuraLyrics/Services/MenuBarManager.swift:105-106 | "Show Lyrics View" is offered exactly when hidden in lyrics mode |
| MenuBar.ShowAuraOfferedIff | AuraLyrics/Services/MenuBarManager.swift:105-106 | "Show Aura Mode" is offered exactly when hidden in Aura mode |
| MenuBar.SwitchToAuraOfferedIff | AuraLyrics/Services/MenuBarManager.swift:119-122 | "Switch to Aura Mode" is offered exactly in lyrics mode |
| MenuBar.ReturnToLyricsOfferedIff | AuraLyrics/Services/MenuBarManager.swift:123-127 | "Return to Lyrics View" is offered exactly in Aura mode |
| MenuBar.AuraSizeEnabledIff | AuraLyrics/Services/MenuBarManager.swift:151 | "Aura Size" is enabled exactly in Aura mode |
| MenuBar.LockEntry | AuraLyrics/Services/MenuBarManager.swift:167-183 | the lock entry is the current mode's; its title and check mark follow that lock, and it is enabled exactly when the window is visible |
| MenuBar.OneLockEntry | AuraLyrics/Services/MenuBarManager.swift:165-183 | exactly one lock entry appears |
| MenuBar.OtherLockAbsent | AuraLyrics/Services/MenuBarManager.swift:167-183 | the other window's lock entry never appears |
| MenuBar.MenuIgnoresOtherLock | AuraLyrics/Services/MenuBarManager.swift:167-183 | the menu does not depend on the other window's lock |
| MenuBar.AtMostOnePanel | AuraLyrics/Services/MenuBarManager.swift:49-68 | never are both panels on screen, and one is exactly when the window is visible |
| MenuBar.MenuBarManager.Setup | AuraLyrics/Services/MenuBarManager.swift:27-47 | the restored mode is applied, the window is visible, and the invariant holds (panels, click-through, stored mode, menu) |
| MenuBar.MenuBarManager.ApplyMode | AuraLyrics/Services/MenuBarManager.swift:49-62 | the window is visible, exactly the mode's panel is on screen, and the mode is saved; nothing else changes |
| MenuBar.MenuBarManager.HideWindows | AuraLyrics/Services/MenuBarManager.swift:64-69 | both panels are hidden and visibility is false, the mode is kept |
| MenuBar.MenuBarManager.ShowCurrentWindow | AuraLyrics/Services/MenuBarManager.swift:71-74 | the mode is re-applied unchanged and the window is visible |
| MenuBar.MenuBarManager.SwitchToAuraMode | AuraLyrics/Services/MenuBarManager.swift:76-80 | Aura mode with only the Aura panel shown, locks unchanged |
| MenuBar.MenuBarManager.SwitchToLyricsMode | AuraLyrics/Services/MenuBarManager.swift:82-86 | lyrics mode with only the lyrics panel shown, locks unchanged |
| MenuBar.MenuBarManager.ToggleLockLyrics | AuraLyrics/Services/MenuBarManager.swift:215-219 | only the lyrics lock flips, and the lyrics panel's click-through follows it |
| MenuBar.MenuBarManager.ToggleLockAura | AuraLyrics/Services/MenuBarManager.swift:221-225 | only the Aura lock flips, and the Aura panel's click-through follows it |

## Notes on the source

- AuraLyrics/Services/LyricsFetcher.swift:56 passes `isSynced: false`, but
  `LyricsLine` (AuraLyrics/Models/LyricsModels.swift:3-7) has no such
  field. The model builds a plain line with start time 0 and the text.
- AuraLyrics/Services/SpotifyService.swift:174-183 leaves out
  `isSpotifyRunning`, which `PlaybackState` requires. The model takes the
  value as the parameter `running`.
- Behaviours of the code that the model keeps, each proved as a lemma:
  - AuraLyrics/Services/SpotifyService.swift:115-121: on `NOT_RUNNING`
    the code installs `.empty`, which reports the player running, and
    only when the player was playing (`NotRunningStopsPlayback`).
  - AuraLyrics/Services/LyricsManager.swift:68-73: a track change keeps
    the old lyrics until the fetch completes (`FetchStartsIff`).
  - AuraLyrics/Services/LyricsManager.swift:98-102: a successful fetch
    neither clears the error nor recomputes the active line
    (`FetchSuccess`).
  - AuraLyrics/Services/LyricsManager.swift:89-115: every completion is
    installed, superseded ones included (`StaleCompletionApplied`).
  - AuraLyrics/Services/LyricsManager.swift:52-53: with no lyrics the
    active line is left as it was (`StateChangeMovesPlayhead`).
  - AuraLyrics/Models/LyricsModels.swift:3-7: a fetched result carries no
    synced/plain flag; plain lines are only recognisable by their start
    time 0.

## Left out

- The AppleScript itself, running it, transport commands, distributed
  notifications and the 2-second poll: each poll is a call of
  `FetchSpotifyState` with the script's outcome.
- The `Task`, `MainActor.run`, `DispatchQueue.main.async` and timer
  scheduling. Events are sequential method calls, and the order in which
  fetches complete is an argument of `CompleteFetch`.
- URLSession, building the URL, and the JSON decoder. The transport's
  answer is the `Response` argument, and a body that decodes is an
  `LRCLibResponse`.
- Fetcher.FetchLyrics: `invalidURL` (AuraLyrics/Services/LyricsFetcher.swift:24-26)
  is never produced. Building a URL from a valid base and query items is
  Foundation code not modelled here.
- Floating point:
  - positions and durations are exact `real`s;
  - lyric start times are exact hundredths;
  - the `%.1f` formatting in `description` is a parameter;
  - `Double(String)` is the `parse` parameter.
- LRCParser.IsDigit: `\d` is the ASCII digits, while ICU also matches
  other Unicode decimal digits. The numeric groups' values are read
  exactly, as naturals, not as `Double`s.
- LRCParser.SortByStart: Swift's `sorted(by:)` does not promise any order
  for lines with equal start times. The model's insertion sort keeps
  encounter order, so `SortByStartStable` and `ParsedLinesOrdered` state
  more than the source guarantees.
- Fetcher.TruncateToInt: `Int(duration)` (AuraLyrics/Services/LyricsFetcher.swift:19)
  traps when the duration is beyond the range of a 64-bit `Int` (or is
  not a number). The model truncates every real and has no trap.
- Sync.TrackKey (string equality): Swift compares `String`s by canonical
  equivalence, while the model compares code-point sequences. This
  affects the key test (AuraLyrics/Services/LyricsManager.swift:71),
  `currentState != newState` (AuraLyrics/Services/SpotifyService.swift:186)
  and the `"NOT_RUNNING"` and `"playing"` tests. A precomposed title and
  its decomposed form are one track to the app and two to the model.
- Sync.LyricsManager: the change notifications of its `@Published`
  fields are not modelled. The `activeLineID != matchingLine?.id` guard
  (AuraLyrics/Services/LyricsManager.swift:59) only saves a redundant
  notification, so in the model it changes no state.
- Character classes are fixed sets of code points (`Text.IsWhitespace`,
  `Text.IsNewline`). Grapheme clusters and `\r\n` as a single character
  are not modelled.
- `print` logging, the status item's icon, the Theme and Aura Size
  submenus' items, and `quitApp`, `changeTheme` and `changeAuraSize`:
  these are presentation and other managers (AuraLyrics/Services/ThemeManager.swift
  and AuraLyrics/Services/AuraSizeManager.swift are not part of this model).
- MenuBar.Menu: AppKit's automatic item enabling is not modelled. The
  entries record the `isEnabled` values the code sets.
- MenuBar.MenuBarManager: `windowManager` is a weak reference; it becoming
  `nil` (which makes window calls do nothing) is not modelled. The actions
  require the state `setup` establishes. They are reached from the menu
  `setup` installs and from buttons of `LyricsView`
  (AuraLyrics/Views/LyricsView.swift:116 and :151). That view lives in a
  panel `WindowManager` creates (AuraLyrics/Services/WindowManager.swift:10-17),
  and no code shows that panel before `setup` applies the mode
  (AuraLyrics/Services/MenuBarManager.swift:45).
- The SwiftUI views, ColorExtraction, FloatingPanel window chrome and
  packaging files.
