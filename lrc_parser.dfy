/**
 * `LRCParser.parse` (AuraLyrics/Services/LRCParser.swift): every match of
 * the pattern `\[(\d+):(\d+)(?:\.|:)(\d+)\](.*)` in the document becomes
 * one lyric line, and the lines are then sorted by start time.
 */
module LRCParser {
  import opened Wrappers
  import opened Text
  import opened LyricsModels

  /** The pattern's `\d` (ASCII digits only in this model). */
  predicate IsDigit(c: char) {
    '0' <= c <= '9'
  }

  /** Length of the longest run of digits starting at `p`: what a greedy `\d+` takes. */
  function DigitRun(s: string, p: nat): (n: nat)
    requires p <= |s|
    ensures p + n <= |s|
    decreases |s| - p
  {
    if p < |s| && IsDigit(s[p]) then 1 + DigitRun(s, p + 1) else 0
  }

  /** The digit run holds only digits and stops at the first non-digit. */
  lemma {:induction false} DigitRunSpec(s: string, p: nat)
    requires p <= |s|
    ensures DigitsIn(s, p, p + DigitRun(s, p))
    ensures p + DigitRun(s, p) == |s| || !IsDigit(s[p + DigitRun(s, p)])
    decreases |s| - p
  {
    if p < |s| && IsDigit(s[p]) {
      DigitRunSpec(s, p + 1);
    }
  }

  /** Length of the run up to the next line terminator: what the greedy `(.*)` takes. */
  function LineRun(s: string, p: nat): (n: nat)
    requires p <= |s|
    ensures p + n <= |s|
    decreases |s| - p
  {
    if p < |s| && !IsNewline(s[p]) then 1 + LineRun(s, p + 1) else 0
  }

  /** The line run holds no line terminator and stops at the first one, or at the end. */
  lemma {:induction false} LineRunSpec(s: string, p: nat)
    requires p <= |s|
    ensures NoNewlineIn(s, p, p + LineRun(s, p))
    ensures p + LineRun(s, p) == |s| || IsNewline(s[p + LineRun(s, p)])
    decreases |s| - p
  {
    if p < |s| && !IsNewline(s[p]) {
      LineRunSpec(s, p + 1);
    }
  }

  /**
   * One match, by the positions of its delimiters (the capture groups are
   * the ranges between them, as `range(at:)` gives them): `[` at `start`,
   * `:` at `minutesEnd`, the `.` or `:` at `secondsEnd`, `]` at
   * `fractionEnd`; the text runs up to `end`, exclusive.
   */
  datatype TagMatch = TagMatch(start: nat, minutesEnd: nat, secondsEnd: nat, fractionEnd: nat, end: nat)

  /** All characters in `[i, j)` are digits. */
  predicate DigitsIn(s: string, i: nat, j: nat)
    requires i <= j <= |s|
  {
    forall k :: i <= k < j ==> IsDigit(s[k])
  }

  /** No character in `[i, j)` ends a line (what `.` matches). */
  predicate NoNewlineIn(s: string, i: nat, j: nat)
    requires i <= j <= |s|
  {
    forall k :: i <= k < j ==> !IsNewline(s[k])
  }

  /**
   * `m` is a match of the pattern at `p` in `s`: every group is a non-empty
   * run of digits between the right delimiters, and the text runs to the
   * end of the input line.
   */
  predicate TagAt(s: string, p: nat, m: TagMatch) {
    && m.start == p
    && p + 1 < m.minutesEnd && m.minutesEnd + 1 < m.secondsEnd && m.secondsEnd + 1 < m.fractionEnd
    && m.fractionEnd < m.end <= |s|
    && s[p] == '[' && DigitsIn(s, p + 1, m.minutesEnd)
    && s[m.minutesEnd] == ':' && DigitsIn(s, m.minutesEnd + 1, m.secondsEnd)
    && (s[m.secondsEnd] == '.' || s[m.secondsEnd] == ':') && DigitsIn(s, m.secondsEnd + 1, m.fractionEnd)
    && s[m.fractionEnd] == ']'
    && NoNewlineIn(s, m.fractionEnd + 1, m.end)
    && (m.end == |s| || IsNewline(s[m.end]))
  }

  /** The fourth capture group: what follows the `]` up to the end of the match. */
  function TextOf(s: string, m: TagMatch): string
    requires m.fractionEnd < m.end <= |s|
  {
    s[m.fractionEnd + 1..m.end]
  }

  /** The match that the regular expression finds when it tries position `p`. */
  function MatchAt(s: string, p: nat): (r: Option<TagMatch>)
    requires p <= |s|
    ensures r.Some? ==> r.value.start == p && InOrder(s, r.value)
  {
    if p < |s| && s[p] == '[' then
      var a := p + 1 + DigitRun(s, p + 1);
      if a > p + 1 && a < |s| && s[a] == ':' then
        var b := a + 1 + DigitRun(s, a + 1);
        if b > a + 1 && b < |s| && (s[b] == '.' || s[b] == ':') then
          var c := b + 1 + DigitRun(s, b + 1);
          if c > b + 1 && c < |s| && s[c] == ']' then
            Some(TagMatch(p, a, b, c, c + 1 + LineRun(s, c + 1)))
          else None
        else None
      else None
    else None
  }

  /** `m` has its delimiters where the greedy runs from `p` end. */
  predicate RunsShape(s: string, p: nat, m: TagMatch) {
    && m.start == p < |s| && s[p] == '['
    && m.minutesEnd == p + 1 + DigitRun(s, p + 1) && m.minutesEnd > p + 1
    && m.minutesEnd < |s| && s[m.minutesEnd] == ':'
    && m.secondsEnd == m.minutesEnd + 1 + DigitRun(s, m.minutesEnd + 1) && m.secondsEnd > m.minutesEnd + 1
    && m.secondsEnd < |s| && (s[m.secondsEnd] == '.' || s[m.secondsEnd] == ':')
    && m.fractionEnd == m.secondsEnd + 1 + DigitRun(s, m.secondsEnd + 1) && m.fractionEnd > m.secondsEnd + 1
    && m.fractionEnd < |s| && s[m.fractionEnd] == ']'
    && m.end == m.fractionEnd + 1 + LineRun(s, m.fractionEnd + 1)
  }

  /** What `MatchAt` finds has the shape of the runs it measures. */
  lemma MatchAtShape(s: string, p: nat)
    requires p <= |s| && MatchAt(s, p).Some?
    ensures RunsShape(s, p, MatchAt(s, p).value)
  {
  }

  /** Delimiters at the ends of greedy runs make a match of the pattern. */
  lemma RunsShapeSound(s: string, p: nat, m: TagMatch)
    requires RunsShape(s, p, m)
    ensures TagAt(s, p, m)
  {
    RunsShapeGroups(s, p, m);
    RunsShapeText(s, p, m);
  }

  /** The groups between the delimiters are digit runs. */
  lemma RunsShapeGroups(s: string, p: nat, m: TagMatch)
    requires RunsShape(s, p, m)
    ensures DigitsIn(s, p + 1, m.minutesEnd)
    ensures DigitsIn(s, m.minutesEnd + 1, m.secondsEnd)
    ensures DigitsIn(s, m.secondsEnd + 1, m.fractionEnd)
  {
    DigitRunSpec(s, p + 1);
    DigitRunSpec(s, m.minutesEnd + 1);
    DigitRunSpec(s, m.secondsEnd + 1);
  }

  /** The text after the `]` runs to the end of the input line. */
  lemma RunsShapeText(s: string, p: nat, m: TagMatch)
    requires RunsShape(s, p, m)
    ensures m.end <= |s| && NoNewlineIn(s, m.fractionEnd + 1, m.end)
    ensures m.end == |s| || IsNewline(s[m.end])
  {
    LineRunSpec(s, m.fractionEnd + 1);
  }

  /** What `MatchAt` finds is a match of the pattern. */
  lemma MatchAtSound(s: string, p: nat)
    requires p <= |s| && MatchAt(s, p).Some?
    ensures TagAt(s, p, MatchAt(s, p).value)
  {
    MatchAtShape(s, p);
    RunsShapeSound(s, p, MatchAt(s, p).value);
  }

  /** A greedy digit run stops exactly at the first non-digit. */
  lemma DigitRunTo(s: string, p: nat, q: nat)
    requires p <= q < |s| && DigitsIn(s, p, q) && !IsDigit(s[q])
    ensures DigitRun(s, p) == q - p
    decreases q - p
  {
    if p < q {
      DigitRunTo(s, p + 1, q);
    }
  }

  /** The line run stops exactly at the first line terminator, or at the end. */
  lemma LineRunTo(s: string, p: nat, q: nat)
    requires p <= q <= |s| && NoNewlineIn(s, p, q)
    requires q == |s| || IsNewline(s[q])
    ensures LineRun(s, p) == q - p
    decreases q - p
  {
    if p < q {
      LineRunTo(s, p + 1, q);
    }
  }

  /** `MatchAt` follows the runs it measures. */
  lemma MatchAtFromRuns(s: string, p: nat, m: TagMatch)
    requires m.start == p < m.minutesEnd < m.secondsEnd < m.fractionEnd < m.end <= |s|
    requires s[p] == '[' && s[m.minutesEnd] == ':' && (s[m.secondsEnd] == '.' || s[m.secondsEnd] == ':')
    requires s[m.fractionEnd] == ']'
    requires DigitRun(s, p + 1) == m.minutesEnd - p - 1 > 0
    requires DigitRun(s, m.minutesEnd + 1) == m.secondsEnd - m.minutesEnd - 1 > 0
    requires DigitRun(s, m.secondsEnd + 1) == m.fractionEnd - m.secondsEnd - 1 > 0
    requires LineRun(s, m.fractionEnd + 1) == m.end - m.fractionEnd - 1
    ensures MatchAt(s, p) == Some(m)
  {
  }

  /** The converse of `MatchAtSound`: wherever a tag stands, `MatchAt` finds exactly it. */
  lemma MatchAtComplete(s: string, p: nat, m: TagMatch)
    requires TagAt(s, p, m)
    ensures MatchAt(s, p) == Some(m)
  {
    DigitRunTo(s, p + 1, m.minutesEnd);
    DigitRunTo(s, m.minutesEnd + 1, m.secondsEnd);
    DigitRunTo(s, m.secondsEnd + 1, m.fractionEnd);
    LineRunTo(s, m.fractionEnd + 1, m.end);
    MatchAtFromRuns(s, p, m);
  }

  /**
   * All matches from position `p` on, as `matches(in:options:range:)`
   * returns them: the search tries each position in turn and resumes after
   * the end of each match.
   */
  function MatchesFrom(s: string, p: nat): (ms: seq<TagMatch>)
    requires p <= |s|
    ensures forall k :: 0 <= k < |ms| ==> p <= ms[k].start && InOrder(s, ms[k])
    decreases |s| - p
  {
    if p == |s| then []
    else
      match MatchAt(s, p)
      case Some(m) => [m] + MatchesFrom(s, m.end)
      case None => MatchesFrom(s, p + 1)
  }

  /** Every match found is what `MatchAt` returns at its own start. */
  lemma {:induction false} MatchesFromFound(s: string, p: nat, k: nat)
    requires p <= |s| && k < |MatchesFrom(s, p)|
    ensures MatchAt(s, MatchesFrom(s, p)[k].start) == Some(MatchesFrom(s, p)[k])
    decreases |s| - p, 1
  {
    if p < |s| {
      if MatchAt(s, p).Some? {
        FoundAfterHit(s, p, k);
      } else {
        FoundAfterMiss(s, p, k);
      }
    }
  }

  /** `MatchesFromFound` when a match starts at `p`. */
  lemma {:induction false} FoundAfterHit(s: string, p: nat, k: nat)
    requires p < |s| && MatchAt(s, p).Some? && k < |MatchesFrom(s, p)|
    ensures MatchAt(s, MatchesFrom(s, p)[k].start) == Some(MatchesFrom(s, p)[k])
    decreases |s| - p, 0
  {
    var m := MatchAt(s, p).value;
    assert MatchesFrom(s, p) == [m] + MatchesFrom(s, m.end);
    if k > 0 {
      MatchesFromFound(s, m.end, k - 1);
      assert MatchesFrom(s, p)[k] == MatchesFrom(s, m.end)[k - 1];
    }
  }

  /** `MatchesFromFound` when no match starts at `p`. */
  lemma {:induction false} FoundAfterMiss(s: string, p: nat, k: nat)
    requires p < |s| && MatchAt(s, p).None? && k < |MatchesFrom(s, p)|
    ensures MatchAt(s, MatchesFrom(s, p)[k].start) == Some(MatchesFrom(s, p)[k])
    decreases |s| - p, 0
  {
    assert MatchesFrom(s, p) == MatchesFrom(s, p + 1);
    MatchesFromFound(s, p + 1, k);
  }

  /** Every match found is a match of the pattern at its own start. */
  lemma MatchesFromSound(s: string, p: nat, k: nat)
    requires p <= |s| && k < |MatchesFrom(s, p)|
    ensures TagAt(s, MatchesFrom(s, p)[k].start, MatchesFrom(s, p)[k])
  {
    MatchesFromFound(s, p, k);
    MatchAtSound(s, MatchesFrom(s, p)[k].start);
  }

  /** The matches do not overlap and come in document order. */
  lemma {:induction false} MatchesFromOrdered(s: string, p: nat, k: nat)
    requires p <= |s| && k + 1 < |MatchesFrom(s, p)|
    ensures MatchesFrom(s, p)[k].end <= MatchesFrom(s, p)[k + 1].start
    decreases |s| - p
  {
    if p < |s| {
      match MatchAt(s, p)
      case Some(m) =>
        assert MatchesFrom(s, p) == [m] + MatchesFrom(s, m.end);
        if k > 0 {
          MatchesFromOrdered(s, m.end, k - 1);
        }
      case None =>
        assert MatchesFrom(s, p) == MatchesFrom(s, p + 1);
        MatchesFromOrdered(s, p + 1, k);
    }
  }

  /** Whether position `q` lies inside match `m`. */
  predicate Covers(m: TagMatch, q: nat) {
    m.start <= q < m.end
  }

  /**
   * The scan skips no tag: a match of the pattern at or after `p` lies
   * inside some reported match.
   */
  lemma {:induction false} MatchesFromCovers(s: string, p: nat, q: nat, m: TagMatch)
    requires p <= q && TagAt(s, q, m)
    ensures exists k :: 0 <= k < |MatchesFrom(s, p)| && Covers(MatchesFrom(s, p)[k], q)
    decreases |s| - p
  {
    var ms := MatchesFrom(s, p);
    if p == q {
      MatchAtComplete(s, q, m);
      assert ms == [m] + MatchesFrom(s, m.end);
      assert Covers(ms[0], q);
    } else {
      match MatchAt(s, p)
      case Some(m1) =>
        var rest := MatchesFrom(s, m1.end);
        assert ms == [m1] + rest;
        if q < m1.end {
          assert Covers(ms[0], q);
        } else {
          MatchesFromCovers(s, m1.end, q, m);
          var k :| 0 <= k < |rest| && Covers(rest[k], q);
          assert ms[k + 1] == rest[k];
        }
      case None =>
        assert ms == MatchesFrom(s, p + 1);
        MatchesFromCovers(s, p + 1, q, m);
    }
  }

  /** No match of `ms` that starts before `q` runs over `q`. */
  predicate NoneRunsOver(ms: seq<TagMatch>, q: nat) {
    forall k :: 0 <= k < |ms| && ms[k].start < q ==> !Covers(ms[k], q)
  }

  /**
   * A match of the pattern that no earlier reported match runs over is
   * reported itself. A match inside an earlier one is not: the greedy
   * text of a tag swallows later tags on the same input line.
   */
  lemma {:induction false} MatchesFromComplete(s: string, p: nat, q: nat, m: TagMatch)
    requires p <= q && TagAt(s, q, m)
    requires NoneRunsOver(MatchesFrom(s, p), q)
    ensures m in MatchesFrom(s, p)
    decreases |s| - p, 1
  {
    if p == q {
      MatchAtComplete(s, q, m);
      assert MatchesFrom(s, p) == [m] + MatchesFrom(s, m.end);
    } else if MatchAt(s, p).Some? {
      CompleteAfterHit(s, p, q, m);
    } else {
      assert MatchesFrom(s, p) == MatchesFrom(s, p + 1);
      MatchesFromComplete(s, p + 1, q, m);
    }
  }

  /** `MatchesFromComplete` when a match starts before `q`, at `p`. */
  lemma {:induction false} CompleteAfterHit(s: string, p: nat, q: nat, m: TagMatch)
    requires p < q && TagAt(s, q, m) && MatchAt(s, p).Some?
    requires NoneRunsOver(MatchesFrom(s, p), q)
    ensures m in MatchesFrom(s, p)
    decreases |s| - p, 0
  {
    var m1 := MatchAt(s, p).value;
    MatchAtSound(s, p);
    var ms := MatchesFrom(s, p);
    var rest := MatchesFrom(s, m1.end);
    assert ms == [m1] + rest;
    assert ms[0] == m1;
    assert m1.end <= q;
    forall j | 0 <= j < |rest| && rest[j].start < q
      ensures !Covers(rest[j], q)
    {
      assert ms[j + 1] == rest[j];
    }
    MatchesFromComplete(s, m1.end, q, m);
  }

  /** The value of a digit (the groups hold nothing else). */
  function DigitValue(c: char): nat {
    if IsDigit(c) then c as int - '0' as int else 0
  }

  /** The value of the decimal digits in `[i, j)`, as `Double(_:)` reads them (exactly, in this model). */
  function NumberIn(s: string, i: nat, j: nat): nat
    requires i <= j <= |s|
    decreases j - i
  {
    if i == j then 0 else NumberIn(s, i, j - 1) * 10 + DigitValue(s[j - 1])
  }

  /** The delimiters of `m` stand in order inside `s`. */
  predicate InOrder(s: string, m: TagMatch) {
    m.start < m.minutesEnd < m.secondsEnd < m.fractionEnd < m.end <= |s|
  }

  /** `minutes * 60 + seconds + hundredths / 100`, in hundredths of a second. */
  function StartTime(s: string, m: TagMatch): nat
    requires InOrder(s, m)
  {
    NumberIn(s, m.start + 1, m.minutesEnd) * 6000
    + NumberIn(s, m.minutesEnd + 1, m.secondsEnd) * 100
    + NumberIn(s, m.secondsEnd + 1, m.fractionEnd)
  }

  /** The line one match yields; `id` is the fresh UUID drawn for it. */
  function LineOf(s: string, m: TagMatch, id: nat): LyricsLine
    requires InOrder(s, m)
  {
    LyricsLine(id, StartTime(s, m), Trim(TextOf(s, m), WhitespacesAndNewlines))
  }

  /** The matches' lines in match order, with ids drawn in turn from `firstId`. */
  function Collect(s: string, ms: seq<TagMatch>, firstId: nat): (lines: seq<LyricsLine>)
    requires forall k :: 0 <= k < |ms| ==> InOrder(s, ms[k])
    ensures |lines| == |ms|
    ensures forall k :: 0 <= k < |ms| ==> lines[k] == LineOf(s, ms[k], firstId + k)
  {
    if ms == [] then [] else Collect(s, ms[..|ms| - 1], firstId) + [LineOf(s, ms[|ms| - 1], firstId + |ms| - 1)]
  }

  /** Non-decreasing start times. */
  predicate SortedByStart(lines: seq<LyricsLine>) {
    forall i, j :: 0 <= i < j < |lines| ==> lines[i].startTime <= lines[j].startTime
  }

  /** Ordered by start time, and by id among lines that start together. */
  predicate SortedByStartThenId(lines: seq<LyricsLine>) {
    forall i, j :: 0 <= i < j < |lines| ==>
      lines[i].startTime < lines[j].startTime
      || (lines[i].startTime == lines[j].startTime && lines[i].id < lines[j].id)
  }

  /** Inserts `x` before the first line that does not start earlier. */
  function InsertByStart(x: LyricsLine, s: seq<LyricsLine>): (r: seq<LyricsLine>)
    ensures multiset(r) == multiset(s) + multiset{x}
    ensures |r| == |s| + 1
  {
    if s == [] || x.startTime <= s[0].startTime then [x] + s
    else
      assert s == [s[0]] + s[1..];
      [s[0]] + InsertByStart(x, s[1..])
  }

  /**
   * The `sorted { $0.startTime < $1.startTime }` step, as a stable
   * insertion sort: lines that start together keep their match order.
   */
  function SortByStart(s: seq<LyricsLine>): (r: seq<LyricsLine>)
    ensures multiset(r) == multiset(s)
  {
    if s == [] then []
    else
      assert s == [s[0]] + s[1..];
      InsertByStart(s[0], SortByStart(s[1..]))
  }

  /** Inserting adds `x` and nothing else. */
  lemma InsertMember(x: LyricsLine, s: seq<LyricsLine>, y: LyricsLine)
    requires y in InsertByStart(x, s)
    ensures y == x || y in s
  {
    assert y in multiset(InsertByStart(x, s));
  }

  /** A line no later than every line of a sorted list can head it. */
  lemma ConsSorted(a: LyricsLine, r: seq<LyricsLine>)
    requires SortedByStart(r)
    requires forall y | y in r :: a.startTime <= y.startTime
    ensures SortedByStart([a] + r)
  {
    forall i, j | 0 <= i < j < |[a] + r|
      ensures ([a] + r)[i].startTime <= ([a] + r)[j].startTime
    {
      if i > 0 {
        assert ([a] + r)[i] == r[i - 1];
      }
      assert ([a] + r)[j] == r[j - 1];
    }
  }

  lemma {:induction false} InsertSorted(x: LyricsLine, s: seq<LyricsLine>)
    requires SortedByStart(s)
    ensures SortedByStart(InsertByStart(x, s))
  {
    if s != [] && x.startTime > s[0].startTime {
      InsertSorted(x, s[1..]);
      var r := InsertByStart(x, s[1..]);
      forall y | y in r
        ensures s[0].startTime <= y.startTime
      {
        InsertMember(x, s[1..], y);
        if y != x {
          var j :| 1 <= j < |s| && s[j] == y;
        }
      }
      ConsSorted(s[0], r);
    }
  }

  /** The sort's output is ordered by start time. */
  lemma {:induction false} SortByStartSorted(s: seq<LyricsLine>)
    ensures SortedByStart(SortByStart(s))
  {
    if s != [] {
      SortByStartSorted(s[1..]);
      InsertSorted(s[0], SortByStart(s[1..]));
    }
  }

  /** A line earlier than, or tied with and older than, every line of a list ordered that way can head it. */
  lemma ConsStable(a: LyricsLine, r: seq<LyricsLine>)
    requires SortedByStartThenId(r)
    requires forall y | y in r :: a.startTime < y.startTime || (a.startTime == y.startTime && a.id < y.id)
    ensures SortedByStartThenId([a] + r)
  {
    forall i, j | 0 <= i < j < |[a] + r|
      ensures ([a] + r)[i].startTime < ([a] + r)[j].startTime
        || (([a] + r)[i].startTime == ([a] + r)[j].startTime && ([a] + r)[i].id < ([a] + r)[j].id)
    {
      if i > 0 {
        assert ([a] + r)[i] == r[i - 1];
      }
      assert ([a] + r)[j] == r[j - 1];
    }
  }

  lemma {:induction false} InsertStable(x: LyricsLine, s: seq<LyricsLine>)
    requires SortedByStartThenId(s)
    requires forall y | y in s :: x.id < y.id
    ensures SortedByStartThenId(InsertByStart(x, s))
  {
    if s != [] && x.startTime > s[0].startTime {
      InsertStable(x, s[1..]);
      var r := InsertByStart(x, s[1..]);
      forall y | y in r
        ensures s[0].startTime < y.startTime || (s[0].startTime == y.startTime && s[0].id < y.id)
      {
        InsertMember(x, s[1..], y);
        if y != x {
          var j :| 1 <= j < |s| && s[j] == y;
        }
      }
      ConsStable(s[0], r);
    } else {
      ConsStable(x, s);
    }
  }

  /** Ids strictly increase along the list (the lines were built in this order). */
  predicate IdsIncreasing(s: seq<LyricsLine>) {
    forall i, j :: 0 <= i < j < |s| ==> s[i].id < s[j].id
  }

  /**
   * Stability: when the ids record the order in which the lines were built,
   * lines that start together come out in that order.
   */
  lemma {:induction false} SortByStartStable(s: seq<LyricsLine>)
    requires IdsIncreasing(s)
    ensures SortedByStartThenId(SortByStart(s))
  {
    if s != [] {
      SortByStartStable(s[1..]);
      var r := SortByStart(s[1..]);
      forall y | y in r
        ensures s[0].id < y.id
      {
        assert y in multiset(r);
        var j :| 1 <= j < |s| && s[j] == y;
      }
      InsertStable(s[0], r);
    }
  }

  lemma {:induction false} InsertDistinct(x: LyricsLine, s: seq<LyricsLine>)
    requires DistinctIds(s)
    requires forall y | y in s :: x.id != y.id
    ensures DistinctIds(InsertByStart(x, s))
  {
    if s != [] && x.startTime > s[0].startTime {
      InsertDistinct(x, s[1..]);
      var r := InsertByStart(x, s[1..]);
      forall y | y in r
        ensures s[0].id != y.id
      {
        InsertMember(x, s[1..], y);
        if y != x {
          var j :| 1 <= j < |s| && s[j] == y;
        }
      }
      ConsDistinct(s[0], r);
    } else {
      ConsDistinct(x, s);
    }
  }

  /** A line whose id no line of a list holds can head it. */
  lemma ConsDistinct(a: LyricsLine, r: seq<LyricsLine>)
    requires DistinctIds(r)
    requires forall y | y in r :: a.id != y.id
    ensures DistinctIds([a] + r)
  {
    forall i, j | 0 <= i < j < |[a] + r|
      ensures ([a] + r)[i].id != ([a] + r)[j].id
    {
      if i > 0 {
        assert ([a] + r)[i] == r[i - 1];
      }
      assert ([a] + r)[j] == r[j - 1];
    }
  }

  /** Sorting neither merges nor duplicates ids. */
  lemma {:induction false} SortByStartDistinct(s: seq<LyricsLine>)
    requires DistinctIds(s)
    ensures DistinctIds(SortByStart(s))
  {
    if s != [] {
      SortByStartDistinct(s[1..]);
      var r := SortByStart(s[1..]);
      forall y | y in r
        ensures s[0].id != y.id
      {
        assert y in multiset(r);
        var j :| 1 <= j < |s| && s[j] == y;
      }
      InsertDistinct(s[0], r);
    }
  }

  /** What `parse` returns for a document, with ids drawn from `firstId`. */
  function ParsedLines(lrcContent: string, firstId: nat): seq<LyricsLine> {
    SortByStart(Collect(lrcContent, MatchesFrom(lrcContent, 0), firstId))
  }

  /** Extending the matches by one extends the collected lines by that match's line. */
  lemma CollectSnoc(s: string, ms: seq<TagMatch>, firstId: nat, i: nat)
    requires i < |ms| && forall k :: 0 <= k < |ms| ==> InOrder(s, ms[k])
    ensures Collect(s, ms[..i + 1], firstId) == Collect(s, ms[..i], firstId) + [LineOf(s, ms[i], firstId + i)]
  {
    assert ms[..i + 1][..i] == ms[..i];
  }

  /** The parsed lines are sorted, are the collected lines rearranged, one per match, and hold no id twice. */
  lemma ParsedLinesFacts(lrcContent: string, firstId: nat)
    ensures var lines := ParsedLines(lrcContent, firstId);
      var collected := Collect(lrcContent, MatchesFrom(lrcContent, 0), firstId);
      && SortedByStart(lines)
      && multiset(lines) == multiset(collected)
      && |lines| == |MatchesFrom(lrcContent, 0)|
      && DistinctIds(lines)
  {
    var collected := Collect(lrcContent, MatchesFrom(lrcContent, 0), firstId);
    var lines := SortByStart(collected);
    SortByStartSorted(collected);
    SortByStartDistinct(collected);
    assert |lines| == |collected| by {
      assert |multiset(lines)| == |multiset(collected)|;
    }
  }

  /**
   * `LRCParser.parse`: one line per match, appended in match order, then
   * sorted by start time. The result is ordered, is a permutation of the
   * collected lines, and holds no id twice.
   */
  method Parse(lrcContent: string, firstId: nat) returns (lines: seq<LyricsLine>)
    ensures lines == ParsedLines(lrcContent, firstId)
    ensures SortedByStart(lines)
    ensures multiset(lines) == multiset(Collect(lrcContent, MatchesFrom(lrcContent, 0), firstId))
    ensures |lines| == |MatchesFrom(lrcContent, 0)|
    ensures DistinctIds(lines)
  {
    var results := MatchesFrom(lrcContent, 0);
    var collected: seq<LyricsLine> := [];
    for i := 0 to |results|
      invariant collected == Collect(lrcContent, results[..i], firstId)
    {
      var m := results[i];
      var text := Trim(lrcContent[m.fractionEnd + 1..m.end], WhitespacesAndNewlines);
      CollectSnoc(lrcContent, results, firstId, i);
      collected := collected + [LyricsLine(firstId + i, StartTime(lrcContent, m), text)];
    }
    assert results[..|results|] == results;
    lines := SortByStart(collected);
    ParsedLinesFacts(lrcContent, firstId);
  }

  /** Every parsed line is the line of one match, its id telling which. */
  lemma ParsedLineOrigin(lrcContent: string, firstId: nat, line: LyricsLine)
    requires line in ParsedLines(lrcContent, firstId)
    ensures var ms := MatchesFrom(lrcContent, 0);
      firstId <= line.id < firstId + |ms| && line == LineOf(lrcContent, ms[line.id - firstId], line.id)
  {
    var ms := MatchesFrom(lrcContent, 0);
    SortedElement(Collect(lrcContent, ms, firstId), line);
    CollectedOrigin(lrcContent, ms, firstId, line);
  }

  /** A collected line is the line of the match its id names. */
  lemma CollectedOrigin(s: string, ms: seq<TagMatch>, firstId: nat, line: LyricsLine)
    requires forall k :: 0 <= k < |ms| ==> InOrder(s, ms[k])
    requires line in Collect(s, ms, firstId)
    ensures firstId <= line.id < firstId + |ms| && line == LineOf(s, ms[line.id - firstId], line.id)
  {
    var collected := Collect(s, ms, firstId);
    var k :| 0 <= k < |collected| && collected[k] == line;
    assert line.id - firstId == k;
  }

  /** Sorting adds no element. */
  lemma SortedElement(s: seq<LyricsLine>, x: LyricsLine)
    requires x in SortByStart(s)
    ensures x in s
  {
    assert x in multiset(SortByStart(s));
  }

  /** The parsed lines are ordered by start time, and lines that start together keep document order. */
  lemma ParsedLinesOrdered(lrcContent: string, firstId: nat)
    ensures SortedByStartThenId(ParsedLines(lrcContent, firstId))
  {
    SortByStartStable(Collect(lrcContent, MatchesFrom(lrcContent, 0), firstId));
  }

  /** Text between matches never produces a line: a document in which no `[` is followed by a digit has no lines. */
  lemma {:induction false} NoNumericTagNoMatch(s: string, p: nat)
    requires p <= |s|
    requires forall i :: 0 <= i < |s| - 1 && s[i] == '[' ==> !IsDigit(s[i + 1])
    ensures MatchesFrom(s, p) == []
    decreases |s| - p
  {
    if p < |s| {
      NoNumericTagNoMatch(s, p + 1);
    }
  }

  /**
   * The greedy `(.*)` swallows the rest of the input line: an input line
   * that starts with a tag yields exactly one match, whose text is
   * everything after the first tag, later tags included.
   */
  lemma OneMatchPerInputLine(s: string)
    requires NoNewlineIn(s, 0, |s|)
    requires MatchAt(s, 0).Some?
    ensures MatchesFrom(s, 0) == [MatchAt(s, 0).value]
    ensures TextOf(s, MatchAt(s, 0).value) == s[MatchAt(s, 0).value.fractionEnd + 1..]
  {
    var m := MatchAt(s, 0).value;
    LineRunTo(s, m.fractionEnd + 1, |s|);
    assert m.end == |s|;
  }

  /** `[00:01.500]`: the fraction is divided by 100 whatever its length, giving 6 seconds. */
  lemma LongFractionExample()
    ensures TagAt("[00:01.500]", 0, TagMatch(0, 3, 6, 10, 11))
    ensures StartTime("[00:01.500]", TagMatch(0, 3, 6, 10, 11)) == 600
  {
  }
}
