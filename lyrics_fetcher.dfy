/**
 * The non-network half of `LyricsFetcher.fetchLyrics`
 * (AuraLyrics/Services/LyricsFetcher.swift): the query it sends to
 * lrclib.net, and how it turns the response into lyric lines or a
 * `LyricsError`. The transport and the JSON decoder are inputs: the model
 * receives what `URLSession` returned and what `JSONDecoder` made of the body.
 */
module Fetcher {
  import opened Wrappers
  import opened Text
  import opened LyricsModels
  import LRCParser

  /** `LyricsError`. */
  datatype LyricsError = InvalidURL | NoData | DecodeError | NotFound

  /**
   * What `fetchLyrics` throws: one of its own errors, or the error that
   * `URLSession` threw and `fetchLyrics` lets through.
   */
  datatype FetchError = Lyrics(error: LyricsError) | Transport

  /**
   * What the transport delivered: nothing (it threw), a response that is
   * not an HTTP response, or an HTTP response with its status code and its
   * body as the decoder reads it (`None` when decoding throws).
   */
  datatype Response = TransportFailure | NonHttp | Http(statusCode: int, body: Option<LRCLibResponse>)

  // ---------------------------------------------------------------- query

  /** `Int(duration)`: the conversion drops the fraction, rounding toward zero. */
  function TruncateToInt(d: real): (n: int)
    ensures 0.0 <= d ==> 0 <= n && n as real <= d < n as real + 1.0
    ensures d < 0.0 ==> n <= 0 && n as real - 1.0 < d <= n as real
  {
    if d >= 0.0 then d.Floor else -((-d).Floor)
  }

  /** The digit for a value below ten. */
  function DigitChar(d: nat): char
    requires d < 10
  {
    ('0' as int + d) as char
  }

  /** The decimal numeral of `n`, without leading zeros. */
  function NatToString(n: nat): (s: string)
    ensures |s| >= 1
    ensures forall i :: 0 <= i < |s| ==> LRCParser.IsDigit(s[i])
    ensures s[0] == '0' ==> n == 0
  {
    if n < 10 then [DigitChar(n)] else NatToString(n / 10) + [DigitChar(n % 10)]
  }

  /** `String(n)` for an `Int`: a minus sign before the numeral of a negative number. */
  function IntToString(n: int): string {
    if n < 0 then "-" + NatToString(-n) else NatToString(n)
  }

  /** Reading the digits in `[0, j)` looks at nothing else. */
  lemma {:induction false} NumberInPrefix(s: string, t: string, j: nat)
    requires j <= |s| && j <= |t| && s[..j] == t[..j]
    ensures LRCParser.NumberIn(s, 0, j) == LRCParser.NumberIn(t, 0, j)
  {
    if j > 0 {
      assert s[..j - 1] == s[..j][..j - 1] && t[..j - 1] == t[..j][..j - 1];
      assert s[j - 1] == s[..j][j - 1] && t[j - 1] == t[..j][j - 1];
      NumberInPrefix(s, t, j - 1);
    }
  }

  /** The numeral reads back as the number it was written from. */
  lemma {:induction false} NatToStringReadsBack(n: nat)
    ensures LRCParser.NumberIn(NatToString(n), 0, |NatToString(n)|) == n
  {
    var s := NatToString(n);
    if n >= 10 {
      var head := NatToString(n / 10);
      NatToStringReadsBack(n / 10);
      assert s[..|head|] == head[..|head|];
      NumberInPrefix(s, head, |head|);
    }
  }

  /** A query item: a name and its value, before percent-encoding. */
  datatype QueryItem = QueryItem(name: string, value: string)

  /** The query of the lrclib.net `get` request. */
  function QueryItems(track: string, artist: string, album: string, duration: real): (q: seq<QueryItem>)
    ensures |q| == 4
    ensures q[0] == QueryItem("track_name", track)
    ensures q[1] == QueryItem("artist_name", artist)
    ensures q[2] == QueryItem("album_name", album)
    ensures q[3].name == "duration"
  {
    [QueryItem("track_name", track), QueryItem("artist_name", artist), QueryItem("album_name", album),
     QueryItem("duration", IntToString(TruncateToInt(duration)))]
  }

  /**
   * The duration goes out as whole seconds: for a non-negative duration the
   * value is a numeral that reads back as the duration with its fraction
   * dropped.
   */
  lemma QueryDurationWholeSeconds(track: string, artist: string, album: string, duration: real)
    requires duration >= 0.0
    ensures var v := QueryItems(track, artist, album, duration)[3].value;
      && (forall i :: 0 <= i < |v| ==> LRCParser.IsDigit(v[i]))
      && var n := LRCParser.NumberIn(v, 0, |v|);
      n as real <= duration < n as real + 1.0
  {
    NatToStringReadsBack(TruncateToInt(duration));
  }

  /** `212.9` seconds is sent as `212`. */
  lemma QueryDurationExample()
    ensures QueryItems("t", "a", "b", 212.9)[3].value == "212"
  {
    assert TruncateToInt(212.9) == 212;
  }

  // ---------------------------------------------------------- plain lyrics

  /** `.map { $0.trimmingCharacters(in: .whitespaces) }`. */
  function TrimAll(parts: seq<string>): (r: seq<string>)
    ensures |r| == |parts|
  {
    if parts == [] then [] else [Trim(parts[0], Whitespaces)] + TrimAll(parts[1..])
  }

  /** Each piece is trimmed on its own. */
  lemma {:induction false} TrimAllAt(parts: seq<string>, k: nat)
    requires k < |parts|
    ensures TrimAll(parts)[k] == Trim(parts[k], Whitespaces)
  {
    if k > 0 {
      TrimAllAt(parts[1..], k - 1);
    }
  }

  /** `.filter { !$0.isEmpty }`. */
  function NonEmpty(parts: seq<string>): (r: seq<string>)
    ensures |r| <= |parts|
    ensures forall k :: 0 <= k < |r| ==> r[k] != [] && r[k] in parts
  {
    if parts == [] then []
    else if parts[0] == [] then NonEmpty(parts[1..])
    else [parts[0]] + NonEmpty(parts[1..])
  }

  /** The filter keeps every non-empty part: it drops exactly the empty ones. */
  lemma {:induction false} NonEmptyKeeps(parts: seq<string>, x: string)
    requires x in parts && x != []
    ensures x in NonEmpty(parts)
  {
    if parts[0] != x {
      NonEmptyKeeps(parts[1..], x);
    }
  }

  /** The filter keeps the order: filtering a concatenation concatenates the filtered halves. */
  lemma {:induction false} NonEmptyAppend(a: seq<string>, b: seq<string>)
    ensures NonEmpty(a + b) == NonEmpty(a) + NonEmpty(b)
  {
    if a != [] {
      assert (a + b)[1..] == a[1..] + b;
      NonEmptyAppend(a[1..], b);
    } else {
      assert a + b == b;
    }
  }

  /** `.map { LyricsLine(startTime: 0, text: $0) }`: untimed lines with fresh ids. */
  function Untimed(texts: seq<string>, firstId: nat): (lines: seq<LyricsLine>)
    ensures |lines| == |texts|
    ensures forall k :: 0 <= k < |lines| ==> lines[k] == LyricsLine(firstId + k, 0, texts[k])
  {
    if texts == [] then [] else [LyricsLine(firstId, 0, texts[0])] + Untimed(texts[1..], firstId + 1)
  }

  /** The plain-lyrics pipeline: split at line terminators, trim blanks, drop empty lines, number the rest. */
  function PlainLines(plain: string, firstId: nat): seq<LyricsLine> {
    Untimed(PlainTexts(plain), firstId)
  }

  /** The texts of the plain lines: split at line terminators, trimmed, blanks dropped. */
  function PlainTexts(plain: string): seq<string> {
    NonEmpty(TrimAll(SplitWhere(plain, Newlines)))
  }

  /**
   * Every plain line starts at 0, carries a fresh id drawn in order, holds
   * a non-empty text with no line terminator and no blank at either end,
   * and there are no more lines than input lines.
   */
  lemma PlainLinesShape(plain: string, firstId: nat)
    ensures var lines := PlainLines(plain, firstId);
      && |lines| <= 1 + CountIn(plain, Newlines)
      && IdsFrom(lines, firstId) && DistinctIds(lines)
      && forall k :: 0 <= k < |lines| ==>
        && lines[k].startTime == 0
        && lines[k].text != []
        && NoneIn(lines[k].text, Newlines)
        && !IsWhitespace(lines[k].text[0]) && !IsWhitespace(lines[k].text[|lines[k].text| - 1])
  {
    var parts := SplitWhere(plain, Newlines);
    SplitWhereSpec(plain, Newlines);
    var trimmed := TrimAll(parts);
    var kept := NonEmpty(trimmed);
    var lines := PlainLines(plain, firstId);
    forall k | 0 <= k < |lines|
      ensures NoneIn(lines[k].text, Newlines)
      ensures !IsWhitespace(lines[k].text[0]) && !IsWhitespace(lines[k].text[|lines[k].text| - 1])
    {
      var j :| 0 <= j < |trimmed| && trimmed[j] == kept[k];
      TrimAllAt(parts, j);
      TrimSpec(parts[j], Whitespaces);
      TrimInside(parts[j], Whitespaces);
    }
    IdsFromDistinct(lines, firstId);
  }

  /** Trimming only removes characters: what is left has no line terminator if the input had none. */
  lemma TrimInside(s: string, p: CharacterSet)
    requires NoneIn(s, Newlines)
    ensures NoneIn(Trim(s, p), Newlines)
  {
    TrimSpec(s, p);
    var r := Trim(s, p);
    var a: nat :| a + |r| <= |s| && r == s[a..a + |r|]
      && AllIn(s[..a], p) && AllIn(s[a + |r|..], p)
      && (r != [] ==> !In(r[0], p) && !In(r[|r| - 1], p));
    forall i | 0 <= i < |r|
      ensures !In(r[i], Newlines)
    {
      assert r[i] == s[a + i];
    }
  }

  /** A single input line with something on it gives exactly one line: its trimmed text. */
  lemma PlainSingleLine(plain: string, firstId: nat)
    requires NoneIn(plain, Newlines) && Trim(plain, Whitespaces) != []
    ensures PlainLines(plain, firstId) == [LyricsLine(firstId, 0, Trim(plain, Whitespaces))]
  {
    SplitWhereNone(plain, Newlines);
  }

  /** Text without a separator splits into itself alone. */
  lemma {:induction false} SplitWhereNone(s: string, p: CharacterSet)
    requires NoneIn(s, p)
    ensures SplitWhere(s, p) == [s]
  {
    if s != [] {
      assert NoneIn(s[1..], p) by {
        forall i | 0 <= i < |s[1..]|
          ensures !In(s[1..][i], p)
        {
          assert s[1..][i] == s[i + 1];
        }
      }
      SplitWhereNone(s[1..], p);
      assert [s[0]] + s[1..] == s;
    }
  }

  /**
   * Input lines contribute in their order: the lines of two pieces of text
   * joined by a line feed are the lines of the first followed by the lines
   * of the second, the second numbered on from the first.
   */
  lemma PlainLinesConcat(a: string, b: string, firstId: nat)
    ensures PlainLines(a + "\n" + b, firstId)
      == PlainLines(a, firstId) + PlainLines(b, firstId + |PlainLines(a, firstId)|)
  {
    var ta, tb := PlainTexts(a), PlainTexts(b);
    calc {
      PlainLines(a + "\n" + b, firstId);
      == { PlainTextsConcat(a, b); }
      Untimed(ta + tb, firstId);
      == { UntimedAppend(ta, tb, firstId); }
      Untimed(ta, firstId) + Untimed(tb, firstId + |ta|);
      == { assert |PlainLines(a, firstId)| == |ta|; }
      PlainLines(a, firstId) + PlainLines(b, firstId + |PlainLines(a, firstId)|);
    }
  }

  /** The texts of two pieces joined by a line feed are those of each piece in turn. */
  lemma PlainTextsConcat(a: string, b: string)
    ensures PlainTexts(a + "\n" + b) == PlainTexts(a) + PlainTexts(b)
  {
    assert a + "\n" + b == a + ['\n'] + b;
    var pa := SplitWhere(a, Newlines);
    var pb := SplitWhere(b, Newlines);
    SplitWhereConcat(a, b, Newlines, '\n');
    TrimAllAppend(pa, pb);
    NonEmptyAppend(TrimAll(pa), TrimAll(pb));
  }

  /** Trimming a concatenation trims each half. */
  lemma {:induction false} TrimAllAppend(a: seq<string>, b: seq<string>)
    ensures TrimAll(a + b) == TrimAll(a) + TrimAll(b)
  {
    if a == [] {
      assert a + b == b;
    } else {
      assert (a + b)[0] == a[0] && (a + b)[1..] == a[1..] + b;
      TrimAllAppend(a[1..], b);
    }
  }

  /** Numbering a concatenation numbers the second half on from the first. */
  lemma UntimedAppend(a: seq<string>, b: seq<string>, firstId: nat)
    ensures Untimed(a + b, firstId) == Untimed(a, firstId) + Untimed(b, firstId + |a|)
  {
    assert forall k | 0 <= k < |a + b| :: (a + b)[k] == if k < |a| then a[k] else b[k - |a|];
  }

  /** Splitting at a separator character splits the two sides apart. */
  lemma {:induction false} SplitWhereConcat(a: string, b: string, p: CharacterSet, c: char)
    requires In(c, p)
    ensures SplitWhere(a + [c] + b, p) == SplitWhere(a, p) + SplitWhere(b, p)
    decreases |a|, 1
  {
    if a == [] {
      assert a + [c] + b == [c] + b && ([c] + b)[1..] == b;
    } else {
      SplitWhereConcatCons(a, b, p, c);
    }
  }

  /** `SplitWhereConcat` when the left side is not empty. */
  lemma {:induction false} SplitWhereConcatCons(a: string, b: string, p: CharacterSet, c: char)
    requires In(c, p) && a != []
    ensures SplitWhere(a + [c] + b, p) == SplitWhere(a, p) + SplitWhere(b, p)
    decreases |a|, 0
  {
    var t := a[1..] + [c] + b;
    assert a + [c] + b == [a[0]] + t;
    assert a == [a[0]] + a[1..];
    SplitWhereConcat(a[1..], b, p, c);
    SplitWhereStep(a[0], a[1..], t, SplitWhere(b, p), p);
  }

  /** Putting one character in front of two texts whose splits are related keeps them related. */
  lemma SplitWhereStep(x: char, u: string, t: string, rb: seq<string>, p: CharacterSet)
    requires SplitWhere(t, p) == SplitWhere(u, p) + rb
    ensures SplitWhere([x] + t, p) == SplitWhere([x] + u, p) + rb
  {
    SplitWhereCons(x, t, p);
    SplitWhereCons(x, u, p);
    if In(x, p) {
      AppendAssoc([""], SplitWhere(u, p), rb);
    } else {
      HeadJoin([x], SplitWhere(u, p), rb);
    }
  }

  /** Concatenation of sequences of pieces is associative. */
  lemma AppendAssoc(a: seq<string>, b: seq<string>, c: seq<string>)
    ensures a + (b + c) == (a + b) + c
  {
  }

  /** Extending the first piece of `r + rb` extends the first piece of `r`. */
  lemma HeadJoin(x: string, r: seq<string>, rb: seq<string>)
    requires |r| >= 1
    ensures [x + (r + rb)[0]] + (r + rb)[1..] == ([x + r[0]] + r[1..]) + rb
  {
    assert (r + rb)[0] == r[0];
    assert (r + rb)[1..] == r[1..] + rb;
  }

  /** One step of the split: a separator opens a new piece, any other character joins the first one. */
  lemma SplitWhereCons(x: char, t: string, p: CharacterSet)
    ensures SplitWhere([x] + t, p)
      == if In(x, p) then [""] + SplitWhere(t, p) else [[x] + SplitWhere(t, p)[0]] + SplitWhere(t, p)[1..]
  {
    assert ([x] + t)[1..] == t;
  }

  // ------------------------------------------------------------- response

  /** `fetchLyrics` after the request has been sent. */
  function FetchLyrics(response: Response, firstId: nat): (r: Result<seq<LyricsLine>, FetchError>)
    ensures r.Err? && r.error.Lyrics? ==> r.error.error != InvalidURL
  {
    match response
    case TransportFailure => Err(Transport)
    case NonHttp => Err(Lyrics(NoData))
    case Http(statusCode, body) =>
      if statusCode == 404 then Err(Lyrics(NotFound))
      else if statusCode != 200 then Err(Lyrics(NoData))
      else
        match body
        case None => Err(Lyrics(DecodeError))
        case Some(lib) =>
          if lib.syncedLyrics.Some? then Ok(LRCParser.ParsedLines(lib.syncedLyrics.value, firstId))
          else if lib.plainLyrics.Some? then Ok(PlainLines(lib.plainLyrics.value, firstId))
          else Ok([])
  }

  /** 404 Not Found (section 15.5.5 of RFC 9110), and only it, gives `notFound`. */
  lemma NotFoundIff(response: Response, firstId: nat)
    ensures FetchLyrics(response, firstId) == Err(Lyrics(NotFound))
      <==> response.Http? && response.statusCode == 404
  {
  }

  /** A response that is not HTTP, or any status but 200 OK and 404, gives `noData`. */
  lemma NoDataIff(response: Response, firstId: nat)
    ensures FetchLyrics(response, firstId) == Err(Lyrics(NoData))
      <==> response.NonHttp? || (response.Http? && response.statusCode != 200 && response.statusCode != 404)
  {
  }

  /** A 200 OK whose body does not decode, and only that, gives `decodeError`. */
  lemma DecodeErrorIff(response: Response, firstId: nat)
    ensures FetchLyrics(response, firstId) == Err(Lyrics(DecodeError))
      <==> response.Http? && response.statusCode == 200 && response.body.None?
  {
  }

  /** Lines come back exactly when the status is 200 OK and the body decodes. */
  lemma OkIff(response: Response, firstId: nat)
    ensures FetchLyrics(response, firstId).Ok?
      <==> response.Http? && response.statusCode == 200 && response.body.Some?
  {
  }

  /**
   * Synced lyrics win: when present they are parsed, whatever the plain
   * lyrics hold, and the lines come back ordered by start time.
   */
  lemma SyncedLyricsWin(lib: LRCLibResponse, firstId: nat)
    requires lib.syncedLyrics.Some?
    ensures var r := FetchLyrics(Http(200, Some(lib)), firstId);
      && r == Ok(LRCParser.ParsedLines(lib.syncedLyrics.value, firstId))
      && r == FetchLyrics(Http(200, Some(lib.(plainLyrics := None))), firstId)
      && LRCParser.SortedByStart(r.value) && DistinctIds(r.value)
  {
    LRCParser.ParsedLinesFacts(lib.syncedLyrics.value, firstId);
  }

  /** Without synced lyrics the plain lyrics are used, one untimed line per non-blank input line. */
  lemma PlainLyricsUsed(lib: LRCLibResponse, firstId: nat)
    requires lib.syncedLyrics.None? && lib.plainLyrics.Some?
    ensures var r := FetchLyrics(Http(200, Some(lib)), firstId);
      && r == Ok(PlainLines(lib.plainLyrics.value, firstId))
      && forall k :: 0 <= k < |r.value| ==> r.value[k].startTime == 0 && r.value[k].text != []
  {
    PlainLinesShape(lib.plainLyrics.value, firstId);
  }

  /**
   * The lines of a successful fetch carry distinct ids drawn from
   * `firstId` on, one per line: a fetch numbered from an unused id
   * installs only ids never handed out before.
   */
  lemma FetchedIdsFresh(response: Response, firstId: nat)
    ensures var r := FetchLyrics(response, firstId);
      r.Ok? ==>
        && DistinctIds(r.value)
        && forall j :: 0 <= j < |r.value| ==> firstId <= r.value[j].id < firstId + |r.value|
  {
    var r := FetchLyrics(response, firstId);
    if r.Ok? && response.body.value.syncedLyrics.Some? {
      var doc := response.body.value.syncedLyrics.value;
      LRCParser.ParsedLinesFacts(doc, firstId);
      forall j | 0 <= j < |r.value|
        ensures firstId <= r.value[j].id < firstId + |r.value|
      {
        LRCParser.ParsedLineOrigin(doc, firstId, r.value[j]);
      }
    } else if r.Ok? && response.body.value.plainLyrics.Some? {
      IdsFromDistinct(r.value, firstId);
    }
  }

  /** A body with neither lyrics field is not an error: it gives no lines. */
  lemma NoLyricsIsEmpty(lib: LRCLibResponse, firstId: nat)
    requires lib.syncedLyrics.None? && lib.plainLyrics.None?
    ensures FetchLyrics(Http(200, Some(lib)), firstId) == Ok([])
  {
  }
}
