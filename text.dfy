/**
 * Character classes and string operations of Foundation that the core relies
 * on: `CharacterSet.whitespaces`, `.newlines`, `.whitespacesAndNewlines`,
 * `trimmingCharacters(in:)`, `components(separatedBy:)` (both the
 * character-set and the string form), `replacingOccurrences(of:with:)` for a
 * single character and `starts(with:)`. Characters are Unicode scalars.
 */
module Text {

  /** `CharacterSet.whitespaces`: general category Zs and the tab. */
  predicate IsWhitespace(c: char) {
    c == '\t' || c == ' ' || c == '\U{00A0}' || c == '\U{1680}'
    || ('\U{2000}' <= c <= '\U{200A}') || c == '\U{202F}' || c == '\U{205F}' || c == '\U{3000}'
  }

  /**
   * `CharacterSet.newlines`: U+000A to U+000D, U+0085, U+2028 and U+2029.
   * These are also exactly the line terminators that ICU's `.` refuses to
   * match in a regular expression without the dot-all option.
   */
  predicate IsNewline(c: char) {
    ('\n' <= c <= '\r') || c == '\U{0085}' || c == '\U{2028}' || c == '\U{2029}'
  }

  /** The Foundation character sets the core uses. */
  datatype CharacterSet = Whitespaces | Newlines | WhitespacesAndNewlines

  /** Membership in a character set; `.whitespacesAndNewlines` is the union of the other two. */
  predicate In(c: char, set_: CharacterSet) {
    match set_
    case Whitespaces => IsWhitespace(c)
    case Newlines => IsNewline(c)
    case WhitespacesAndNewlines => IsWhitespace(c) || IsNewline(c)
  }

  /** No character of `s` belongs to the set `p`. */
  predicate NoneIn(s: string, p: CharacterSet) {
    forall i :: 0 <= i < |s| ==> !In(s[i], p)
  }

  /** Every character of `s` belongs to the set `p`. */
  predicate AllIn(s: string, p: CharacterSet) {
    forall i :: 0 <= i < |s| ==> In(s[i], p)
  }

  /** Drops the leading characters that belong to `p`. */
  function TrimStart(s: string, p: CharacterSet): string {
    if s != [] && In(s[0], p) then TrimStart(s[1..], p) else s
  }

  /** Drops the trailing characters that belong to `p`. */
  function TrimEnd(s: string, p: CharacterSet): string {
    if s != [] && In(s[|s| - 1], p) then TrimEnd(s[..|s| - 1], p) else s
  }

  /** `TrimStart` keeps a suffix, and drops only characters of the set, up to one outside it. */
  lemma {:induction false} TrimStartSpec(s: string, p: CharacterSet)
    ensures var r := TrimStart(s, p);
      |r| <= |s| && r == s[|s| - |r|..] && AllIn(s[..|s| - |r|], p) && (r != [] ==> !In(r[0], p))
  {
    if s != [] && In(s[0], p) {
      TrimStartSpec(s[1..], p);
      var r := TrimStart(s[1..], p);
      assert s[..|s| - |r|] == [s[0]] + s[1..][..|s| - 1 - |r|];
    }
  }

  /** `TrimEnd` keeps a prefix, and drops only characters of the set, back to one outside it. */
  lemma {:induction false} TrimEndSpec(s: string, p: CharacterSet)
    ensures var r := TrimEnd(s, p);
      |r| <= |s| && r == s[..|r|] && AllIn(s[|r|..], p) && (r != [] ==> !In(r[|r| - 1], p))
  {
    if s != [] && In(s[|s| - 1], p) {
      TrimEndSpec(s[..|s| - 1], p);
      var r := TrimEnd(s[..|s| - 1], p);
      assert s[|r|..] == s[..|s| - 1][|r|..] + [s[|s| - 1]];
    }
  }

  /**
   * `trimmingCharacters(in:)`: the infix of `s` left once every leading and
   * trailing character of the set is removed.
   */
  function Trim(s: string, p: CharacterSet): string {
    TrimEnd(TrimStart(s, p), p)
  }

  /** What `Trim` removes is all in the set, and what it keeps neither starts nor ends with one. */
  lemma TrimSpec(s: string, p: CharacterSet)
    ensures var r := Trim(s, p);
      exists a: nat :: a + |r| <= |s| && r == s[a..a + |r|]
        && AllIn(s[..a], p) && AllIn(s[a + |r|..], p)
        && (r != [] ==> !In(r[0], p) && !In(r[|r| - 1], p))
  {
    var t := TrimStart(s, p);
    TrimStartSpec(s, p);
    var r := TrimEnd(t, p);
    TrimEndSpec(t, p);
    var a := |s| - |t|;
    assert s[a..] == t;
    assert r == t[..|r|] == s[a..a + |r|];
    assert s[a + |r|..] == t[|r|..];
    assert AllIn(s[..a], p);
    assert AllIn(s[a + |r|..], p);
    assert r != [] ==> !In(r[0], p) && !In(r[|r| - 1], p);
  }

  /** Trimming twice removes nothing more. */
  lemma TrimIdempotent(s: string, p: CharacterSet)
    ensures Trim(Trim(s, p), p) == Trim(s, p)
  {
    var r := Trim(s, p);
    TrimSpec(s, p);
    if r != [] {
      assert TrimStart(r, p) == r;
      assert TrimEnd(r, p) == r;
    }
  }

  /**
   * `components(separatedBy: CharacterSet)`: the pieces between the
   * characters of the class, one more piece than there are separators.
   */
  function SplitWhere(s: string, p: CharacterSet): (parts: seq<string>)
    ensures |parts| >= 1
  {
    if s == [] then [""]
    else
      var rest := SplitWhere(s[1..], p);
      if In(s[0], p) then [""] + rest
      else [[s[0]] + rest[0]] + rest[1..]
  }

  /** No piece holds a separator, and there is one piece more than separators. */
  lemma {:induction false} SplitWhereSpec(s: string, p: CharacterSet)
    ensures var parts := SplitWhere(s, p);
      && (forall k :: 0 <= k < |parts| ==> NoneIn(parts[k], p))
      && |parts| == 1 + CountIn(s, p)
  {
    if s != [] {
      SplitWhereSpec(s[1..], p);
      var rest := SplitWhere(s[1..], p);
      if !In(s[0], p) {
        var first := [s[0]] + rest[0];
        assert NoneIn(first, p) by {
          forall i | 0 <= i < |first|
            ensures !In(first[i], p)
          {
            if i > 0 {
              assert first[i] == rest[0][i - 1];
            }
          }
        }
      }
    }
  }

  /** The characters of `s` in the class `p`, in order: the separators a split removes. */
  function SeparatorsIn(s: string, p: CharacterSet): (seps: string)
    ensures |seps| == CountIn(s, p)
  {
    if s == [] then [] else (if In(s[0], p) then [s[0]] else []) + SeparatorsIn(s[1..], p)
  }

  /** `parts[0] + seps[0] + parts[1] + ... + parts[|seps|]`. */
  function Interleave(parts: seq<string>, seps: string): string
    requires |parts| == |seps| + 1
  {
    if seps == [] then parts[0] else parts[0] + [seps[0]] + Interleave(parts[1..], seps[1..])
  }

  /** Putting the removed separators back between the pieces gives the input. */
  lemma {:induction false} SplitWhereRejoin(s: string, p: CharacterSet)
    ensures |SplitWhere(s, p)| == |SeparatorsIn(s, p)| + 1
    ensures Interleave(SplitWhere(s, p), SeparatorsIn(s, p)) == s
  {
    SplitWhereSpec(s, p);
    if s != [] {
      var rest := SplitWhere(s[1..], p);
      var seps := SeparatorsIn(s[1..], p);
      SplitWhereRejoin(s[1..], p);
      if In(s[0], p) {
        assert ([""] + rest)[1..] == rest;
        assert [s[0]] + seps == SeparatorsIn(s, p);
      } else {
        assert SeparatorsIn(s, p) == seps;
        InterleaveHead(s[0], rest, seps);
        assert s == [s[0]] + s[1..];
      }
    }
  }

  /** Prefixing the first piece prefixes the whole. */
  lemma InterleaveHead(c: char, parts: seq<string>, seps: string)
    requires |parts| == |seps| + 1
    ensures Interleave([[c] + parts[0]] + parts[1..], seps) == [c] + Interleave(parts, seps)
  {
    var q := [[c] + parts[0]] + parts[1..];
    assert q[1..] == parts[1..];
  }

  /** Number of characters of `s` in the class `p`. */
  function CountIn(s: string, p: CharacterSet): nat
  {
    if s == [] then 0 else (if In(s[0], p) then 1 else 0) + CountIn(s[1..], p)
  }

  /** `s` with every `from` replaced by `to` (`replacingOccurrences(of:with:)`). */
  function ReplaceChar(s: string, from: char, to: char): (r: string)
    ensures |r| == |s|
    ensures forall i :: 0 <= i < |s| ==> r[i] == (if s[i] == from then to else s[i])
  {
    if s == [] then [] else [if s[0] == from then to else s[0]] + ReplaceChar(s[1..], from, to)
  }

  /** `starts(with:)`. */
  predicate StartsWith(s: string, prefix: string) {
    |prefix| <= |s| && s[..|prefix|] == prefix
  }

  /**
   * `components(separatedBy: String)`: the separator's occurrences are
   * found left to right without overlapping, and the pieces between them
   * are returned.
   */
  function SplitOn(s: string, sep: string): (parts: seq<string>)
    requires sep != []
    ensures |parts| >= 1
    decreases |s|
  {
    if |s| < |sep| then [s]
    else if s[..|sep|] == sep then [""] + SplitOn(s[|sep|..], sep)
    else
      var rest := SplitOn(s[1..], sep);
      [[s[0]] + rest[0]] + rest[1..]
  }

  /** The inverse of `SplitOn`: the pieces glued back with the separator. */
  function Join(parts: seq<string>, sep: string): string
    requires |parts| >= 1
  {
    if |parts| == 1 then parts[0] else parts[0] + sep + Join(parts[1..], sep)
  }

  /** Splitting on a separator and joining with it gives the string back. */
  lemma {:induction false} JoinSplitOn(s: string, sep: string)
    requires sep != []
    ensures Join(SplitOn(s, sep), sep) == s
    decreases |s|
  {
    if |s| < |sep| {
    } else if s[..|sep|] == sep {
      var rest := SplitOn(s[|sep|..], sep);
      JoinSplitOn(s[|sep|..], sep);
      assert SplitOn(s, sep) == [""] + rest;
      assert ([""] + rest)[1..] == rest;
      assert s == "" + sep + s[|sep|..];
    } else {
      var rest := SplitOn(s[1..], sep);
      JoinSplitOn(s[1..], sep);
      var parts := [[s[0]] + rest[0]] + rest[1..];
      assert SplitOn(s, sep) == parts;
      if |rest| == 1 {
        assert s == [s[0]] + s[1..];
      } else {
        assert parts[1..] == rest[1..];
        assert Join(rest, sep) == rest[0] + sep + Join(rest[1..], sep);
        assert s == [s[0]] + s[1..];
      }
    }
  }

  /** No piece that `SplitOn` returns contains the separator. */
  lemma {:induction false} SplitOnPiecesFree(s: string, sep: string, k: nat)
    requires sep != []
    requires k < |SplitOn(s, sep)|
    ensures !Contains(SplitOn(s, sep)[k], sep)
    decreases |s|
  {
    if |s| < |sep| {
    } else if s[..|sep|] == sep {
      if k > 0 {
        SplitOnPiecesFree(s[|sep|..], sep, k - 1);
      }
    } else {
      var rest := SplitOn(s[1..], sep);
      SplitOnPiecesFree(s[1..], sep, k);
      if k == 0 {
        var piece := [s[0]] + rest[0];
        SplitOnPrefixOfRest(s[1..], sep);
        assert piece == s[..|piece|];
        forall i | 0 <= i <= |piece| - |sep|
          ensures !OccursAt(piece, sep, i)
        {
          if i == 0 {
            assert piece[..|sep|] == s[..|sep|];
          } else {
            assert piece[i..i + |sep|] == rest[0][i - 1..i - 1 + |sep|];
            assert !OccursAt(rest[0], sep, i - 1);
          }
        }
      }
    }
  }

  /** The first piece of the split of `s` is a prefix of `s`. */
  lemma {:induction false} SplitOnPrefixOfRest(s: string, sep: string)
    requires sep != []
    ensures |SplitOn(s, sep)[0]| <= |s| && SplitOn(s, sep)[0] == s[..|SplitOn(s, sep)[0]|]
    decreases |s|
  {
    if |s| < |sep| {
    } else if s[..|sep|] == sep {
    } else {
      SplitOnPrefixOfRest(s[1..], sep);
    }
  }

  /** No character of `s` is `c`. */
  predicate Avoids(s: string, c: char) {
    forall i :: 0 <= i < |s| ==> s[i] != c
  }

  /** A string that never starts the separator is one piece. */
  lemma {:induction false} SplitOnWhole(s: string, sep: string)
    requires sep != [] && Avoids(s, sep[0])
    ensures SplitOn(s, sep) == [s]
    decreases |s|
  {
    if |s| >= |sep| {
      assert s[..|sep|][0] != sep[0];
      SplitOnWhole(s[1..], sep);
      assert [s[0]] + s[1..] == s;
    }
  }

  /** A piece that never starts the separator, then the separator: the piece comes off whole. */
  lemma {:induction false} SplitOnLead(x: string, y: string, sep: string)
    requires sep != [] && Avoids(x, sep[0])
    ensures SplitOn(x + sep + y, sep) == [x] + SplitOn(y, sep)
    decreases |x|
  {
    var s := x + sep + y;
    if x == [] {
      assert s == sep + y && s[..|sep|] == sep && s[|sep|..] == y;
    } else {
      assert s[..|sep|][0] == x[0] != sep[0];
      assert s[1..] == x[1..] + sep + y;
      SplitOnLead(x[1..], y, sep);
      assert [x[0]] + x[1..] == x;
    }
  }

  /**
   * The other round trip: pieces none of which holds the separator's first
   * character split back out of their join.
   */
  lemma {:induction false} SplitOnJoin(parts: seq<string>, sep: string)
    requires sep != [] && |parts| >= 1
    requires forall k :: 0 <= k < |parts| ==> Avoids(parts[k], sep[0])
    ensures SplitOn(Join(parts, sep), sep) == parts
  {
    if |parts| == 1 {
      SplitOnWhole(parts[0], sep);
    } else {
      SplitOnJoin(parts[1..], sep);
      SplitOnLead(parts[0], Join(parts[1..], sep), sep);
      assert [parts[0]] + parts[1..] == parts;
    }
  }

  /** `t` occurs somewhere in `s`. */
  predicate Contains(s: string, t: string) {
    exists i :: 0 <= i <= |s| - |t| && OccursAt(s, t, i)
  }

  /** `t` occurs in `s` at index `i`. */
  predicate OccursAt(s: string, t: string, i: int)
  {
    0 <= i && i + |t| <= |s| && s[i..i + |t|] == t
  }
}
