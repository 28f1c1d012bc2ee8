/**
 * The parts of Rust's `str` API that the puzzle parsers use, on strings
 * as sequences of characters: `split` on a character or a string,
 * `lines`, `trim`, `trim_matches`, `split_ascii_whitespace` and
 * `parse` into a bounded integer type.
 */
module Text {
  import opened RustInt

  const I32_MIN: int := -0x8000_0000
  const I32_MAX: int := 0x7fff_ffff
  const I64_MIN: int := -0x8000_0000_0000_0000
  const I64_MAX: int := 0x7fff_ffff_ffff_ffff

  /** Whether `pat` occurs in `s` at position `i`. */
  ghost predicate MatchAt(s: string, pat: string, i: nat)
  {
    i + |pat| <= |s| && s[i..i + |pat|] == pat
  }

  /**
   * `s.split(pat)`: the pieces between the non-overlapping occurrences of
   * `pat`, found from the left. There is always at least one piece.
   */
  function SplitOn(s: string, pat: string): (parts: seq<string>)
    requires |pat| > 0
    ensures |parts| >= 1
    decreases |s|
  {
    if |pat| <= |s| && s[..|pat|] == pat then [[]] + SplitOn(s[|pat|..], pat)
    else if |s| == 0 then [[]]
    else
      var rest := SplitOn(s[1..], pat);
      [[s[0]] + rest[0]] + rest[1..]
  }

  /** The pieces laid end to end with `sep` between them. */
  function Join(parts: seq<string>, sep: string): string
  {
    if |parts| == 0 then []
    else if |parts| == 1 then parts[0]
    else parts[0] + sep + Join(parts[1..], sep)
  }

  /** Splitting and joining again gives back the string. */
  lemma {:induction false} JoinSplit(s: string, pat: string)
    requires |pat| > 0
    ensures Join(SplitOn(s, pat), pat) == s
    decreases |s|
  {
    if |pat| <= |s| && s[..|pat|] == pat {
      JoinSplit(s[|pat|..], pat);
      JoinEmptyHead(SplitOn(s[|pat|..], pat), pat);
      assert s == pat + s[|pat|..];
    } else if |s| > 0 {
      JoinSplit(s[1..], pat);
      JoinConsHead(s[0], SplitOn(s[1..], pat), pat);
      assert s == [s[0]] + s[1..];
    }
  }

  /** An empty first piece contributes only the separator after it. */
  lemma JoinEmptyHead(rest: seq<string>, sep: string)
    requires |rest| >= 1
    ensures Join([[]] + rest, sep) == sep + Join(rest, sep)
  {
    assert ([[]] + rest)[1..] == rest;
  }

  /** A character put in front of the first piece comes first in the joined string. */
  lemma JoinConsHead(c: char, rest: seq<string>, sep: string)
    requires |rest| >= 1
    ensures Join([[c] + rest[0]] + rest[1..], sep) == [c] + Join(rest, sep)
  {
    var parts := [[c] + rest[0]] + rest[1..];
    if |rest| > 1 {
      assert parts[1..] == rest[1..];
      assert Join(rest, sep) == rest[0] + sep + Join(rest[1..], sep);
    }
  }

  /** No piece contains a complete occurrence of the separator. */
  lemma {:induction false} SplitPiecesAvoid(s: string, pat: string, k: nat, i: nat)
    requires |pat| > 0 && k < |SplitOn(s, pat)|
    ensures !MatchAt(SplitOn(s, pat)[k], pat, i)
    decreases |s|
  {
    if |pat| <= |s| && s[..|pat|] == pat {
      if k > 0 {
        SplitPiecesAvoid(s[|pat|..], pat, k - 1, i);
      }
    } else if |s| > 0 {
      var rest := SplitOn(s[1..], pat);
      if k > 0 {
        SplitPiecesAvoid(s[1..], pat, k, i);
      } else if i > 0 {
        SplitPiecesAvoid(s[1..], pat, 0, i - 1);
        var piece := [s[0]] + rest[0];
        if i + |pat| <= |piece| {
          ShiftedSlice(s[0], rest[0], i, |pat|);
        }
      } else {
        var piece := [s[0]] + rest[0];
        if |pat| <= |piece| {
          PrefixOfPiece(s, pat, piece);
        }
      }
    }
  }

  /** A slice past the first element is a slice of the tail. */
  lemma ShiftedSlice<T>(x: T, t: seq<T>, i: nat, n: nat)
    requires 1 <= i && i + n <= |t| + 1
    ensures ([x] + t)[i..i + n] == t[i - 1..i - 1 + n]
  {
  }

  /** A helper for the first piece: when `s` does not start with `pat`, neither does its first piece. */
  lemma PrefixOfPiece(s: string, pat: string, piece: string)
    requires 0 < |pat| <= |piece| && s != []
    requires !(|pat| <= |s| && s[..|pat|] == pat)
    requires piece == [s[0]] + SplitOn(s[1..], pat)[0]
    ensures piece[..|pat|] != pat
  {
    JoinSplit(s[1..], pat);
    var rest := SplitOn(s[1..], pat);
    PieceIsPrefix(s[1..], pat);
    assert piece[..|pat|] == s[..|pat|];
  }

  /** The first piece is a prefix of the string. */
  lemma {:induction false} PieceIsPrefix(s: string, pat: string)
    requires |pat| > 0
    ensures |SplitOn(s, pat)[0]| <= |s| && SplitOn(s, pat)[0] == s[..|SplitOn(s, pat)[0]|]
    decreases |s|
  {
    if !(|pat| <= |s| && s[..|pat|] == pat) && |s| > 0 {
      PieceIsPrefix(s[1..], pat);
    }
  }

  /** `s.split(c)` for a character. */
  function Split(s: string, c: char): (parts: seq<string>)
    ensures |parts| >= 1
  {
    SplitOn(s, [c])
  }

  /** Splitting on a character gives pieces free of that character. */
  lemma SplitAvoids(s: string, c: char, k: nat)
    requires k < |Split(s, c)|
    ensures c !in Split(s, c)[k]
  {
    var piece := Split(s, c)[k];
    forall i | 0 <= i < |piece|
      ensures piece[i] != c
    {
      SplitPiecesAvoid(s, [c], k, i);
      assert piece[i..i + 1] == [piece[i]];
    }
  }

  /** There is more than one piece exactly when the separator occurs. */
  lemma {:induction false} SplitFound(s: string, c: char)
    ensures |Split(s, c)| >= 2 <==> c in s
  {
    var parts := Split(s, c);
    JoinSplit(s, [c]);
    SplitAvoids(s, c, 0);
    if |parts| >= 2 {
      assert s == parts[0] + [c] + Join(parts[1..], [c]);
    }
  }

  /** A string without the separator is a single piece. */
  lemma {:induction false} SplitNone(s: string, c: char)
    requires c !in s
    ensures Split(s, c) == [s]
  {
    if |s| > 0 {
      SplitNone(s[1..], c);
      assert [s[0]] + s[1..] == s;
    }
  }

  /** The text before the first separator is the first piece; the rest is split on. */
  lemma {:induction false} SplitFirst(p: string, c: char, rest: string)
    requires c !in p
    ensures Split(p + [c] + rest, c) == [p] + Split(rest, c)
  {
    var s := p + [c] + rest;
    if |p| == 0 {
      assert s[..1] == [c] && s[1..] == rest;
    } else {
      SplitFirst(p[1..], c, rest);
      assert s[0] == p[0] && s[..1] == [p[0]];
      assert s[1..] == p[1..] + [c] + rest;
      assert [p[0]] + p[1..] == p;
    }
  }

  /** One trailing carriage return removed, as `lines` does for a `\r\n` ending. */
  function StripCr(line: string): (r: string)
    ensures r == line || (line == r + ['\r'])
  {
    if |line| > 0 && line[|line| - 1] == '\r' then line[..|line| - 1] else line
  }

  /**
   * `s.lines()`: the pieces between newlines, each without a `\r` before
   * its newline; a final empty piece (a trailing newline, or the empty
   * string) is not a line.
   */
  function Lines(s: string): (lines: seq<string>)
    ensures |s| == 0 <==> |lines| == 0
  {
    if |s| == 0 then []
    else
      var parts := Split(s, '\n');
      var last := parts[|parts| - 1];
      var ended := seq(|parts| - 1, i requires 0 <= i < |parts| - 1 => StripCr(parts[i]));
      if |last| == 0 then
        assert ended != [] by {
          JoinSplit(s, ['\n']);
        }
        ended
      else ended + [last]
  }

  /** Line `k` is piece `k` between the newlines, less a carriage return that ended it. */
  lemma {:induction false} LineOf(s: string, k: nat)
    requires k < |Lines(s)|
    ensures k < |Split(s, '\n')|
    ensures Lines(s)[k] == Split(s, '\n')[k] || Split(s, '\n')[k] == Lines(s)[k] + ['\r']
  {
    var parts := Split(s, '\n');
    var n := |parts| - 1;
    var ended := seq(n, i requires 0 <= i < n => StripCr(parts[i]));
    if |parts[n]| == 0 {
      assert Lines(s) == ended;
      assert Lines(s)[k] == StripCr(parts[k]);
    } else {
      assert Lines(s) == ended + [parts[n]];
      if k < n {
        assert Lines(s)[k] == ended[k];
      }
    }
  }

  /** No line holds a newline. */
  lemma {:induction false} LinesAvoid(s: string, k: nat)
    requires k < |Lines(s)|
    ensures '\n' !in Lines(s)[k]
  {
    LineOf(s, k);
    SplitAvoids(s, '\n', k);
  }

  /**
   * Joining the lines with newlines gives back a string without carriage
   * returns, except for the one newline that ends its last line, if any.
   */
  lemma {:induction false} LinesJoin(s: string)
    requires '\r' !in s
    ensures |s| > 0 && s[|s| - 1] == '\n' ==> Join(Lines(s), "\n") + "\n" == s
    ensures (|s| == 0 || s[|s| - 1] != '\n') ==> Join(Lines(s), "\n") == s
  {
    if |s| > 0 {
      var parts := Split(s, '\n');
      var n := |parts| - 1;
      JoinSplit(s, "\n");
      LinesPieces(s);
      assert parts == parts[..n] + [parts[n]];
      if |parts[n]| == 0 {
        JoinSnoc(parts[..n], parts[n], "\n");
        assert s == Join(parts[..n], "\n") + "\n";
      } else {
        SplitAvoids(s, '\n', n);
        if n > 0 {
          JoinSnoc(parts[..n], parts[n], "\n");
          assert s == Join(parts[..n], "\n") + "\n" + parts[n];
        }
        assert s[|s| - 1] == parts[n][|parts[n]| - 1];
      }
    }
  }

  /** Without carriage returns, the lines are the pieces, less a final empty one. */
  lemma {:induction false} LinesPieces(s: string)
    requires '\r' !in s && |s| > 0
    ensures var parts := Split(s, '\n');
      if |parts[|parts| - 1]| == 0 then |parts| >= 2 && Lines(s) == parts[..|parts| - 1] else Lines(s) == parts
  {
    var parts := Split(s, '\n');
    var n := |parts| - 1;
    JoinSplit(s, "\n");
    JoinAvoids(parts, "\n", '\r');
    var ended := seq(n, i requires 0 <= i < n => StripCr(parts[i]));
    assert ended == parts[..n] by {
      forall i | 0 <= i < n
        ensures StripCr(parts[i]) == parts[i]
      {
        assert '\r' !in parts[i];
      }
    }
    assert parts == parts[..n] + [parts[n]];
  }

  /** A character missing from the joined string is missing from every piece. */
  lemma {:induction false} JoinAvoids(parts: seq<string>, sep: string, c: char)
    requires c !in Join(parts, sep)
    ensures forall k :: 0 <= k < |parts| ==> c !in parts[k]
  {
    if |parts| > 1 {
      JoinAvoids(parts[1..], sep, c);
      assert forall k :: 1 <= k < |parts| ==> parts[k] == parts[1..][k - 1];
    }
  }

  /** A last piece is joined after the separator. */
  lemma {:induction false} JoinSnoc(parts: seq<string>, last: string, sep: string)
    requires |parts| >= 1
    ensures Join(parts + [last], sep) == Join(parts, sep) + sep + last
  {
    if |parts| > 1 {
      JoinSnoc(parts[1..], last, sep);
      assert (parts + [last])[1..] == parts[1..] + [last];
    } else {
      assert (parts + [last])[1..] == [last];
    }
  }

  /** The characters Rust's `char::is_whitespace` accepts: those with the Unicode White_Space property. */
  const WHITESPACE: set<char> := {
    ' ', '\t', '\n', '\U{0B}', '\U{0C}', '\r', '\U{85}', '\U{A0}', '\U{1680}',
    '\U{2000}', '\U{2001}', '\U{2002}', '\U{2003}', '\U{2004}', '\U{2005}',
    '\U{2006}', '\U{2007}', '\U{2008}', '\U{2009}', '\U{200A}',
    '\U{2028}', '\U{2029}', '\U{202F}', '\U{205F}', '\U{3000}'
  }

  /** The characters `u8::is_ascii_whitespace` accepts: space, tab, line feed, form feed and carriage return. */
  const ASCII_WHITESPACE: set<char> := {' ', '\t', '\n', '\U{0C}', '\r'}

  /** The string without its leading characters in `strip`. */
  function TrimStart(s: string, strip: set<char>): (r: string)
    ensures |r| <= |s| && r == s[|s| - |r|..]
    ensures r != [] ==> r[0] !in strip
    ensures forall i :: 0 <= i < |s| - |r| ==> s[i] in strip
  {
    if |s| > 0 && s[0] in strip then TrimStart(s[1..], strip) else s
  }

  /** The string without its trailing characters in `strip`. */
  function TrimEnd(s: string, strip: set<char>): (r: string)
    ensures |r| <= |s| && r == s[..|r|]
    ensures r != [] ==> r[|r| - 1] !in strip
    ensures forall i :: |r| <= i < |s| ==> s[i] in strip
  {
    if |s| > 0 && s[|s| - 1] in strip then TrimEnd(s[..|s| - 1], strip) else s
  }

  /** `s.trim_matches(..)`: both ends stripped. */
  function TrimMatches(s: string, strip: set<char>): (r: string)
    ensures r == [] || (r[0] !in strip && r[|r| - 1] !in strip)
  {
    TrimEnd(TrimStart(s, strip), strip)
  }

  /** `s.trim()`: both ends stripped of whitespace. */
  function Trim(s: string): string
  {
    TrimMatches(s, WHITESPACE)
  }

  /** A string whose ends are kept is kept whole. */
  lemma {:induction false} TrimKeeps(s: string, strip: set<char>)
    requires |s| > 0 && s[0] !in strip && s[|s| - 1] !in strip
    ensures TrimMatches(s, strip) == s
  {
    assert TrimStart(s, strip) == s;
  }

  /** One stripped character before a string whose ends are kept. */
  lemma {:induction false} TrimLeading(a: char, s: string, strip: set<char>)
    requires a in strip
    requires |s| > 0 && s[0] !in strip && s[|s| - 1] !in strip
    ensures TrimMatches([a] + s, strip) == s
  {
    assert ([a] + s)[1..] == s;
    assert TrimStart(s, strip) == s;
  }

  /** One stripped character on each side, around a string whose ends are kept. */
  lemma {:induction false} TrimAround(a: char, s: string, b: char, strip: set<char>)
    requires a in strip && b in strip
    requires |s| > 0 && s[0] !in strip && s[|s| - 1] !in strip
    ensures TrimMatches([a] + s + [b], strip) == s
  {
    var t := [a] + s + [b];
    assert t[1..] == s + [b];
    assert TrimStart(s + [b], strip) == s + [b];
    assert (s + [b])[..|s|] == s;
  }

  /** The pieces that are not empty. */
  function NonEmpty(parts: seq<string>): (r: seq<string>)
    ensures forall k :: 0 <= k < |r| ==> r[k] != [] && r[k] in parts
  {
    if |parts| == 0 then []
    else if |parts[0]| == 0 then NonEmpty(parts[1..])
    else [parts[0]] + NonEmpty(parts[1..])
  }

  /** The pieces between the characters in `sep`. */
  function SplitWhere(s: string, sep: set<char>): (parts: seq<string>)
    ensures |parts| >= 1
    ensures forall k, i :: 0 <= k < |parts| && 0 <= i < |parts[k]| ==> parts[k][i] !in sep
  {
    if |s| == 0 then [[]]
    else
      var rest := SplitWhere(s[1..], sep);
      if s[0] in sep then [[]] + rest
      else
        var first := [s[0]] + rest[0];
        assert forall i :: 1 <= i < |first| ==> first[i] == rest[0][i - 1];
        [first] + rest[1..]
  }

  /** `s.split_ascii_whitespace()`: the words between runs of ASCII whitespace. */
  function Words(s: string): (words: seq<string>)
    ensures forall k, i :: 0 <= k < |words| && 0 <= i < |words[k]| ==> words[k][i] !in ASCII_WHITESPACE
    ensures forall k :: 0 <= k < |words| ==> words[k] != []
  {
    NonEmpty(SplitWhere(s, ASCII_WHITESPACE))
  }

  predicate IsDigit(c: char)
  {
    '0' <= c <= '9'
  }

  function DigitValue(c: char): (d: int)
    requires IsDigit(c)
    ensures 0 <= d <= 9
  {
    (c as int) - ('0' as int)
  }

  /** An unsigned decimal numeral: at least one digit and nothing else. */
  function ParseDigits(s: string): (r: Option<int>)
    ensures r.Some? <==> s != [] && forall i :: 0 <= i < |s| ==> IsDigit(s[i])
    ensures r.Some? ==> r.value >= 0
  {
    if |s| == 0 || !IsDigit(s[|s| - 1]) then None
    else if |s| == 1 then Some(DigitValue(s[0]))
    else match ParseDigits(s[..|s| - 1])
      case None => None
      case Some(n) => Some(n * 10 + DigitValue(s[|s| - 1]))
  }

  /**
   * `s.parse::<T>()` for an integer type whose values are `lo..=hi`: an
   * optional `+`, or `-` when the type is signed, then decimal digits; a
   * value out of range is an error like any other.
   */
  function ParseInt(s: string, lo: int, hi: int): (r: Option<int>)
    ensures r.Some? ==> lo <= r.value <= hi
  {
    var negative := |s| > 0 && s[0] == '-' && lo < 0;
    var body := if negative || (|s| > 0 && s[0] == '+') then s[1..] else s;
    match ParseDigits(body)
    case None => None
    case Some(n) =>
      var v := if negative then -n else n;
      if lo <= v <= hi then Some(v) else None
  }

  /** The decimal digits of a natural number, as characters, most significant first. */
  function Numeral(m: nat): (s: string)
    ensures s != [] && forall i :: 0 <= i < |s| ==> IsDigit(s[i])
  {
    var last := ('0' as int + m % 10) as char;
    if m < 10 then [last] else Numeral(m / 10) + [last]
  }

  /** `n.to_string()`: a `-` for negative numbers, then the decimal digits of the magnitude. */
  function Show(n: int): (s: string)
    ensures s != []
  {
    if n < 0 then ['-'] + Numeral(Abs(n)) else Numeral(n)
  }

  /** A non-empty string of minus signs and digits that ends in a digit. */
  predicate Numeric(s: string)
  {
    |s| > 0 && IsDigit(s[|s| - 1]) && forall i :: 0 <= i < |s| ==> s[i] == '-' || IsDigit(s[i])
  }

  /** Printed numbers hold only a minus sign and digits, and end in a digit. */
  lemma {:induction false} ShowChars(n: int)
    ensures Numeric(Show(n))
  {
    if n < 0 {
      var m := Numeral(Abs(n));
      assert forall i :: 1 <= i < |Show(n)| ==> Show(n)[i] == m[i - 1];
    }
  }

  /** Reading back the digits of a natural number. */
  lemma {:induction false} NumeralDigits(m: nat)
    ensures ParseDigits(Numeral(m)) == Some(m)
  {
    if m >= 10 {
      NumeralDigits(m / 10);
      var s := Numeral(m);
      assert s[..|s| - 1] == Numeral(m / 10);
    }
  }

  /** Parsing what `Show` prints gives back the number, when it is in range. */
  lemma ParseShow(n: int, lo: int, hi: int)
    requires lo <= n <= hi
    ensures ParseInt(Show(n), lo, hi) == Some(n)
  {
    NumeralDigits(Abs(n));
    if n < 0 {
      assert Show(n)[1..] == Numeral(Abs(n));
    } else {
      assert Show(n)[0] != '-' && Show(n)[0] != '+';
    }
  }
}
