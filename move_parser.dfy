// Reading a move of the dummy game typed on the console: two decimal
// numbers separated by white space, surrounding white space ignored.

module DummyConsoleGame {
  import opened Game
  import opened Dummy

  /** Why a line is not a move: it does not have the form, or a number exceeds the int range. */
  datatype ParseError = IllegalArgument | InputMismatch

  /** The largest 32-bit signed integer, the most an int read from the line can be. */
  const IntMax: int := 0x7fff_ffff

  /** The characters Java's `String.trim` removes: U+0000 up to the space. */
  predicate IsTrimmable(c: char) {
    c <= ' '
  }

  /** A character matched by the regular expression class `\d`. */
  predicate IsDigit(c: char) {
    '0' <= c <= '9'
  }

  /** A character matched by the regular expression class `\s`: space, tab, newline, vertical tab, form feed, return. */
  predicate IsSpace(c: char) {
    c == ' ' || '\t' <= c <= '\r'
  }

  predicate AllDigits(s: string) {
    forall k :: 0 <= k < |s| ==> IsDigit(s[k])
  }

  predicate AllSpaces(s: string) {
    forall k :: 0 <= k < |s| ==> IsSpace(s[k])
  }

  predicate AllTrimmable(s: string) {
    forall k :: 0 <= k < |s| ==> IsTrimmable(s[k])
  }

  /** `s` without its leading trimmable characters. */
  function TrimStart(s: string): (r: string)
    ensures |r| <= |s| && r == s[|s| - |r|..]
    ensures r == [] || !IsTrimmable(r[0])
    ensures AllTrimmable(s[..|s| - |r|])
  {
    if s != [] && IsTrimmable(s[0]) then TrimStart(s[1..]) else s
  }

  /** `s` without its trailing trimmable characters. */
  function TrimEnd(s: string): (r: string)
    ensures |r| <= |s| && r == s[..|r|]
    ensures r == [] || !IsTrimmable(r[|r| - 1])
    ensures AllTrimmable(s[|r|..])
  {
    if s != [] && IsTrimmable(s[|s| - 1]) then TrimEnd(s[..|s| - 1]) else s
  }

  /** Java's `String.trim`: neither end of the result is a trimmable character. */
  function Trim(s: string): (r: string)
    ensures |r| <= |s|
    ensures r == [] || (!IsTrimmable(r[0]) && !IsTrimmable(r[|r| - 1]))
  {
    TrimEnd(TrimStart(s))
  }

  /** `Trim` keeps a contiguous part of the line and drops only trimmable characters around it. */
  lemma TrimDropsOnlyTrimmable(s: string)
    ensures exists i :: 0 <= i <= |s| - |Trim(s)| && Trim(s) == s[i..i + |Trim(s)|] &&
                        AllTrimmable(s[..i]) && AllTrimmable(s[i + |Trim(s)|..])
  {
    var t := TrimStart(s);
    var r := TrimEnd(t);
    var i := |s| - |t|;
    assert s[i..i + |r|] == r;
    assert s[i + |r|..] == t[|r|..];
  }

  /** 10 to the power `n`. */
  function Pow10(n: nat): (p: nat)
    ensures p >= 1
  {
    if n == 0 then 1 else 10 * Pow10(n - 1)
  }

  /** The length of the longest prefix of `s` whose characters all satisfy `p`. */
  function CountWhile(s: string, p: char -> bool): (n: nat)
    ensures n <= |s|
    ensures forall k :: 0 <= k < n ==> p(s[k])
    ensures n < |s| ==> !p(s[n])
  {
    if s != [] && p(s[0]) then 1 + CountWhile(s[1..], p) else 0
  }

  /** The numeric value of a run of decimal digits (leading zeros allowed). */
  function DecimalValue(s: string): (v: nat)
    requires AllDigits(s)
    ensures v < Pow10(|s|)
  {
    if s == [] then 0
    else 10 * DecimalValue(s[..|s| - 1]) + (s[|s| - 1] as int - '0' as int)
  }

  /** The line has the form `\d+\s+\d+` as a whole, split at `i` and `j`. */
  predicate SplitsAsMove(t: string, i: int, j: int) {
    0 < i < j < |t| && AllDigits(t[..i]) && AllSpaces(t[i..j]) && AllDigits(t[j..])
  }

  /** The trimmed line matches `\d+\s+\d+`. */
  ghost predicate MatchesMovePattern(t: string) {
    exists i, j :: SplitsAsMove(t, i, j)
  }

  /** Trims the line, then reads it as a move. */
  function ParseMove(s: string): (r: Result<Position, ParseError>)
    ensures r.Ok? ==> 0 <= r.value.row <= IntMax && 0 <= r.value.col <= IntMax
  {
    ParseTrimmed(Trim(s))
  }

  /**
   * Checks that the trimmed line `t` is two runs of digits separated by white
   * space, and reads the two runs as the row and the column.
   */
  function ParseTrimmed(t: string): (r: Result<Position, ParseError>)
    ensures r.Ok? ==> 0 <= r.value.row <= IntMax && 0 <= r.value.col <= IntMax
  {
    var i := CountWhile(t, IsDigit);
    var j := i + CountWhile(t[i..], IsSpace);
    if 0 < i < j < |t| && AllDigits(t[j..]) then
      var row := DecimalValue(t[..i]);
      var col := DecimalValue(t[j..]);
      if row <= IntMax && col <= IntMax then Ok(Position(row, col)) else Err(InputMismatch)
    else
      Err(IllegalArgument)
  }

  /** A line that matches the form splits in only one way: where its digit runs end and begin. */
  lemma SplitIsUnique(t: string, i: int, j: int)
    requires SplitsAsMove(t, i, j)
    ensures i == CountWhile(t, IsDigit)
    ensures j == i + CountWhile(t[i..], IsSpace)
  {
    assert forall k :: 0 <= k < i ==> IsDigit(t[k]) by {
      forall k | 0 <= k < i
        ensures IsDigit(t[k])
      {
        assert t[..i][k] == t[k];
      }
    }
    assert t[i..j][0] == t[i];
    var u := t[i..];
    assert forall k :: 0 <= k < j - i ==> IsSpace(u[k]) by {
      forall k | 0 <= k < j - i
        ensures IsSpace(u[k])
      {
        assert t[i..j][k] == u[k];
      }
    }
    assert t[j..][0] == u[j - i];
  }

  /** The trimmed line is rejected as malformed exactly when it does not match `\d+\s+\d+`. */
  lemma ParseTrimmedRejectsIffNoMatch(t: string)
    ensures ParseTrimmed(t) == Err(IllegalArgument) <==> !MatchesMovePattern(t)
  {
    var i := CountWhile(t, IsDigit);
    var j := i + CountWhile(t[i..], IsSpace);
    if MatchesMovePattern(t) {
      var i', j' :| SplitsAsMove(t, i', j');
      SplitIsUnique(t, i', j');
    } else if 0 < i < j < |t| && AllDigits(t[j..]) {
      assert AllSpaces(t[i..j]) by {
        forall k | 0 <= k < j - i
          ensures IsSpace(t[i..j][k])
        {
          assert t[i..j][k] == t[i..][k];
        }
      }
      assert SplitsAsMove(t, i, j);
    }
  }

  /** A line is rejected as malformed exactly when its trimmed form does not match `\d+\s+\d+`. */
  lemma ParseMoveRejectsIffNoMatch(s: string)
    ensures ParseMove(s) == Err(IllegalArgument) <==> !MatchesMovePattern(Trim(s))
  {
    ParseTrimmedRejectsIffNoMatch(Trim(s));
  }

  /** On a trimmed line, a match whose numbers fit in an int yields their values, in order. */
  lemma ParseTrimmedReadsBothRuns(t: string, i: int, j: int)
    requires SplitsAsMove(t, i, j)
    requires DecimalValue(t[..i]) <= IntMax && DecimalValue(t[j..]) <= IntMax
    ensures ParseTrimmed(t) == Ok(Position(DecimalValue(t[..i]), DecimalValue(t[j..])))
  {
    SplitIsUnique(t, i, j);
  }

  /** An accepted line yields the values of its two digit runs, in order. */
  lemma ParseMoveReadsBothRuns(s: string, i: int, j: int)
    requires SplitsAsMove(Trim(s), i, j)
    requires DecimalValue(Trim(s)[..i]) <= IntMax && DecimalValue(Trim(s)[j..]) <= IntMax
    ensures ParseMove(s) == Ok(Position(DecimalValue(Trim(s)[..i]), DecimalValue(Trim(s)[j..])))
  {
    ParseTrimmedReadsBothRuns(Trim(s), i, j);
  }

  /** On a trimmed line, a match with a number beyond the int range fails to read. */
  lemma ParseTrimmedOverflows(t: string, i: int, j: int)
    requires SplitsAsMove(t, i, j)
    requires DecimalValue(t[..i]) > IntMax || DecimalValue(t[j..]) > IntMax
    ensures ParseTrimmed(t) == Err(InputMismatch)
  {
    SplitIsUnique(t, i, j);
  }

  /** A matching line whose numbers do not both fit in an int is rejected as the int read fails. */
  lemma ParseMoveOverflows(s: string, i: int, j: int)
    requires SplitsAsMove(Trim(s), i, j)
    requires DecimalValue(Trim(s)[..i]) > IntMax || DecimalValue(Trim(s)[j..]) > IntMax
    ensures ParseMove(s) == Err(InputMismatch)
  {
    ParseTrimmedOverflows(Trim(s), i, j);
  }

  function DigitChar(d: int): (c: char)
    requires 0 <= d < 10
    ensures IsDigit(c) && c as int - '0' as int == d
  {
    ('0' as int + d) as char
  }

  /** The decimal digits of `n`, without leading zeros. */
  function Decimal(n: nat): (s: string)
    ensures |s| > 0 && AllDigits(s)
  {
    if n < 10 then [DigitChar(n)] else Decimal(n / 10) + [DigitChar(n % 10)]
  }

  lemma {:induction false} DecimalRoundTrip(n: nat)
    ensures DecimalValue(Decimal(n)) == n
  {
    if n >= 10 {
      var s := Decimal(n);
      assert s[..|s| - 1] == Decimal(n / 10);
      DecimalRoundTrip(n / 10);
    }
  }

  /** The line a player types for the square `p`: row and column separated by a space. */
  function FormatMove(p: Position): string
    requires p.row >= 0 && p.col >= 0
  {
    Decimal(p.row) + " " + Decimal(p.col)
  }

  /** Reading back a typed square gives that square, for coordinates in the int range. */
  lemma ParseFormattedMove(p: Position)
    requires 0 <= p.row <= IntMax && 0 <= p.col <= IntMax
    ensures ParseMove(FormatMove(p)) == Ok(p)
  {
    var a, b := Decimal(p.row), Decimal(p.col);
    var t := FormatMove(p);
    assert t[0] == a[0] && t[|t| - 1] == b[|b| - 1];
    assert TrimStart(t) == t;
    assert Trim(t) == t;
    assert t[..|a|] == a;
    assert t[|a| + 1..] == b;
    assert SplitsAsMove(t, |a|, |a| + 1);
    DecimalRoundTrip(p.row);
    DecimalRoundTrip(p.col);
    ParseMoveReadsBothRuns(t, |a|, |a| + 1);
  }

  lemma {:induction false} TrimStartSkipsPrefix(pre: string, s: string)
    requires AllTrimmable(pre)
    ensures TrimStart(pre + s) == TrimStart(s)
  {
    if pre != [] {
      assert (pre + s)[0] == pre[0];
      assert (pre + s)[1..] == pre[1..] + s;
      TrimStartSkipsPrefix(pre[1..], s);
    } else {
      assert pre + s == s;
    }
  }

  lemma {:induction false} TrimEndSkipsSuffix(s: string, post: string)
    requires AllTrimmable(post)
    ensures TrimEnd(s + post) == TrimEnd(s)
  {
    if post != [] {
      var last := |post| - 1;
      assert (s + post)[|s + post| - 1] == post[last];
      assert (s + post)[..|s + post| - 1] == s + post[..last];
      TrimEndSkipsSuffix(s, post[..last]);
    } else {
      assert s + post == s;
    }
  }

  lemma {:induction false} TrimAcrossSuffix(s: string, post: string)
    requires AllTrimmable(post)
    ensures Trim(s + post) == Trim(s)
  {
    if s == [] {
      assert s + post == post;
      TrimStartSkipsPrefix(post, []);
      assert post + [] == post;
    } else if IsTrimmable(s[0]) {
      assert (s + post)[1..] == s[1..] + post;
      TrimAcrossSuffix(s[1..], post);
    } else {
      TrimEndSkipsSuffix(s, post);
    }
  }

  /** White space and control characters around a line do not change how it is read. */
  lemma ParseMoveIgnoresPadding(pre: string, s: string, post: string)
    requires AllTrimmable(pre) && AllTrimmable(post)
    ensures ParseMove(pre + s + post) == ParseMove(s)
  {
    assert pre + s + post == pre + (s + post);
    TrimStartSkipsPrefix(pre, s + post);
    TrimAcrossSuffix(s, post);
    assert Trim(pre + s + post) == Trim(s);
  }
}
