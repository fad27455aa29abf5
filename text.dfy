/**
 * Rendering of command lines for the log: tokens joined by single spaces,
 * and the decimal rendering of the parallelism count.
 */
module Text {

  /** The tokens with exactly one space between neighbours. */
  function Join(tokens: seq<string>): (line: string)
  {
    if |tokens| == 0 then ""
    else if |tokens| == 1 then tokens[0]
    else tokens[0] + " " + Join(tokens[1..])
  }

  /**
   * The fields of s between single-space separators, empty fields included;
   * the inverse that the joined log line is read back with.
   */
  function Split(s: string): (fields: seq<string>)
    ensures |fields| >= 1
  {
    if |s| == 0 then [""]
    else
      var rest := Split(s[1..]);
      if s[0] == ' ' then [""] + rest else [[s[0]] + rest[0]] + rest[1..]
  }

  /** Appending a token to a non-empty list appends one space and the token. */
  lemma {:induction false} JoinAppend(tokens: seq<string>, t: string)
    requires |tokens| >= 1
    ensures Join(tokens + [t]) == Join(tokens) + " " + t
  {
    if |tokens| == 1 {
      assert (tokens + [t])[1..] == [t];
    } else {
      assert (tokens + [t])[1..] == tokens[1..] + [t];
      JoinAppend(tokens[1..], t);
    }
  }

  /** A single space separates the fields of its two sides. */
  lemma {:induction false} SplitConcat(a: string, b: string)
    ensures Split(a + " " + b) == Split(a) + Split(b)
  {
    if |a| == 0 {
      assert a + " " + b == [' '] + b;
      assert (a + " " + b)[1..] == b;
    } else {
      assert (a + " " + b)[1..] == a[1..] + " " + b;
      SplitConcat(a[1..], b);
    }
  }

  /** A string without spaces is a single field. */
  lemma {:induction false} SplitWithoutSpace(a: string)
    requires ' ' !in a
    ensures Split(a) == [a]
  {
    if |a| > 0 {
      SplitWithoutSpace(a[1..]);
      assert [a[0]] + a[1..] == a;
    }
  }

  /**
   * Splitting the joined line recovers the tokens when no token holds a
   * space: exactly one space stands between neighbours, none at either end.
   */
  lemma {:induction false} SplitJoin(tokens: seq<string>)
    requires |tokens| >= 1
    requires forall i :: 0 <= i < |tokens| ==> ' ' !in tokens[i]
    ensures Split(Join(tokens)) == tokens
  {
    if |tokens| == 1 {
      SplitWithoutSpace(tokens[0]);
    } else {
      SplitConcat(tokens[0], Join(tokens[1..]));
      SplitWithoutSpace(tokens[0]);
      SplitJoin(tokens[1..]);
    }
  }

  /**
   * The StringBuilder loop of runCMake and runMake: each token is appended
   * after a prefix that is empty for the first token and a space afterwards.
   */
  method JoinWithSpaces(tokens: seq<string>) returns (line: string)
    ensures line == Join(tokens)
  {
    var prefix := "";
    line := "";
    var i := 0;
    while i < |tokens|
      invariant 0 <= i <= |tokens|
      invariant prefix == if i == 0 then "" else " "
      invariant line == Join(tokens[..i])
    {
      assert tokens[..i + 1] == tokens[..i] + [tokens[i]];
      if i > 0 {
        JoinAppend(tokens[..i], tokens[i]);
      }
      line := line + prefix + tokens[i];
      prefix := " ";
      i := i + 1;
    }
    assert tokens[..|tokens|] == tokens;
  }

  predicate IsDigits(s: string)
  {
    forall i :: 0 <= i < |s| ==> '0' <= s[i] <= '9'
  }

  function DigitChar(d: nat): (c: char)
    requires d < 10
    ensures '0' <= c <= '9'
  {
    ('0' as int + d) as char
  }

  /**
   * The decimal rendering of a count, as String.valueOf gives it for a
   * non-negative int: digits only, no leading zero unless the count is zero.
   */
  function DecimalString(n: nat): (s: string)
    ensures |s| >= 1 && IsDigits(s)
    ensures (s[0] == '0') == (n == 0)
  {
    if n < 10 then [DigitChar(n)] else DecimalString(n / 10) + [DigitChar(n % 10)]
  }

  /** The number a string of decimal digits denotes. */
  function DecimalValue(s: string): (n: nat)
    requires IsDigits(s)
  {
    if |s| == 0 then 0
    else 10 * DecimalValue(s[..|s| - 1]) + (s[|s| - 1] as int - '0' as int)
  }

  /** Reading the rendered count back gives the count. */
  lemma {:induction false} DecimalRoundTrip(n: nat)
    ensures DecimalValue(DecimalString(n)) == n
  {
    if n >= 10 {
      var s := DecimalString(n / 10);
      DecimalRoundTrip(n / 10);
      assert (s + [DigitChar(n % 10)])[..|s|] == s;
    }
  }

  /** A decimal rendering never holds a space. */
  lemma DecimalHasNoSpace(n: nat)
    ensures ' ' !in DecimalString(n)
  {
  }
}
