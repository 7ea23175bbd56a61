/**
 * String vocabulary shared by the model: ASCII character classes, prefix and
 * substring tests, first-occurrence splitting, replacement, and the decimal
 * rendering that Python's f-strings apply to integers.
 *
 * Python strings are modelled as `string` (a sequence of Unicode scalar
 * values); every character class below is the ASCII part of Python's class.
 */
module Strings {

  datatype Option<T> = None | Some(value: T) {
    function GetOr(default: T): T {
      match this
      case Some(v) => v
      case None => default
    }
  }

  // ---------------------------------------------------------------------------
  // Character classes
  // ---------------------------------------------------------------------------

  predicate IsAsciiUpper(c: char) { 'A' <= c <= 'Z' }
  predicate IsAsciiLower(c: char) { 'a' <= c <= 'z' }
  predicate IsAsciiLetter(c: char) { IsAsciiUpper(c) || IsAsciiLower(c) }
  predicate IsDigit(c: char) { '0' <= c <= '9' }

  /** `\w` restricted to ASCII: letters, digits and the underscore. */
  predicate IsWordChar(c: char) { IsAsciiLetter(c) || IsDigit(c) || c == '_' }

  /** The ASCII characters Python's `\s` matches (str.isspace on code points below 128). */
  predicate IsSpace(c: char) {
    c == ' ' || ('\t' <= c <= '\r') || ('\U{1c}' <= c <= '\U{1f}')
  }

  predicate IsQuote(c: char) { c == '"' || c == '\'' }

  /** `str.lower()` on one character, ASCII only. */
  function LowerChar(c: char): (r: char)
    ensures IsAsciiUpper(c) ==> r == (c as int + 32) as char
    ensures !IsAsciiUpper(c) ==> r == c
  {
    if IsAsciiUpper(c) then (c as int + 32) as char else c
  }

  function Lower(s: string): (r: string)
    ensures |r| == |s|
    ensures forall i :: 0 <= i < |s| ==> r[i] == LowerChar(s[i])
  {
    seq(|s|, i requires 0 <= i < |s| => LowerChar(s[i]))
  }

  /** `s.replace(a, b)` where both arguments are single characters. */
  function ReplaceChar(s: string, a: char, b: char): (r: string)
    ensures |r| == |s|
    ensures forall i :: 0 <= i < |s| ==> r[i] == (if s[i] == a then b else s[i])
  {
    seq(|s|, i requires 0 <= i < |s| => if s[i] == a then b else s[i])
  }

  // ---------------------------------------------------------------------------
  // Prefixes and substrings
  // ---------------------------------------------------------------------------

  /** `s.startswith(t)`. */
  predicate StartsWith(s: string, t: string) { t <= s }

  /** `t in s` for strings: t occurs at some position of s. */
  predicate Contains(s: string, t: string)
    decreases |s|
  {
    StartsWith(s, t) || (|s| > 0 && Contains(s[1..], t))
  }

  lemma {:induction false} ContainsAt(s: string, i: nat, t: string)
    requires i <= |s| && StartsWith(s[i..], t)
    ensures Contains(s, t)
    decreases i
  {
    if i > 0 {
      assert s[1..][i - 1..] == s[i..];
      ContainsAt(s[1..], i - 1, t);
    }
  }

  lemma {:induction false} ContainsWitness(s: string, t: string) returns (i: nat)
    requires Contains(s, t)
    ensures i <= |s| && StartsWith(s[i..], t)
    decreases |s|
  {
    if StartsWith(s, t) {
      i := 0;
    } else {
      var j := ContainsWitness(s[1..], t);
      assert s[1..][j..] == s[j + 1..];
      i := j + 1;
    }
  }

  /** A substring of a substring is a substring. */
  lemma ContainsTrans(s: string, u: string, t: string)
    requires Contains(s, u) && Contains(u, t)
    ensures Contains(s, t)
  {
    var i := ContainsWitness(s, u);
    var j := ContainsWitness(u, t);
    assert s[i..][j..] == s[i + j..];
    assert u[j..][..|t|] == t;
    assert s[i + j..][..|t|] == u[j..][..|t|];
    ContainsAt(s, i + j, t);
  }

  lemma ContainsConcatLeft(a: string, b: string, t: string)
    requires Contains(a, t)
    ensures Contains(a + b, t)
  {
    var i := ContainsWitness(a, t);
    assert (a + b)[i..] == a[i..] + b;
    ContainsAt(a + b, i, t);
  }

  lemma ContainsConcatRight(a: string, b: string, t: string)
    requires Contains(b, t)
    ensures Contains(a + b, t)
  {
    var i := ContainsWitness(b, t);
    assert (a + b)[|a| + i..] == b[i..];
    ContainsAt(a + b, |a| + i, t);
  }

  lemma ContainsSelf(s: string)
    ensures Contains(s, s)
  {
    assert StartsWith(s, s);
  }

  /** The end of a concatenation occurs in it. */
  lemma ContainsSuffix(a: string, t: string)
    ensures Contains(a + t, t)
  {
    assert (a + t)[|a|..] == t;
    ContainsAt(a + t, |a|, t);
  }

  /** A prefix of a string that does not contain `t` does not contain it either. */
  lemma NotContainsPrefix(s: string, a: string, t: string)
    requires StartsWith(s, a) && !Contains(s, t)
    ensures !Contains(a, t)
  {
    assert s == a + s[|a|..];
    if Contains(a, t) {
      ContainsConcatLeft(a, s[|a|..], t);
    }
  }

  /** A string in which `t[0]` does not occur does not contain `t`. */
  lemma {:induction false} NotContainsWithoutFirstChar(s: string, t: string)
    requires |t| > 0 && t[0] !in s
    ensures !Contains(s, t)
    decreases |s|
  {
    if |s| > 0 {
      assert forall c :: c in s[1..] ==> c in s;
      NotContainsWithoutFirstChar(s[1..], t);
    }
  }

  /** When `t[0]` occurs in `s` only at `p` and `t` does not start there, `s` does not contain `t`. */
  lemma NotContainsUniqueStart(s: string, t: string, p: nat)
    requires |t| > 0 && p < |s|
    requires forall i :: 0 <= i < |s| && i != p ==> s[i] != t[0]
    requires !StartsWith(s[p..], t)
    ensures !Contains(s, t)
  {
    if Contains(s, t) {
      var i := ContainsStart(s, t);
    }
  }

  /** A non-empty t that occurs in s starts at a position holding `t[0]`. */
  lemma ContainsStart(s: string, t: string) returns (i: nat)
    requires |t| > 0 && Contains(s, t)
    ensures i < |s| && s[i] == t[0] && StartsWith(s[i..], t)
  {
    i := ContainsWitness(s, t);
    assert s[i..][0] == t[0];
  }

  // ---------------------------------------------------------------------------
  // Splitting at the first occurrence of a separator
  // ---------------------------------------------------------------------------

  /**
   * `s.split(sep, 1)` when `sep` occurs in `s`: the text before the first
   * occurrence and the text after it; None when `sep` does not occur.
   */
  function SplitFirst(s: string, sep: string): (r: Option<(string, string)>)
    requires |sep| > 0
    ensures r.Some? ==> s == r.value.0 + sep + r.value.1
    ensures r.Some? ==> forall i :: 0 <= i < |r.value.0| ==> !StartsWith(s[i..], sep)
    ensures r.None? <==> !Contains(s, sep)
    decreases |s|
  {
    if StartsWith(s, sep) then Some(([], s[|sep|..]))
    else if |s| == 0 then None
    else match SplitFirst(s[1..], sep)
      case None => None
      case Some(parts) =>
        var a := [s[0]] + parts.0;
        assert forall i :: 1 <= i < |a| ==> s[i..] == s[1..][i - 1..];
        Some((a, parts.1))
  }

  /** Any string that is a separator-free prefix followed by the separator splits there. */
  lemma {:induction false} SplitFirstOfConcat(a: string, sep: string, b: string)
    requires |sep| > 0
    requires forall i :: 0 <= i < |a| ==> !StartsWith((a + sep + b)[i..], sep)
    ensures SplitFirst(a + sep + b, sep) == Some((a, b))
    decreases |a|
  {
    var s := a + sep + b;
    if |a| == 0 {
      assert s == sep + b;
      assert StartsWith(s, sep);
      assert s[|sep|..] == b;
    } else {
      assert !StartsWith(s[0..], sep);
      assert s[0..] == s;
      assert s[1..] == a[1..] + sep + b;
      forall i | 0 <= i < |a[1..]|
        ensures !StartsWith((a[1..] + sep + b)[i..], sep)
      {
        assert (a[1..] + sep + b)[i..] == s[i + 1..];
      }
      SplitFirstOfConcat(a[1..], sep, b);
      assert [s[0]] + a[1..] == a;
    }
  }

  /** A prefix of `s` before which no occurrence of `sep` starts does not contain `sep`. */
  lemma PrefixWithoutOccurrence(s: string, a: string, sep: string)
    requires StartsWith(s, a)
    requires forall i :: 0 <= i < |a| ==> !StartsWith(s[i..], sep)
    ensures |sep| > 0 ==> !Contains(a, sep)
  {
    if |sep| > 0 && Contains(a, sep) {
      var i := ContainsWitness(a, sep);
      OccurrenceInPrefix(s, a, sep, i);
    }
  }

  lemma OccurrenceInPrefix(s: string, a: string, sep: string, i: nat)
    requires StartsWith(s, a) && |sep| > 0
    requires i <= |a| && StartsWith(a[i..], sep)
    ensures i < |a| && StartsWith(s[i..], sep)
  {
    assert forall k :: 0 <= k < |sep| ==> s[i..][k] == a[i..][k];
  }

  /** When the separator's first character does not occur in `a`, `a + sep + b` splits right after `a`. */
  lemma SplitAfterSeparatorFree(a: string, sep: string, b: string)
    requires |sep| > 0 && sep[0] !in a
    ensures SplitFirst(a + sep + b, sep) == Some((a, b))
  {
    forall i | 0 <= i < |a|
      ensures !StartsWith((a + sep + b)[i..], sep)
    {
      assert (a + sep + b)[i..][0] == a[i];
    }
    SplitFirstOfConcat(a, sep, b);
  }

  /** `s.split(sep)[0]`: everything before the first `sep`, or all of `s`. */
  function Before(s: string, sep: string): (r: string)
    requires |sep| > 0
    ensures StartsWith(s, r)
    ensures !Contains(r, sep)
    ensures Contains(s, sep) ==> StartsWith(s[|r|..], sep)
    ensures !Contains(s, sep) ==> r == s
  {
    match SplitFirst(s, sep)
    case None => s
    case Some(parts) =>
      assert s[|parts.0|..] == sep + parts.1;
      PrefixWithoutOccurrence(s, parts.0, sep);
      parts.0
  }

  // ---------------------------------------------------------------------------
  // Replacement
  // ---------------------------------------------------------------------------

  /** `s.replace(pat, rep)`: every non-overlapping occurrence, scanned left to right. */
  function ReplaceAll(s: string, pat: string, rep: string): (r: string)
    requires |pat| > 0
    ensures !Contains(s, pat) ==> r == s
    decreases |s|
  {
    if StartsWith(s, pat) then rep + ReplaceAll(s[|pat|..], pat, rep)
    else if |s| == 0 then []
    else [s[0]] + ReplaceAll(s[1..], pat, rep)
  }

  /** `sep.join(xs)`. */
  function Join(xs: seq<string>, sep: string): (r: string)
    ensures |xs| == 0 ==> r == ""
    ensures |xs| == 1 ==> r == xs[0]
    decreases |xs|
  {
    if |xs| == 0 then "" else if |xs| == 1 then xs[0] else xs[0] + sep + Join(xs[1..], sep)
  }

  /** Every joined piece, and every separator between two pieces, occurs in the result. */
  lemma {:induction false} JoinContains(xs: seq<string>, sep: string)
    ensures forall x :: x in xs ==> Contains(Join(xs, sep), x)
    ensures |xs| >= 2 ==> Contains(Join(xs, sep), sep)
    decreases |xs|
  {
    if |xs| == 1 {
      ContainsSelf(xs[0]);
    } else if |xs| >= 2 {
      var tail := Join(xs[1..], sep);
      JoinContains(xs[1..], sep);
      assert Join(xs, sep) == xs[0] + (sep + tail);
      ContainsSelf(xs[0]);
      ContainsConcatLeft(xs[0], sep + tail, xs[0]);
      ContainsSelf(sep);
      ContainsConcatLeft(sep, tail, sep);
      ContainsConcatRight(xs[0], sep + tail, sep);
      forall x | x in xs[1..]
        ensures Contains(Join(xs, sep), x)
      {
        ContainsConcatRight(sep, tail, x);
        ContainsConcatRight(xs[0], sep + tail, x);
      }
    }
  }

  // ---------------------------------------------------------------------------
  // Decimal rendering of integers (f"{n}") and its inverse
  // ---------------------------------------------------------------------------

  function DigitChar(d: nat): (c: char)
    requires d < 10
    ensures IsDigit(c)
  {
    ('0' as int + d) as char
  }

  function DigitValue(c: char): (d: nat)
    requires IsDigit(c)
    ensures d < 10 && DigitChar(d) == c
  {
    c as int - '0' as int
  }

  predicate AllDigits(s: string) {
    forall i :: 0 <= i < |s| ==> IsDigit(s[i])
  }

  /** `str(n)` for a natural number: most significant digit first, no leading zeros. */
  function NatToDecimal(n: nat): (r: string)
    ensures |r| >= 1 && AllDigits(r)
    ensures r[0] == '0' ==> n == 0
    decreases n
  {
    if n < 10 then [DigitChar(n)] else NatToDecimal(n / 10) + [DigitChar(n % 10)]
  }

  /** `str(i)` for any integer. */
  function IntToDecimal(i: int): (r: string)
    ensures |r| >= 1
    ensures i < 0 <==> r[0] == '-'
    ensures forall k :: 0 < k < |r| ==> IsDigit(r[k])
  {
    if i < 0 then "-" + NatToDecimal(-i) else NatToDecimal(i)
  }

  function ParseDigits(s: string): nat
    requires AllDigits(s)
    decreases |s|
  {
    if |s| == 0 then 0 else ParseDigits(s[..|s| - 1]) * 10 + DigitValue(s[|s| - 1])
  }

  /** `int(s)` for the strings `str` produces: an optional minus sign and at least one digit. */
  function ParseInt(s: string): Option<int> {
    if |s| >= 2 && s[0] == '-' && AllDigits(s[1..]) then Some(-(ParseDigits(s[1..]) as int))
    else if |s| >= 1 && AllDigits(s) then Some(ParseDigits(s))
    else None
  }

  lemma {:induction false} ParseNatToDecimal(n: nat)
    ensures ParseDigits(NatToDecimal(n)) == n
    decreases n
  {
    if n >= 10 {
      var r := NatToDecimal(n);
      ParseNatToDecimal(n / 10);
      assert r[..|r| - 1] == NatToDecimal(n / 10);
    }
  }

  /** Rendering an integer and reading it back gives the integer again. */
  lemma IntToDecimalRoundTrip(i: int)
    ensures ParseInt(IntToDecimal(i)) == Some(i)
  {
    if i < 0 {
      var r := IntToDecimal(i);
      assert r[1..] == NatToDecimal(-i);
      ParseNatToDecimal(-i);
    } else {
      ParseNatToDecimal(i);
    }
  }

  /** Distinct integers render differently. */
  lemma IntToDecimalInjective(i: int, j: int)
    requires IntToDecimal(i) == IntToDecimal(j)
    ensures i == j
  {
    IntToDecimalRoundTrip(i);
    IntToDecimalRoundTrip(j);
  }

  // ---------------------------------------------------------------------------
  // Sequences without repetition
  // ---------------------------------------------------------------------------

  predicate NoDuplicates<T(==)>(xs: seq<T>) {
    forall i, j :: 0 <= i < j < |xs| ==> xs[i] != xs[j]
  }
}
