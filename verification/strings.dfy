/**
 * String helpers shared by the scanners: ASCII lower-casing, substring
 * search, prefix/suffix tests, the ", " join used for header lists and
 * distinguished names together with its inverse, and decimal rendering of
 * integers (Python's `str(int)`) together with its inverse.
 */
module Strings {

  /** Lower-casing of one character; only ASCII letters change. */
  function LowerChar(c: char): char {
    if 'A' <= c <= 'Z' then (c as int + 32) as char else c
  }

  /** `s.lower()`, restricted to ASCII letters. */
  function Lower(s: string): string {
    seq(|s|, i requires 0 <= i < |s| => LowerChar(s[i]))
  }

  lemma LowerIdempotent(s: string)
    ensures Lower(Lower(s)) == Lower(s)
  {
  }

  /** `pat` occurs in `s` starting at index `i`. */
  predicate OccursAt(s: string, pat: string, i: nat) {
    i + |pat| <= |s| && s[i..i + |pat|] == pat
  }

  /** Python's `pat in s`. */
  predicate Contains(s: string, pat: string) {
    exists i: nat | i <= |s| :: OccursAt(s, pat, i)
  }

  /** Python's `s.startswith(p)`. */
  predicate StartsWith(s: string, p: string) {
    |p| <= |s| && s[..|p|] == p
  }

  /** Python's `s.endswith(p)`. */
  predicate EndsWith(s: string, p: string) {
    |p| <= |s| && s[|s| - |p|..] == p
  }

  /** Python's `sep.join(xs)`. */
  function Join(sep: string, xs: seq<string>): string
    decreases |xs|
  {
    if |xs| == 0 then ""
    else if |xs| == 1 then xs[0]
    else xs[0] + sep + Join(sep, xs[1..])
  }

  /** The separator of header lists and rendered distinguished names. */
  const ListSeparator: string := ", "

  predicate CommaFree(s: string) {
    forall i :: 0 <= i < |s| ==> s[i] != ','
  }

  /** Index of the first ", " at or after `i`, or `|s|` when there is none. */
  function SeparatorFrom(s: string, i: nat): (r: nat)
    requires i <= |s|
    ensures i <= r <= |s|
    ensures r < |s| ==> r + 1 < |s| && s[r] == ',' && s[r + 1] == ' '
    decreases |s| - i
  {
    if i + 1 >= |s| then |s|
    else if s[i] == ',' && s[i + 1] == ' ' then i
    else SeparatorFrom(s, i + 1)
  }

  /** Splits a string at every ", "; the inverse of `Join(ListSeparator, _)`. */
  function SplitList(s: string): (r: seq<string>)
    ensures |r| >= 1
    decreases |s|
  {
    var j := SeparatorFrom(s, 0);
    if j == |s| then [s] else [s[..j]] + SplitList(s[j + 2..])
  }

  lemma {:induction false} SeparatorAbsent(a: string, i: nat)
    requires CommaFree(a) && i <= |a|
    ensures SeparatorFrom(a, i) == |a|
    decreases |a| - i
  {
    if i + 1 < |a| {
      assert a[i] != ',';
      SeparatorAbsent(a, i + 1);
    }
  }

  lemma {:induction false} SeparatorAfterItem(a: string, t: string, i: nat)
    requires CommaFree(a) && i <= |a|
    ensures SeparatorFrom(a + ListSeparator + t, i) == |a|
    decreases |a| - i
  {
    var s := a + ListSeparator + t;
    if i < |a| {
      assert s[i] == a[i];
      SeparatorAfterItem(a, t, i + 1);
    } else {
      assert s[i] == ',' && s[i + 1] == ' ';
    }
  }

  /** Joining comma-free items with ", " and splitting again gives the items back. */
  lemma {:induction false} SplitJoin(xs: seq<string>)
    requires |xs| >= 1
    requires forall k :: 0 <= k < |xs| ==> CommaFree(xs[k])
    ensures SplitList(Join(ListSeparator, xs)) == xs
    decreases |xs|
  {
    if |xs| == 1 {
      SeparatorAbsent(xs[0], 0);
    } else {
      var rest := Join(ListSeparator, xs[1..]);
      var s := xs[0] + ListSeparator + rest;
      assert Join(ListSeparator, xs) == s;
      SeparatorAfterItem(xs[0], rest, 0);
      assert s[..|xs[0]|] == xs[0];
      assert s[|xs[0]| + 2..] == rest;
      SplitJoin(xs[1..]);
      assert [xs[0]] + xs[1..] == xs;
    }
  }

  predicate IsDigit(c: char) {
    '0' <= c <= '9'
  }

  function DigitChar(d: nat): (c: char)
    requires d < 10
    ensures IsDigit(c)
  {
    ('0' as int + d) as char
  }

  /** Python's `str(n)` for a non-negative integer. */
  function NatToDecimal(n: nat): (r: string)
    ensures |r| >= 1
    ensures forall i :: 0 <= i < |r| ==> IsDigit(r[i])
    ensures r[0] == '0' ==> n == 0 && r == "0"
    decreases n
  {
    if n < 10 then [DigitChar(n)] else NatToDecimal(n / 10) + [DigitChar(n % 10)]
  }

  /** The number a string of decimal digits denotes. */
  function DecimalValue(s: string): nat
    requires forall i :: 0 <= i < |s| ==> IsDigit(s[i])
    decreases |s|
  {
    if s == [] then 0
    else
      assert IsDigit(s[|s| - 1]);
      DecimalValue(s[..|s| - 1]) * 10 + (s[|s| - 1] as int - '0' as int)
  }

  /** Reading back the rendered decimal string recovers the number. */
  lemma {:induction false} DecimalRoundTrip(n: nat)
    ensures DecimalValue(NatToDecimal(n)) == n
    decreases n
  {
    if n >= 10 {
      var r := NatToDecimal(n);
      assert r[..|r| - 1] == NatToDecimal(n / 10);
      DecimalRoundTrip(n / 10);
    }
  }

  /** Python's `str(i)` for any integer. */
  function IntToDecimal(i: int): (r: string)
    ensures |r| >= 1
    ensures i < 0 <==> r[0] == '-'
    ensures i >= 0 ==> r == NatToDecimal(i)
    ensures i < 0 ==> r[1..] == NatToDecimal(-i)
  {
    if i < 0 then "-" + NatToDecimal(-i) else NatToDecimal(i)
  }
}
