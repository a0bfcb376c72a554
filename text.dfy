/** Decimal rendering of integers and comma-joined lists: the two pieces of
    string building that the client's contracts depend on. */
module Text {

  predicate IsDigit(c: char) { '0' <= c <= '9' }

  predicate AllDigits(s: string) { forall i :: 0 <= i < |s| ==> IsDigit(s[i]) }

  function DigitChar(d: nat): (c: char)
    requires d < 10
    ensures IsDigit(c) && c as int - '0' as int == d
  {
    "0123456789"[d]
  }

  /** Decimal digits of `n`, most significant first, no leading zeros
      (JavaScript's `String(n)` for a non-negative safe integer). */
  function NatToString(n: nat): (s: string)
    ensures |s| >= 1 && AllDigits(s)
    ensures |s| > 1 ==> s[0] != '0'
    decreases n
  {
    if n < 10 then [DigitChar(n)] else NatToString(n / 10) + [DigitChar(n % 10)]
  }

  /** `String(i)` for any safe integer: a minus sign before the magnitude. */
  function IntToString(i: int): string {
    if i < 0 then "-" + NatToString(-i) else NatToString(i)
  }

  /** The number a string of decimal digits denotes. */
  function DecimalValue(s: string): nat
    requires AllDigits(s)
  {
    if s == [] then 0 else DecimalValue(s[..|s| - 1]) * 10 + (s[|s| - 1] as int - '0' as int)
  }

  /** Reading the rendered digits back gives the number again. */
  lemma {:induction false} DecimalRoundTrip(n: nat)
    ensures DecimalValue(NatToString(n)) == n
    decreases n
  {
    if n >= 10 {
      var s := NatToString(n);
      DecimalRoundTrip(n / 10);
      assert s[..|s| - 1] == NatToString(n / 10);
    }
  }

  /** Text `IntToString` can produce: digits, optionally after a minus sign. */
  predicate IsIntText(s: string) {
    if |s| > 0 && s[0] == '-' then AllDigits(s[1..]) else AllDigits(s)
  }

  /** The integer such a text denotes. */
  function IntValue(s: string): int
    requires IsIntText(s)
  {
    if |s| > 0 && s[0] == '-' then -(DecimalValue(s[1..]) as int) else DecimalValue(s)
  }

  /** Reading a rendered integer back gives the integer again. */
  lemma IntRoundTrip(i: int)
    ensures IsIntText(IntToString(i)) && IntValue(IntToString(i)) == i
  {
    if i < 0 {
      NegativeRoundTrip(i);
    } else {
      NonNegativeRoundTrip(i);
    }
  }

  lemma NegativeRoundTrip(i: int)
    requires i < 0
    ensures IsIntText(IntToString(i)) && IntValue(IntToString(i)) == i
  {
    var t := NatToString(-i);
    var s := "-" + t;
    assert s[0] == '-' && s[1..] == t;
    DecimalRoundTrip(-i);
    assert IntToString(i) == s;
  }

  lemma NonNegativeRoundTrip(i: nat)
    ensures IsIntText(IntToString(i)) && IntValue(IntToString(i)) == i
  {
    var s := IntToString(i);
    assert s == NatToString(i) && IsDigit(s[0]);
    DecimalRoundTrip(i);
  }

  /** `xs.join(sep)`: the elements with one separator between neighbours. */
  function Join(xs: seq<string>, sep: char): (s: string)
    ensures xs == [] ==> s == ""
    ensures |xs| == 1 ==> s == xs[0]
  {
    if xs == [] then "" else if |xs| == 1 then xs[0] else xs[0] + [sep] + Join(xs[1..], sep)
  }

  /** Index of the first `sep` in `s`, or `|s|` when there is none. */
  function FirstIndexOf(s: string, sep: char): (k: nat)
    ensures k <= |s|
    ensures k < |s| ==> s[k] == sep
    ensures forall i :: 0 <= i < k ==> s[i] != sep
  {
    if s == [] then 0 else if s[0] == sep then 0 else 1 + FirstIndexOf(s[1..], sep)
  }

  /** `s.split(sep)`: the maximal separator-free pieces, in order. */
  function Split(s: string, sep: char): (parts: seq<string>)
    ensures |parts| >= 1
    decreases |s|
  {
    var k := FirstIndexOf(s, sep);
    if k == |s| then [s] else [s[..k]] + Split(s[k + 1..], sep)
  }

  predicate NoSeparator(xs: seq<string>, sep: char) {
    forall i :: 0 <= i < |xs| ==> sep !in xs[i]
  }

  /** Splitting a joined list on the separator recovers the list, provided no
      element contains the separator and the list is not empty. */
  lemma {:induction false} SplitJoin(xs: seq<string>, sep: char)
    requires |xs| >= 1 && NoSeparator(xs, sep)
    ensures Split(Join(xs, sep), sep) == xs
    decreases |xs|
  {
    if |xs| == 1 {
      FirstIndexOfAbsent(xs[0], sep);
    } else {
      SplitJoinHead(xs, sep);
      SplitJoin(xs[1..], sep);
    }
  }

  /** Splitting a join of two or more elements cuts off the first one. */
  lemma SplitJoinHead(xs: seq<string>, sep: char)
    requires |xs| >= 2 && NoSeparator(xs, sep)
    ensures Split(Join(xs, sep), sep) == [xs[0]] + Split(Join(xs[1..], sep), sep)
  {
    var s := Join(xs, sep);
    assert s == xs[0] + ([sep] + Join(xs[1..], sep));
    FirstIndexOfPrefix(xs[0], [sep] + Join(xs[1..], sep), sep);
    var k := FirstIndexOf(s, sep);
    assert k == |xs[0]|;
    assert s[..k] == xs[0];
    assert s[k + 1..] == Join(xs[1..], sep);
  }

  lemma {:induction false} FirstIndexOfAbsent(s: string, sep: char)
    requires sep !in s
    ensures FirstIndexOf(s, sep) == |s|
  {
  }

  lemma {:induction false} FirstIndexOfPrefix(a: string, b: string, sep: char)
    requires sep !in a && |b| >= 1 && b[0] == sep
    ensures FirstIndexOf(a + b, sep) == |a|
  {
    assert (a + b)[|a|] == sep;
  }
}
