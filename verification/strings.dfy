/** Decimal digits as the launcher's JavaScript reads and writes them:
    `parseInt` on a run of digits, a number in a template string, `Array.join`. */
module Strings {

  predicate IsDigit(c: char)
  {
    '0' <= c <= '9'
  }

  predicate AllDigits(s: string)
  {
    forall i | 0 <= i < |s| :: IsDigit(s[i])
  }

  function DigitValue(c: char): (d: nat)
    requires IsDigit(c)
    ensures d < 10
  {
    c as int - '0' as int
  }

  function DigitChar(d: nat): (c: char)
    requires d < 10
    ensures IsDigit(c) && DigitValue(c) == d
  {
    ('0' as int + d) as char
  }

  /** The value `parseInt` gives a (non-empty) run of decimal digits; leading zeros are
      allowed. Numbers beyond 2^53, where `parseInt` rounds, are not modelled. */
  function DecimalValue(s: string): nat
    requires AllDigits(s)
    decreases |s|
  {
    if s == [] then 0 else 10 * DecimalValue(s[..|s| - 1]) + DigitValue(s[|s| - 1])
  }

  /** The decimal rendering of a natural number, as `${n}` writes it. */
  function NatToDecimal(n: nat): (s: string)
    ensures |s| > 0 && AllDigits(s)
    ensures DecimalValue(s) == n
    decreases n
  {
    if n < 10 then [DigitChar(n)]
    else
      var p := NatToDecimal(n / 10);
      var s := p + [DigitChar(n % 10)];
      assert s[..|s| - 1] == p;
      s
  }

  /** The decimal rendering of an integer, with a leading '-' when negative. */
  function IntToString(i: int): (s: string)
    ensures |s| > 0
  {
    if i < 0 then "-" + NatToDecimal(-i) else NatToDecimal(i)
  }

  /** Different integers are rendered differently: the number can be read back. */
  lemma IntToStringInjective(i: int, j: int)
    requires IntToString(i) == IntToString(j)
    ensures i == j
  {
    var s := IntToString(i);
    // the sign is read from the first character
    assert i >= 0 ==> IsDigit(s[0]);
    assert j >= 0 ==> IsDigit(s[0]);
    if s[0] == '-' {
      assert s[1..] == NatToDecimal(-i) == NatToDecimal(-j);
    }
  }

  /** `xs.join(sep)`; the empty list joins to the empty string. */
  function Join(xs: seq<string>, sep: string): string
  {
    if xs == [] then ""
    else if |xs| == 1 then xs[0]
    else xs[0] + sep + Join(xs[1..], sep)
  }

  /** Two strings with a common prefix are equal exactly when what follows it is. */
  lemma PrefixCancel(p: string, x: string, y: string)
    requires p + x == p + y
    ensures x == y
  {
    assert x == (p + x)[|p|..];
    assert y == (p + y)[|p|..];
  }

  lemma SuffixCancel(x: string, y: string, q: string)
    requires x + q == y + q
    ensures x == y
  {
    assert x == (x + q)[..|x|];
    assert y == (y + q)[..|y|];
  }

  /** Text framed by the same head and tail determines what is between them. */
  lemma MiddleCancel(head: string, x: string, y: string, tail: string)
    requires head + x + tail == head + y + tail
    ensures x == y
  {
    assert head + x + tail == head + (x + tail);
    assert head + y + tail == head + (y + tail);
    PrefixCancel(head, x + tail, y + tail);
    SuffixCancel(x, y, tail);
  }
}
