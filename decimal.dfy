/** Decimal text of integers, as `Number.prototype.toString()` writes it for integral values. */
module Decimal {
  import opened Strings
  import opened Wrappers

  function DigitChar(d: nat): (c: char)
    requires d < 10
    ensures IsDigit(c)
  {
    ('0' as int + d) as char
  }

  function DigitValue(c: char): (d: nat)
    requires IsDigit(c)
    ensures d < 10
  {
    c as int - '0' as int
  }

  /** The decimal digits of `n`, most significant first, without leading zeros. */
  function NatString(n: nat): (r: string)
    ensures |r| >= 1
    ensures forall i :: 0 <= i < |r| ==> IsDigit(r[i])
    ensures |r| > 1 ==> r[0] != '0'
  {
    if n < 10 then [DigitChar(n)] else NatString(n / 10) + [DigitChar(n % 10)]
  }

  /** `String(i)` for an integral number: an optional '-' then the digits of |i|. */
  function IntString(i: int): (r: string)
    ensures |r| >= 1
    ensures i >= 0 ==> r == NatString(i)
    ensures i < 0 ==> r == "-" + NatString(-i)
  {
    if i < 0 then "-" + NatString(-i) else NatString(i)
  }

  /** The value of a non-empty string of decimal digits; `None` for any other string. */
  function ParseNat(s: string): (r: Option<nat>)
    ensures r.Some? <==> |s| >= 1 && forall i :: 0 <= i < |s| ==> IsDigit(s[i])
  {
    if s == [] then None
    else if !IsDigit(s[|s| - 1]) then None
    else if |s| == 1 then Some(DigitValue(s[0]))
    else
      match ParseNat(s[..|s| - 1])
      case None => None
      case Some(v) => Some(v * 10 + DigitValue(s[|s| - 1]))
  }

  /** Reading back the digits `NatString` writes gives the number back. */
  lemma {:induction false} ParseNatString(n: nat)
    ensures ParseNat(NatString(n)) == Some(n)
  {
    if n >= 10 {
      var s := NatString(n);
      ParseNatString(n / 10);
      assert s[..|s| - 1] == NatString(n / 10);
    }
  }
}
