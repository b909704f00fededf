// The "%d" verb: the decimal form of an integer, and its inverse.
module Decimal {
  import opened Api

  predicate IsDigit(c: char) { '0' <= c <= '9' }

  function Digit(d: nat): (c: char)
    requires d < 10
    ensures IsDigit(c)
  {
    '0' + d as char
  }

  lemma DigitSpelled(d: nat)
    requires d < 10
    ensures Digit(d) == "0123456789"[d]
  {
  }

  function DigitValue(c: char): nat
    requires IsDigit(c)
  {
    (c - '0') as nat
  }

  function NatText(n: nat): (s: string)
    ensures |s| > 0
    ensures forall i :: 0 <= i < |s| ==> IsDigit(s[i])
  {
    if n < 10 then [Digit(n)] else NatText(n / 10) + [Digit(n % 10)]
  }

  function Text(n: int): string {
    if n < 0 then "-" + NatText(-n) else NatText(n)
  }

  function ParseNat(s: string): Option<nat> {
    if |s| == 0 || !IsDigit(s[|s| - 1]) then None
    else
      var low := DigitValue(s[|s| - 1]);
      if |s| == 1 then Some(low)
      else
        match ParseNat(s[..|s| - 1])
        case Some(high) => Some(10 * high + low)
        case None => None
  }

  function Parse(s: string): Option<int> {
    if |s| > 0 && s[0] == '-' then
      match ParseNat(s[1..])
      case Some(n) => Some(0 - n as int)
      case None => None
    else
      match ParseNat(s)
      case Some(n) => Some(n)
      case None => None
  }

  lemma {:induction false} ParseNatText(n: nat)
    ensures ParseNat(NatText(n)) == Some(n)
  {
    if n < 10 {
    } else {
      ParseNatText(n / 10);
      assert NatText(n)[..|NatText(n)| - 1] == NatText(n / 10);
    }
  }

  /** Printing and reading back is the identity, so distinct numbers print differently. */
  lemma ParseText(n: int)
    ensures Parse(Text(n)) == Some(n)
  {
    if n < 0 {
      ParseNatText(-n);
      assert Text(n)[1..] == NatText(-n);
    } else {
      ParseNatText(n);
      assert IsDigit(NatText(n)[0]);
    }
  }

  lemma TextInjective(m: int, n: int)
    requires Text(m) == Text(n)
    ensures m == n
  {
    ParseText(m);
    ParseText(n);
  }
}
