/** Numbers in decimal notation. */
module Numerals {
  function Digit(d: nat): char
    requires d < 10
  {
    "0123456789"[d]
  }

  /** A sequence number as text. */
  function Decimal(n: nat): (text: string)
    ensures |text| > 0 && (n < 10 <==> |text| == 1)
  {
    if n < 10 then [Digit(n)] else Decimal(n / 10) + [Digit(n % 10)]
  }

  lemma {:induction false} DecimalInjective(m: nat, n: nat)
    requires Decimal(m) == Decimal(n)
    ensures m == n
  {
    var last := |Decimal(m)| - 1;
    assert Decimal(m)[last] == Digit(m % 10) && Decimal(n)[last] == Digit(n % 10);
    if m >= 10 {
      assert Decimal(m)[..last] == Decimal(m / 10) && Decimal(n)[..last] == Decimal(n / 10);
      DecimalInjective(m / 10, n / 10);
    }
  }

  predicate IsDigit(c: char) {
    '0' <= c <= '9'
  }

  lemma {:induction false} DecimalDigits(n: nat)
    ensures forall i :: 0 <= i < |Decimal(n)| ==> IsDigit(Decimal(n)[i])
  {
    if n >= 10 { DecimalDigits(n / 10); }
  }
}
