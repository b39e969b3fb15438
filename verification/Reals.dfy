/** Facts about division and rounding of exact reals. Floating-point rounding is not modelled. */
module Reals {

  function Positive(x: real): real {
    if x > 0.0 then x else 0.0
  }

  lemma {:induction false} QuotientUnique(x: real, y: real, q: real)
    requires y != 0.0 && q * y == x
    ensures x / y == q
  {
    assert (x / y - q) * y == 0.0;
  }

  lemma {:induction false} SelfQuotient(x: real)
    requires x != 0.0
    ensures x / x == 1.0
  {
    QuotientUnique(x, x, 1.0);
  }

  lemma {:induction false} QuotientTimes(x: real, y: real)
    requires y != 0.0
    ensures x / y * y == x
  {
  }

  lemma {:induction false} QuotientOfSum(x: real, z: real, y: real)
    requires y != 0.0
    ensures (x + z) / y == x / y + z / y
  {
    QuotientTimes(x, y);
    QuotientTimes(z, y);
    QuotientUnique(x + z, y, x / y + z / y);
  }

  lemma {:induction false} TimesMonotone(x: real, z: real, y: real)
    requires x <= z && y >= 0.0
    ensures x * y <= z * y
  {
    assert (z - x) * y >= 0.0;
  }

  lemma {:induction false} TimesStrictlyMonotone(x: real, z: real, y: real)
    requires x < z && y > 0.0
    ensures x * y < z * y
  {
    assert (z - x) * y > 0.0;
  }

  lemma {:induction false} QuotientSign(x: real, y: real)
    requires y > 0.0
    ensures x / y > 0.0 <==> x > 0.0
    ensures x / y >= 0.0 <==> x >= 0.0
  {
    QuotientTimes(x, y);
    if x / y > 0.0 { TimesStrictlyMonotone(0.0, x / y, y); }
    if x / y < 0.0 { TimesStrictlyMonotone(x / y, 0.0, y); }
  }

  lemma {:induction false} QuotientMonotone(x: real, z: real, y: real)
    requires x <= z && y > 0.0
    ensures x / y <= z / y
  {
    QuotientSign(z - x, y);
    QuotientOfSum(x, z - x, y);
  }

  /** A part of a positive whole is a share between 0 and 1. */
  lemma {:induction false} ShareInUnit(x: real, y: real)
    requires 0.0 <= x <= y && y > 0.0
    ensures 0.0 <= x / y <= 1.0
  {
    QuotientSign(x, y);
    QuotientMonotone(x, y, y);
    QuotientUnique(y, y, 1.0);
  }

  /** `c` added up `n` times. */
  function Times(c: real, n: nat): real {
    if n == 0 then 0.0 else Times(c, n - 1) + c
  }

  lemma {:induction false} TimesIsProduct(c: real, n: nat)
    ensures Times(c, n) == c * n as real
  {
    if n > 0 {
      TimesIsProduct(c, n - 1);
      assert n as real == (n - 1) as real + 1.0;
      assert c * ((n - 1) as real + 1.0) == c * (n - 1) as real + c;
    }
  }

  lemma {:induction false} MeanAddsBack(total: real, n: nat)
    requires n > 0
    ensures Times(total / n as real, n) == total
  {
    TimesIsProduct(total / n as real, n);
    QuotientTimes(total, n as real);
  }
}
