/** Clamping, and rounding to four decimals the way the statistic service does it. */
module Rounding {

  function Clamp(value: real, low: real, high: real): real {
    if value < low then low else if value > high then high else value
  }

  /** Go's conversion of a float to an integer: towards zero. */
  function Truncate(x: real): int {
    if x >= 0.0 then x.Floor else -((-x).Floor)
  }

  function Round4(value: real): real {
    Truncate(value * 10000.0 + 0.5) as real / 10000.0
  }

  lemma {:induction false} Round4Close(x: real)
    requires x >= 0.0
    ensures -1.0 / 20000.0 <= Round4(x) - x <= 1.0 / 20000.0
    ensures Round4(x) >= 0.0
  {
    var n := Truncate(x * 10000.0 + 0.5);
    assert n as real <= x * 10000.0 + 0.5 < n as real + 1.0;
    assert n >= 0;
  }

  /** A value rounds to the multiple of 1/10000 nearest to it, from halfway on to the upper one. */
  lemma {:induction false} Round4IsNearest(x: real, n: nat)
    requires x >= 0.0
    ensures Round4(x) == n as real / 10000.0 <==> n as real - 0.5 <= x * 10000.0 < n as real + 0.5
  {
    var m := Truncate(x * 10000.0 + 0.5);
    assert m as real <= x * 10000.0 + 0.5 < m as real + 1.0;
    assert m as real / 10000.0 == n as real / 10000.0 <==> m == n;
  }

  lemma {:induction false} Round4Monotone(x: real, y: real)
    requires 0.0 <= x <= y
    ensures Round4(x) <= Round4(y)
  {
    var m, n := Truncate(x * 10000.0 + 0.5), Truncate(y * 10000.0 + 0.5);
    assert m as real <= x * 10000.0 + 0.5 < n as real + 1.0;
    assert m <= n;
  }

  lemma {:induction false} Round4OfWhole(n: nat)
    ensures Round4(n as real) == n as real
  {
    assert n as real * 10000.0 == (n * 10000) as real;
    assert Truncate((n * 10000) as real + 0.5) == n * 10000;
  }

  /** Rounding does not leave an interval with whole ends. */
  lemma {:induction false} Round4Within(x: real, low: nat, high: nat)
    requires low as real <= x <= high as real
    ensures low as real <= Round4(x) <= high as real
  {
    Round4OfWhole(low);
    Round4OfWhole(high);
    Round4Monotone(low as real, x);
    Round4Monotone(x, high as real);
  }
}
