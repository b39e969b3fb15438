/** Python's `round` on exact reals: to the nearest multiple of the last digit kept, ties to the even one. */
module PythonRounding {

  function NearestEven(x: real): int {
    var f := x.Floor;
    var d := x - f as real;
    if d < 0.5 then f else if d > 0.5 then f + 1 else if f % 2 == 0 then f else f + 1
  }

  function PyRound4(x: real): real {
    NearestEven(x * 10000.0) as real / 10000.0
  }

  function PyRound2(x: real): real {
    NearestEven(x * 100.0) as real / 100.0
  }

  /** The nearest multiple of 1/100; halfway between two, the even one. */
  lemma {:induction false} PyRound2IsNearest(x: real, n: int)
    ensures n as real - 0.5 < x * 100.0 < n as real + 0.5 ==> PyRound2(x) == n as real / 100.0
    ensures x * 100.0 == n as real + 0.5 ==> PyRound2(x) == (if n % 2 == 0 then n else n + 1) as real / 100.0
  {
    NearestEvenIs(x * 100.0, n);
  }

  lemma {:induction false} PyRound4Close(x: real)
    ensures -1.0 / 20000.0 <= PyRound4(x) - x <= 1.0 / 20000.0
  {
    var n := NearestEven(x * 10000.0);
    assert n as real - 0.5 <= x * 10000.0 <= n as real + 0.5;
  }

  lemma {:induction false} NearestEvenIs(y: real, n: int)
    ensures n as real - 0.5 < y < n as real + 0.5 ==> NearestEven(y) == n
    ensures y == n as real + 0.5 ==> NearestEven(y) == if n % 2 == 0 then n else n + 1
  {
    var f := y.Floor;
    if n as real - 0.5 < y < n as real {
      assert f == n - 1;
    } else if n as real <= y <= n as real + 0.5 {
      assert f == n;
    }
  }

  /** The nearest multiple of 1/10000; halfway between two, the even one. */
  lemma {:induction false} PyRound4IsNearest(x: real, n: int)
    ensures n as real - 0.5 < x * 10000.0 < n as real + 0.5 ==> PyRound4(x) == n as real / 10000.0
    ensures x * 10000.0 == n as real + 0.5 ==> PyRound4(x) == (if n % 2 == 0 then n else n + 1) as real / 10000.0
  {
    NearestEvenIs(x * 10000.0, n);
  }

  lemma {:induction false} NearestEvenMonotone(x: real, y: real)
    requires x <= y
    ensures NearestEven(x) <= NearestEven(y)
  {
    assert x.Floor <= y.Floor;
    if x.Floor < y.Floor {
      assert NearestEven(x) <= x.Floor + 1 <= y.Floor <= NearestEven(y);
    }
  }

  lemma {:induction false} PyRound4Monotone(x: real, y: real)
    requires x <= y
    ensures PyRound4(x) <= PyRound4(y)
  {
    NearestEvenMonotone(x * 10000.0, y * 10000.0);
  }

  /** Rounding keeps 0 and 1, so it does not leave the unit interval. */
  lemma {:induction false} PyRound4InUnit(x: real)
    requires 0.0 <= x <= 1.0
    ensures 0.0 <= PyRound4(x) <= 1.0
  {
    PyRound4Monotone(0.0, x);
    PyRound4Monotone(x, 1.0);
    assert NearestEven(10000.0) == 10000;
  }
}
