/**
 Cosine similarity of two sparse weight maps, over exact reals. The square root is any function that gives roots.
 Cauchy-Schwarz shows the quotient never leaves [-1, 1], so clamping does nothing to weights that are not negative.
 */
module Cosine {
  import opened Reals
  import opened Sums

  type Weights = map<string, real>

  function Get(m: Weights, k: string): real {
    if k in m then m[k] else 0.0
  }

  const TIMES: (real, real) -> real := (x, y) => x * y

  /** `f` of the two weights, at the right map's keys. */
  function Combine(f: (real, real) -> real, left: Weights, right: Weights): Weights {
    map k | k in right :: f(Get(left, k), right[k])
  }

  function Products(left: Weights, right: Weights): Weights {
    Combine(TIMES, left, right)
  }

  function Squares(m: Weights): Weights {
    Combine(TIMES, m, m)
  }

  /** The dot product, added up over the right map's keys. */
  ghost function Dot(left: Weights, right: Weights): real {
    Sum(Products(left, right))
  }

  ghost function SquareSum(m: Weights): real {
    Sum(Squares(m))
  }

  predicate IsRoot(r: real, x: real) {
    r >= 0.0 && r * r == x
  }

  ghost predicate IsSqrt(sqrt: real -> real) {
    forall x :: x >= 0.0 ==> IsRoot(sqrt(x), x)
  }

  function ClampUnit(x: real): real {
    var low := if x < 0.0 then 0.0 else x;
    if low > 1.0 then 1.0 else low
  }

  ghost function CosineOf(left: Weights, right: Weights, leftNorm: real, rightNorm: real): real {
    if left == map[] || right == map[] || leftNorm == 0.0 || rightNorm == 0.0 then 0.0
    else
      NonZeroProduct(leftNorm, rightNorm);
      ClampUnit(Dot(left, right) / (leftNorm * rightNorm))
  }

  lemma {:induction false} NonZeroProduct(x: real, y: real)
    requires x != 0.0 && y != 0.0
    ensures x * y != 0.0
  {
    if x * y == 0.0 {
      QuotientUnique(0.0, y, x);
      QuotientUnique(0.0, y, 0.0);
    }
  }

  // ---- The code ----

  method Total(m: Weights) returns (total: real)
    ensures total == Sum(m)
  {
    total := 0.0;
    var rest := m.Keys;
    ghost var seen: Weights := map[];
    while rest != {}
      invariant rest <= m.Keys
      invariant seen == map k | k in m && k !in rest :: m[k]
      invariant total == Sum(seen)
      decreases rest
    {
      var k :| k in rest;
      rest := rest - {k};
      SumAdd(seen, k, m[k]);
      seen := seen[k := m[k]];
      total := total + m[k];
    }
    assert seen == m;
  }

  method CosineSimilarity(sqrt: real -> real, left: Weights, right: Weights) returns (similarity: real)
    ensures similarity == CosineOf(left, right, sqrt(SquareSum(left)), sqrt(SquareSum(right)))
  {
    if |left| == 0 || |right| == 0 {
      return 0.0;
    }
    var dot := Total(Products(left, right));
    var leftSquares := Total(Squares(left));
    var rightSquares := Total(Squares(right));
    similarity := Quotient(left, right, dot, sqrt(leftSquares), sqrt(rightSquares));
  }

  method Quotient(ghost left: Weights, ghost right: Weights, dot: real, leftNorm: real, rightNorm: real)
    returns (similarity: real)
    requires left != map[] && right != map[] && dot == Dot(left, right)
    ensures similarity == CosineOf(left, right, leftNorm, rightNorm)
  {
    if leftNorm == 0.0 || rightNorm == 0.0 {
      return 0.0;
    }
    NonZeroProduct(leftNorm, rightNorm);
    return ClampUnit(dot / (leftNorm * rightNorm));
  }

  // ---- Cauchy-Schwarz ----

  lemma {:induction false} SquareNonNegative(x: real)
    ensures x * x >= 0.0
  {
  }

  lemma {:induction false} SquareGrows(p: real, q: real)
    requires p > q >= 0.0
    ensures p * p > q * q
  {
    assert p * p - q * q == (p - q) * (p + q);
    TimesStrictlyMonotone(0.0, p - q, p + q);
  }

  lemma {:induction false} SquareOrder(p: real, q: real)
    requires p * p <= q * q && q >= 0.0
    ensures -q <= p <= q
  {
    if p > q {
      SquareGrows(p, q);
    }
    if -p > q {
      SquareGrows(-p, q);
    }
  }

  /** Twice a product is at most the sum of the squares, squared. */
  lemma {:induction false} FourProducts(u: real, v: real)
    ensures 4.0 * (u * v) <= (u + v) * (u + v)
  {
    SquareNonNegative(u - v);
  }

  lemma {:induction false} SquareOfProduct(x: real, y: real)
    ensures (x * y) * (x * y) == (x * x) * (y * y)
  {
  }

  lemma {:induction false} CrossTerm(s: real, a: real, b: real, x: real, y: real)
    requires a >= 0.0 && b >= 0.0 && s * s <= a * b
    ensures 2.0 * (s * (x * y)) <= a * (y * y) + b * (x * x)
  {
    var xx, yy := x * x, y * y;
    var u, v, p := a * yy, b * xx, s * (x * y);
    SquareNonNegative(x);
    SquareNonNegative(y);
    TimesMonotone(0.0, a, yy);
    TimesMonotone(0.0, b, xx);
    SquareOfProduct(s, x * y);
    SquareOfProduct(x, y);
    TimesMonotone(0.0, xx, yy);
    TimesMonotone(s * s, a * b, xx * yy);
    assert p * p <= (a * b) * (xx * yy);
    Regroup(a, b, xx, yy);
    FourProducts(u, v);
    assert (2.0 * p) * (2.0 * p) == 4.0 * (p * p);
    SquareOrder(2.0 * p, u + v);
  }

  lemma {:induction false} Regroup(a: real, b: real, xx: real, yy: real)
    ensures (a * b) * (xx * yy) == (a * yy) * (b * xx)
  {
  }

  /** One more coordinate keeps the inequality. */
  lemma {:induction false} OneMoreCoordinate(s: real, a: real, b: real, x: real, y: real)
    requires a >= 0.0 && b >= 0.0 && s * s <= a * b
    ensures (s + x * y) * (s + x * y) <= (a + x * x) * (b + y * y)
  {
    CrossTerm(s, a, b, x, y);
    SquareOfProduct(x, y);
    assert (s + x * y) * (s + x * y) == s * s + 2.0 * (s * (x * y)) + (x * y) * (x * y);
    assert (a + x * x) * (b + y * y) == a * b + (a * (y * y) + b * (x * x)) + (x * x) * (y * y);
  }

  /** The left weights at the right map's keys. */
  function Along(left: Weights, right: Weights): Weights {
    map k | k in right :: Get(left, k)
  }

  lemma {:induction false} SquareSumNonNegative(m: Weights)
    ensures SquareSum(m) >= 0.0
  {
    SumNonNegative(Squares(m));
  }

  lemma {:induction false} CombineRemove(f: (real, real) -> real, left: Weights, right: Weights, k: string)
    requires k in right
    ensures Sum(Combine(f, left, right)) == f(Get(left, k), right[k]) + Sum(Combine(f, left, right - {k}))
    ensures Combine(f, left, right - {k}) == Combine(f, left - {k}, right - {k})
  {
    SumRemove(Combine(f, left, right), k);
    assert Combine(f, left, right) - {k} == Combine(f, left, right - {k});
  }

  lemma {:induction false} SquareSumRemove(m: Weights, k: string)
    requires k in m
    ensures SquareSum(m) == TIMES(m[k], m[k]) + SquareSum(m - {k})
  {
    CombineRemove(TIMES, m, m, k);
  }

  lemma {:induction false} DotRemove(left: Weights, right: Weights, k: string)
    requires k in right
    ensures Dot(left, right) == TIMES(Get(left, k), right[k]) + Dot(left, right - {k})
  {
    CombineRemove(TIMES, left, right, k);
  }

  lemma {:induction false} AlongRemove(left: Weights, right: Weights, k: string)
    requires k in right
    ensures SquareSum(Along(left, right)) == TIMES(Get(left, k), Get(left, k)) + SquareSum(Along(left, right - {k}))
  {
    SquareSumRemove(Along(left, right), k);
    assert Along(left, right) - {k} == Along(left, right - {k});
  }

  lemma {:induction false} CoordinateStep(s: real, a: real, b: real, s': real, a': real, b': real, x: real, y: real)
    requires a >= 0.0 && b >= 0.0 && TIMES(s, s) <= TIMES(a, b)
    requires s' == TIMES(x, y) + s && a' == TIMES(x, x) + a && b' == TIMES(y, y) + b
    ensures TIMES(s', s') <= TIMES(a', b')
  {
    OneMoreCoordinate(s, a, b, x, y);
  }

  lemma {:induction false} CauchySchwarzAlong(left: Weights, right: Weights)
    ensures TIMES(Dot(left, right), Dot(left, right)) <= TIMES(SquareSum(Along(left, right)), SquareSum(right))
    decreases right.Keys
  {
    if right.Keys != {} {
      var k :| k in right;
      var less := right - {k};
      CauchySchwarzAlong(left, less);
      DotRemove(left, right, k);
      AlongRemove(left, right, k);
      SquareSumRemove(right, k);
      SquareSumNonNegative(Along(left, less));
      SquareSumNonNegative(less);
      CoordinateStep(Dot(left, less), SquareSum(Along(left, less)), SquareSum(less),
                     Dot(left, right), SquareSum(Along(left, right)), SquareSum(right), Get(left, k), right[k]);
    } else {
      assert Products(left, right) == map[] && Squares(right) == map[];
    }
  }

  /** Keys of the right map cannot add to the left norm. */
  lemma {:induction false} AlongIsNoLonger(left: Weights, right: Weights)
    ensures SquareSum(Along(left, right)) <= SquareSum(left)
    decreases right.Keys
  {
    if right.Keys != {} {
      var k :| k in right;
      SquareSumRemove(Along(left, right), k);
      if k in left {
        AlongIsNoLonger(left - {k}, right - {k});
        SquareSumRemove(left, k);
        assert Along(left, right) - {k} == Along(left - {k}, right - {k});
      } else {
        AlongIsNoLonger(left, right - {k});
        assert Along(left, right) - {k} == Along(left, right - {k});
      }
    } else {
      SquareSumNonNegative(left);
      assert Squares(Along(left, right)) == map[];
    }
  }

  /** For any two sparse maps, the dot product squared is at most the product of the squared norms. */
  lemma {:induction false} CauchySchwarz(left: Weights, right: Weights)
    ensures Dot(left, right) * Dot(left, right) <= SquareSum(left) * SquareSum(right)
  {
    CauchySchwarzAlong(left, right);
    AlongIsNoLonger(left, right);
    SquareSumNonNegative(right);
    LongerFactor(Dot(left, right), SquareSum(Along(left, right)), SquareSum(left), SquareSum(right));
  }

  lemma {:induction false} LongerFactor(d: real, a: real, a': real, b: real)
    requires TIMES(d, d) <= TIMES(a, b) && a <= a' && b >= 0.0
    ensures d * d <= a' * b
  {
    TimesMonotone(a, a', b);
  }

  lemma {:induction false} PositiveProduct(x: real, y: real)
    requires x > 0.0 && y > 0.0
    ensures x * y > 0.0
  {
  }

  /** The quotient lies between -1 and 1 for all weights, so only the clamp at 0 can ever act. */
  lemma {:induction false} CosineQuotientBounds(left: Weights, right: Weights, leftNorm: real, rightNorm: real)
    requires IsRoot(leftNorm, SquareSum(left)) && IsRoot(rightNorm, SquareSum(right))
    requires leftNorm > 0.0 && rightNorm > 0.0
    ensures leftNorm * rightNorm > 0.0
    ensures -1.0 <= Dot(left, right) / (leftNorm * rightNorm) <= 1.0
  {
    var d, n := Dot(left, right), leftNorm * rightNorm;
    PositiveProduct(leftNorm, rightNorm);
    CauchySchwarz(left, right);
    SquareOfProduct(leftNorm, rightNorm);
    SquareOrder(d, n);
    QuotientMonotone(-n, d, n);
    QuotientMonotone(d, n, n);
    QuotientUnique(n, n, 1.0);
    QuotientUnique(-n, n, -1.0);
  }

  ghost predicate NoNegative(m: Weights) {
    forall k :: k in m ==> m[k] >= 0.0
  }

  lemma {:induction false} DotNonNegative(left: Weights, right: Weights)
    requires NoNegative(left) && NoNegative(right)
    ensures Dot(left, right) >= 0.0
  {
    forall k | k in right ensures TIMES(Get(left, k), right[k]) >= 0.0 {
      TimesMonotone(0.0, Get(left, k), right[k]);
    }
    SumNonNegative(Products(left, right));
  }

  /** The cosine as mathematics has it: no clamp, 0 where a norm is 0. */
  ghost function PlainCosine(left: Weights, right: Weights, leftNorm: real, rightNorm: real): real {
    if leftNorm == 0.0 || rightNorm == 0.0 then 0.0
    else
      NonZeroProduct(leftNorm, rightNorm);
      Dot(left, right) / (leftNorm * rightNorm)
  }

  lemma {:induction false} ClampIdleOnQuotient(left: Weights, right: Weights, leftNorm: real, rightNorm: real)
    requires NoNegative(left) && NoNegative(right)
    requires IsRoot(leftNorm, SquareSum(left)) && IsRoot(rightNorm, SquareSum(right))
    requires leftNorm > 0.0 && rightNorm > 0.0
    ensures 0.0 <= PlainCosine(left, right, leftNorm, rightNorm) <= 1.0
  {
    CosineQuotientBounds(left, right, leftNorm, rightNorm);
    DotNonNegative(left, right);
    QuotientSign(Dot(left, right), leftNorm * rightNorm);
  }

  /** For weights that are not negative the clamp changes nothing. */
  lemma {:induction false} ClampIsIdle(left: Weights, right: Weights, leftNorm: real, rightNorm: real)
    requires NoNegative(left) && NoNegative(right)
    requires IsRoot(leftNorm, SquareSum(left)) && IsRoot(rightNorm, SquareSum(right))
    ensures CosineOf(left, right, leftNorm, rightNorm) == PlainCosine(left, right, leftNorm, rightNorm)
  {
    if leftNorm != 0.0 && rightNorm != 0.0 {
      ClampIdleOnQuotient(left, right, leftNorm, rightNorm);
      EmptySquares();
      PositiveRoot(leftNorm, SquareSum(left));
      PositiveRoot(rightNorm, SquareSum(right));
    }
  }

  lemma {:induction false} EmptySquares()
    ensures SquareSum(map[]) == 0.0
  {
    assert Squares(map[]) == map[];
  }

  lemma {:induction false} PositiveRoot(r: real, x: real)
    requires IsRoot(r, x) && r > 0.0
    ensures x > 0.0
  {
    if x <= 0.0 {
      SquareOrder(r, 0.0);
    }
  }

  /** A map that is not all zero is similar to itself with similarity exactly 1. */
  lemma {:induction false} SelfSimilarity(m: Weights, norm: real)
    requires IsRoot(norm, SquareSum(m)) && norm > 0.0
    ensures CosineOf(m, m, norm, norm) == 1.0
  {
    EmptySquares();
    PositiveRoot(norm, SquareSum(m));
    SelfQuotient(SquareSum(m));
  }

  lemma {:induction false} CosineInUnit(left: Weights, right: Weights, leftNorm: real, rightNorm: real)
    ensures 0.0 <= CosineOf(left, right, leftNorm, rightNorm) <= 1.0
  {
  }
}
