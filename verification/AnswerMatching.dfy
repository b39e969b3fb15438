/**
 The numeric comparison behind answer checking: both value lists are sorted and compared position by
 position. `SortedComparisonMeansPairing` shows that this accepts exactly the answers whose values can
 be paired off with the expected ones, in some order, each pair within the tolerance.
 */
module AnswerMatching {
  import opened Orders
  import opened Permutations

  const EPSILON: real := 0.000001

  predicate Close(x: real, y: real) { -EPSILON <= x - y <= EPSILON }

  ghost predicate PositionwiseClose(expected: seq<real>, actual: seq<real>) {
    |expected| == |actual| && forall i :: 0 <= i < |expected| ==> Close(expected[i], actual[i])
  }

  /** Expected value i is paired with actual value `p[i]`; no actual value is used twice, none is left over. */
  ghost predicate Pairing(p: seq<nat>, expected: seq<real>, actual: seq<real>) {
    && |p| == |expected| == |actual|
    && Injection(p, |actual|)
    && forall i :: 0 <= i < |p| ==> Close(expected[i], actual[p[i]])
  }

  ghost predicate CanPair(expected: seq<real>, actual: seq<real>) {
    exists p :: Pairing(p, expected, actual)
  }

  method EqualNumericAnswers(expected: seq<real>, actual: seq<real>) returns (equal: bool)
    ensures equal <==> PositionwiseClose(expected, actual)
  {
    if |expected| != |actual| {
      return false;
    }
    for i := 0 to |expected|
      invariant forall j :: 0 <= j < i ==> Close(expected[j], actual[j])
    {
      var difference := expected[i] - actual[i];
      if (if difference < 0.0 then -difference else difference) > EPSILON {
        assert !Close(expected[i], actual[i]);
        return false;
      }
    }
    return true;
  }

  function Compose(p: seq<nat>, q: seq<nat>): (r: seq<nat>)
    requires forall i :: 0 <= i < |p| ==> p[i] < |q|
    ensures |r| == |p| && forall i :: 0 <= i < |p| ==> r[i] == q[p[i]]
  {
    seq(|p|, i requires 0 <= i < |p| => q[p[i]])
  }

  lemma {:induction false} ComposeInjections(p: seq<nat>, q: seq<nat>, n: nat)
    requires Injection(p, |q|) && Injection(q, n)
    ensures Injection(Compose(p, q), n)
  {
    var r := Compose(p, q);
    forall i, j | 0 <= i < j < |r| ensures r[i] != r[j] {
      assert p[i] != p[j];
      assert q[p[i]] != q[p[j]];
    }
  }

  /** Reordering both sides keeps a pairing possible. */
  lemma {:induction false} PairingSurvivesReordering(expected: seq<real>, actual: seq<real>, expected': seq<real>,
                                                     actual': seq<real>)
    requires multiset(expected) == multiset(expected') && multiset(actual) == multiset(actual')
    requires CanPair(expected, actual)
    ensures CanPair(expected', actual')
  {
    var p :| Pairing(p, expected, actual);
    var e := EqualMultisetsArrange(expected', expected);
    var a := EqualMultisetsArrange(actual, actual');
    ComposeInjections(e, p, |actual|);
    ComposeInjections(Compose(e, p), a, |actual'|);
    assert Pairing(Compose(Compose(e, p), a), expected', actual');
  }

  /** No expected value can lie too far below the actual value at its own position. */
  lemma {:induction false} NotTooFarBelow(expected: seq<real>, actual: seq<real>, p: seq<nat>, k: nat)
    requires Sorted(RealLe, expected) && Sorted(RealLe, actual) && Pairing(p, expected, actual) && k < |expected|
    ensures actual[k] - expected[k] <= EPSILON
  {
    if actual[k] - expected[k] > EPSILON {
      var low := p[..k + 1];
      forall i | 0 <= i < |low| ensures low[i] < k {
        assert i < k ==> RealLe(expected[i], expected[k]);
        assert Close(expected[i], actual[p[i]]);
        assert p[i] > k ==> RealLe(actual[k], actual[p[i]]);
      }
      Pigeonhole(low, k);
    }
  }

  /** Nor too far above it. */
  lemma {:induction false} NotTooFarAbove(expected: seq<real>, actual: seq<real>, p: seq<nat>, k: nat)
    requires Sorted(RealLe, expected) && Sorted(RealLe, actual) && Pairing(p, expected, actual) && k < |expected|
    ensures expected[k] - actual[k] <= EPSILON
  {
    if expected[k] - actual[k] > EPSILON {
      var n := |expected|;
      forall i | k <= i < n ensures k < p[i] < n {
        assert k < i ==> RealLe(expected[k], expected[i]);
        assert Close(expected[i], actual[p[i]]);
        assert p[i] < k ==> RealLe(actual[p[i]], actual[k]);
      }
      var high := seq(n - k, i requires 0 <= i < n - k => p[k + i] - (k + 1));
      Pigeonhole(high, n - k - 1);
    }
  }

  /** Sorting both lists and comparing position by position decides whether a one-to-one pairing exists. */
  lemma {:induction false} SortedComparisonMeansPairing(expected: seq<real>, actual: seq<real>, e: seq<real>,
                                                        a: seq<real>)
    requires Sorted(RealLe, e) && multiset(e) == multiset(expected)
    requires Sorted(RealLe, a) && multiset(a) == multiset(actual)
    ensures PositionwiseClose(e, a) <==> CanPair(expected, actual)
  {
    if PositionwiseClose(e, a) {
      var p := seq(|e|, i => i);
      assert Pairing(p, e, a);
      PairingSurvivesReordering(e, a, expected, actual);
    }
    if CanPair(expected, actual) {
      PairingSurvivesReordering(expected, actual, e, a);
      var p :| Pairing(p, e, a);
      forall i | 0 <= i < |e| ensures Close(e[i], a[i]) {
        NotTooFarBelow(e, a, p, i);
        NotTooFarAbove(e, a, p, i);
      }
    }
  }

  /** Being pairable does not depend on which list is the expected one. */
  lemma {:induction false} PairingIsSymmetric(expected: seq<real>, actual: seq<real>)
    ensures CanPair(expected, actual) <==> CanPair(actual, expected)
  {
    RealLeIsTotalOrder();
    var e, a := Sort(RealLe, expected), Sort(RealLe, actual);
    SortedComparisonMeansPairing(expected, actual, e, a);
    SortedComparisonMeansPairing(actual, expected, a, e);
  }

  lemma {:induction false} PairingIsReflexive(values: seq<real>)
    ensures CanPair(values, values)
  {
    var p := seq(|values|, i => i);
    assert Pairing(p, values, values);
  }
}
