/** Sums over maps with real values. The order in which a loop visits the keys does not matter. */
module Sums {
  import opened Permutations
  import opened Reals

  ghost function Sum(m: map<string, real>): real
    decreases m.Keys
  {
    if m.Keys == {} then 0.0 else
      var k :| k in m;
      m[k] + Sum(m - {k})
  }

  /** Any key may be taken out first. */
  lemma {:induction false} SumRemove(m: map<string, real>, k: string)
    requires k in m
    ensures Sum(m) == m[k] + Sum(m - {k})
    decreases m.Keys
  {
    var first: string :| first in m && Sum(m) == m[first] + Sum(m - {first});
    if first != k {
      SumRemove(m - {first}, k);
      SumRemove(m - {k}, first);
      assert m - {first} - {k} == m - {k} - {first};
    }
  }

  lemma {:induction false} SumAdd(m: map<string, real>, k: string, x: real)
    requires k !in m
    ensures Sum(m[k := x]) == Sum(m) + x
  {
    SumRemove(m[k := x], k);
    assert m[k := x] - {k} == m;
  }

  lemma {:induction false} SumUpdate(m: map<string, real>, k: string, x: real)
    ensures Sum(m[k := x]) == Sum(m) - (if k in m then m[k] else 0.0) + x
  {
    SumRemove(m[k := x], k);
    if k in m {
      SumRemove(m, k);
    }
    assert m[k := x] - {k} == m - {k};
    assert k !in m ==> m - {k} == m;
  }

  lemma {:induction false} SizeRemove(m: map<string, real>, k: string)
    requires k in m
    ensures |m| == |m - {k}| + 1
  {
    assert (m - {k}).Keys == m.Keys - {k};
    assert |m| == |m.Keys| && |m - {k}| == |(m - {k}).Keys|;
  }

  /** Values between 0 and 1 add up to at most their number. */
  lemma {:induction false} SumOfUnits(m: map<string, real>)
    requires forall k :: k in m ==> 0.0 <= m[k] <= 1.0
    ensures 0.0 <= Sum(m) <= |m| as real
    decreases m.Keys
  {
    if m.Keys != {} {
      var k :| k in m;
      SumRemove(m, k);
      SumOfUnits(m - {k});
      SizeRemove(m, k);
    }
  }

  lemma {:induction false} SumNonNegative(m: map<string, real>)
    requires forall k :: k in m ==> m[k] >= 0.0
    ensures Sum(m) >= 0.0
    ensures forall k :: k in m ==> m[k] <= Sum(m)
    decreases m.Keys
  {
    if m.Keys != {} {
      var first :| first in m;
      SumNonNegative(m - {first});
      SumRemove(m, first);
      forall k | k in m ensures m[k] <= Sum(m) {
        if k != first { assert k in m - {first}; }
      }
    }
  }

  /** Subtracting the same amount from every value subtracts it once per key. */
  lemma {:induction false} SumShifted(m: map<string, real>, shifted: map<string, real>, c: real)
    requires shifted.Keys == m.Keys && forall k :: k in m ==> shifted[k] == m[k] - c
    ensures Sum(shifted) == Sum(m) - Times(c, |m|)
    decreases m.Keys
  {
    if m.Keys != {} {
      var first :| first in m;
      SumRemove(m, first);
      SumRemove(shifted, first);
      SumShifted(m - {first}, shifted - {first}, c);
      SizeRemove(m, first);
    }
  }

  function SumSeq(s: seq<real>): real {
    if s == [] then 0.0 else s[0] + SumSeq(s[1..])
  }

  /** Listing every key once and adding up in that order gives the same sum. */
  lemma {:induction false} SumAsSeq(m: map<string, real>, keys: seq<string>, values: seq<real>)
    requires Distinct(keys)
    requires forall k :: k in keys <==> k in m
    requires |values| == |keys| && forall i :: 0 <= i < |keys| ==> values[i] == m[keys[i]]
    ensures SumSeq(values) == Sum(m)
    decreases |keys|
  {
    if keys == [] {
      assert forall k :: k in m ==> k in keys;
      assert m.Keys == {};
    } else {
      assert keys == [keys[0]] + keys[1..];
      SumRemove(m, keys[0]);
      SumAsSeq(m - {keys[0]}, keys[1..], values[1..]);
    }
  }
}
