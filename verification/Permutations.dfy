/** Rearrangements of a list as index lists, and the pigeonhole principle. */
module Permutations {

  ghost predicate Distinct<T>(s: seq<T>) {
    forall i, j :: 0 <= i < j < |s| ==> s[i] != s[j]
  }

  /** `p` sends its positions to different indices below `n`. */
  ghost predicate Injection(p: seq<nat>, n: nat) {
    Distinct(p) && forall i :: 0 <= i < |p| ==> p[i] < n
  }

  /** Position i of `s` holds what position `p[i]` of `t` holds, and no position of `t` is used twice. */
  ghost predicate Arranges<T>(p: seq<nat>, s: seq<T>, t: seq<T>) {
    && |p| == |s| == |t|
    && Injection(p, |t|)
    && forall i :: 0 <= i < |s| ==> s[i] == t[p[i]]
  }

  function Without<T>(s: seq<T>, k: nat): seq<T>
    requires k < |s|
  {
    s[..k] + s[k + 1..]
  }

  lemma {:induction false} Pigeonhole(p: seq<nat>, n: nat)
    requires Injection(p, n)
    ensures |p| <= n
  {
    if p == [] {
    } else if n - 1 in p {
      assert p[0] < n;
      var k :| 0 <= k < |p| && p[k] == n - 1;
      var q := Without(p, k);
      forall i | 0 <= i < |q| ensures q[i] < n - 1 {
        assert q[i] == p[if i < k then i else i + 1];
      }
      Pigeonhole(q, n - 1);
    } else {
      assert p[0] < n;
      Pigeonhole(p, n - 1);
    }
  }

  lemma {:induction false} WithoutMultiset<T>(s: seq<T>, k: nat)
    requires k < |s|
    ensures multiset(Without(s, k)) == multiset(s) - multiset{s[k]}
  {
    assert s == s[..k] + [s[k]] + s[k + 1..];
  }

  /** Position i of the list from which position `k` was taken is position `PastGap(k, i)` of the whole list. */
  function PastGap(k: nat, i: nat): nat {
    if i < k then i else i + 1
  }

  lemma {:induction false} WithoutAt<T>(s: seq<T>, k: nat, i: nat)
    requires k < |s| && i < |s| - 1
    ensures Without(s, k)[i] == s[PastGap(k, i)]
  {
  }

  lemma {:induction false} ExtendArrangement<T>(s: seq<T>, t: seq<T>, k: nat, q: seq<nat>, p: seq<nat>)
    requires s != [] && k < |t| && t[k] == s[0]
    requires Arranges(q, s[1..], Without(t, k))
    requires |p| == |s| && p[0] == k && forall i :: 0 <= i < |q| ==> p[i + 1] == PastGap(k, q[i])
    ensures Arranges(p, s, t)
  {
    forall i | 0 <= i < |s| ensures p[i] < |t| && s[i] == t[p[i]] && (i > 0 ==> p[i] != k) {
      if i > 0 {
        assert s[i] == s[1..][i - 1] == Without(t, k)[q[i - 1]] && p[i - 1 + 1] == PastGap(k, q[i - 1]);
      }
    }
    forall i, j | 0 <= i < j < |p| ensures p[i] != p[j] {
      if i > 0 {
        assert q[i - 1] != q[j - 1] && p[i - 1 + 1] == PastGap(k, q[i - 1]) && p[j - 1 + 1] == PastGap(k, q[j - 1]);
      }
    }
  }

  lemma {:induction false} FindPartner<T>(s: seq<T>, t: seq<T>) returns (k: nat)
    requires s != [] && multiset(s) == multiset(t)
    ensures k < |t| && t[k] == s[0] && multiset(s[1..]) == multiset(Without(t, k))
  {
    assert s == [s[0]] + s[1..];
    assert s[0] in multiset(t);
    k :| 0 <= k < |t| && t[k] == s[0];
    WithoutMultiset(t, k);
  }

  lemma {:induction false} SameLength<T>(s: seq<T>, t: seq<T>)
    requires multiset(s) == multiset(t)
    ensures |s| == |t|
  {
    assert |s| == |multiset(s)| == |multiset(t)| == |t|;
  }

  /** Lists with the same elements are rearrangements of each other. */
  lemma {:induction false} EqualMultisetsArrange<T>(s: seq<T>, t: seq<T>) returns (p: seq<nat>)
    requires multiset(s) == multiset(t)
    ensures Arranges(p, s, t)
  {
    SameLength(s, t);
    if s == [] {
      p := [];
    } else {
      var k := FindPartner(s, t);
      var q := EqualMultisetsArrange(s[1..], Without(t, k));
      p := [k] + seq(|q|, i requires 0 <= i < |q| => PastGap(k, q[i]));
      ExtendArrangement(s, t, k, q, p);
    }
  }

  // ---- Lists without repetition ----

  lemma {:induction false} OnceEach<T>(s: seq<T>)
    requires Distinct(s)
    ensures forall x :: multiset(s)[x] == if x in s then 1 else 0
  {
    if s != [] {
      assert s == [s[0]] + s[1..];
      OnceEach(s[1..]);
    }
  }

  lemma {:induction false} AtMostOnceEach<T>(s: seq<T>)
    requires forall x :: multiset(s)[x] <= 1
    ensures Distinct(s)
  {
    if s != [] {
      assert s == [s[0]] + s[1..];
      assert forall x :: multiset(s)[x] == multiset(s[1..])[x] + if x == s[0] then 1 else 0;
      AtMostOnceEach(s[1..]);
      assert s[0] !in s[1..] by {
        assert multiset(s[1..])[s[0]] == 0;
      }
    }
  }

  /** Reordering a list without repetition does not introduce one. */
  lemma {:induction false} DistinctSurvivesReordering<T>(s: seq<T>, t: seq<T>)
    requires multiset(s) == multiset(t) && Distinct(s)
    ensures Distinct(t) && forall x :: x in t <==> x in s
  {
    OnceEach(s);
    AtMostOnceEach(t);
    assert forall x :: x in s <==> x in multiset(s);
    assert forall x :: x in t <==> x in multiset(t);
  }

  /** Two lists of the same elements, each without repetition, are reorderings of each other. */
  lemma {:induction false} SameElementsReorder<T>(s: seq<T>, t: seq<T>)
    requires Distinct(s) && Distinct(t) && forall x :: x in s <==> x in t
    ensures multiset(s) == multiset(t)
  {
    OnceEach(s);
    OnceEach(t);
  }
}
