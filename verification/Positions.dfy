/** Choices from a ranking, described by the positions chosen. */
module Positions {

  ghost predicate Below(chosen: seq<nat>, n: nat) {
    forall k :: 0 <= k < |chosen| ==> chosen[k] < n
  }

  function At<T>(ranked: seq<T>, chosen: seq<nat>): (items: seq<T>)
    requires Below(chosen, |ranked|)
    ensures |items| == |chosen| && forall k :: 0 <= k < |chosen| ==> items[k] == ranked[chosen[k]]
  {
    seq(|chosen|, k requires 0 <= k < |chosen| => ranked[chosen[k]])
  }

  lemma {:induction false} AtStep<T>(ranked: seq<T>, chosen: seq<nat>, i: nat)
    requires Below(chosen, |ranked|) && i < |ranked|
    ensures At(ranked, chosen + [i]) == At(ranked, chosen) + [ranked[i]]
  {
  }

  lemma {:induction false} AtMember<T>(ranked: seq<T>, chosen: seq<nat>, i: nat)
    requires Below(chosen, |ranked|) && i < |ranked|
    ensures i in chosen ==> ranked[i] in At(ranked, chosen)
  {
    if i in chosen {
      var k :| 0 <= k < |chosen| && chosen[k] == i;
      assert At(ranked, chosen)[k] == ranked[i];
    }
  }

  lemma {:induction false} PrefixMember(s: seq<nat>, t: seq<nat>, i: nat)
    requires s <= t
    ensures i in s ==> i in t
  {
    if i in s {
      var k :| 0 <= k < |s| && s[k] == i;
      assert t[k] == i;
    }
  }
}
