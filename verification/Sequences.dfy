/** Small facts about concatenation that proofs over growing lists need again and again. */
module Sequences {

  lemma {:induction false} AppendInTurn<T>(s: seq<T>, t: seq<T>, u: seq<T>)
    ensures s + (t + u) == s + t + u
  {
  }

  lemma {:induction false} LastOf<T>(s: seq<T>, x: T)
    ensures (s + [x])[..|s|] == s && x in s + [x]
  {
    assert (s + [x])[|s|] == x;
  }

  lemma {:induction false} PrefixPlusOne<T>(s: seq<T>, i: nat)
    requires i < |s|
    ensures s[..i + 1] == s[..i] + [s[i]]
  {
  }

  /** At how many positions of the list `p` holds. */
  ghost function HowMany<T>(s: seq<T>, p: T -> bool): nat {
    |set i | 0 <= i < |s| && p(s[i])|
  }

  lemma {:induction false} HowManyNone<T>(p: T -> bool)
    ensures HowMany([], p) == 0
  {
    var none: seq<T> := [];
    assert (set i | 0 <= i < |none| && p(none[i])) == {};
  }

  lemma {:induction false} HowManyMore<T>(s: seq<T>, x: T, p: T -> bool)
    ensures HowMany(s + [x], p) == HowMany(s, p) + if p(x) then 1 else 0
  {
    var before := set i | 0 <= i < |s| && p(s[i]);
    var after := set i | 0 <= i < |s + [x]| && p((s + [x])[i]);
    assert after == if p(x) then before + {|s|} else before;
  }

  /** All but the last, and the last. */
  lemma {:induction false} HowManySplit<T>(s: seq<T>, p: T -> bool)
    requires s != []
    ensures HowMany(s, p) == HowMany(s[..|s| - 1], p) + if p(s[|s| - 1]) then 1 else 0
  {
    assert s == s[..|s| - 1] + [s[|s| - 1]];
    HowManyMore(s[..|s| - 1], s[|s| - 1], p);
  }
}
