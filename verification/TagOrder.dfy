/**
 When a tag's mastery depends on the order of the attempts. It is recomputed only while the weighted attempts are
 positive, so if negative weights take the total to zero or below, an earlier ratio may stay - or not, in another order.
 */
module TagOrder {
  import opened Reals
  import opened Permutations
  import opened StatDomain
  import opened ProfileFold
  import opened CourseRates

  // ---- The condition ----

  /** The positive weights of an id, added up. */
  function PositiveWeight(id: string, ms: seq<Mention>): (p: real)
    ensures p >= 0.0
  {
    if ms == [] then 0.0
    else
      var last := ms[|ms| - 1];
      PositiveWeight(id, ms[..|ms| - 1]) + if last.id == id then Positive(last.weight) else 0.0
  }

  /** A right answer that some order counts towards a positive total. */
  predicate CanCredit(m: Mention, id: string, positive: real) {
    m.id == id && m.correct && m.weight != 0.0 && (m.weight > 0.0 || positive + m.weight > 0.0)
  }

  /** The total is positive, or no order ever credits anything to a positive total. */
  ghost predicate Steady(id: string, ms: seq<Mention>) {
    || TallyOf(id, ms).weighted > 0.0
    || forall i :: 0 <= i < |ms| ==> !CanCredit(ms[i], id, PositiveWeight(id, ms))
  }

  // ---- Positive weights ----

  lemma {:induction false} PositiveJoined(id: string, ms: seq<Mention>, ns: seq<Mention>)
    ensures PositiveWeight(id, ms + ns) == PositiveWeight(id, ms) + PositiveWeight(id, ns)
  {
    if ns == [] {
      assert ms + ns == ms;
    } else {
      PositiveJoined(id, ms, ns[..|ns| - 1]);
      assert (ms + ns)[..|ms + ns| - 1] == ms + ns[..|ns| - 1];
    }
  }

  lemma {:induction false} PositiveWithout(id: string, ms: seq<Mention>, k: nat)
    requires k < |ms|
    ensures PositiveWeight(id, ms) ==
      PositiveWeight(id, Without(ms, k)) + if ms[k].id == id then Positive(ms[k].weight) else 0.0
  {
    assert ms == ms[..k] + [ms[k]] + ms[k + 1..];
    PositiveJoined(id, ms[..k] + [ms[k]], ms[k + 1..]);
    PositiveJoined(id, ms[..k], [ms[k]]);
    PositiveJoined(id, ms[..k], ms[k + 1..]);
    assert [ms[k]][..0] == [];
  }

  lemma {:induction false} PositiveForgetsOrder(id: string, s: seq<Mention>, t: seq<Mention>)
    requires multiset(s) == multiset(t)
    ensures PositiveWeight(id, s) == PositiveWeight(id, t)
    decreases |s|
  {
    SameLength(s, t);
    if s != [] {
      var k := FindPartner(s, t);
      assert Without(s, 0) == s[1..];
      PositiveWithout(id, s, 0);
      PositiveWithout(id, t, k);
      PositiveForgetsOrder(id, s[1..], Without(t, k));
    }
  }

  lemma {:induction false} WeightedBelowPositive(id: string, ms: seq<Mention>)
    ensures TallyOf(id, ms).weighted <= PositiveWeight(id, ms)
  {
    if ms != [] {
      WeightedBelowPositive(id, ms[..|ms| - 1]);
    }
  }

  // ---- Steady tags forget the order ----

  /** Whoever credits something without being able to has pulled the total down by all the positive weights. */
  lemma {:induction false} CreditCosts(id: string, ms: seq<Mention>, positive: real)
    requires positive >= 0.0 && forall i :: 0 <= i < |ms| ==> !CanCredit(ms[i], id, positive)
    ensures TallyOf(id, ms).weightedCorrect == 0.0 || TallyOf(id, ms).weighted <= PositiveWeight(id, ms) - positive
  {
    if ms != [] {
      var before := ms[..|ms| - 1];
      CreditCosts(id, before, positive);
      WeightedBelowPositive(id, before);
      assert !CanCredit(ms[|ms| - 1], id, positive);
    }
  }

  lemma {:induction false} NothingToShow(id: string, ms: seq<Mention>, positive: real)
    requires PositiveWeight(id, ms) <= positive && forall i :: 0 <= i < |ms| ==> !CanCredit(ms[i], id, positive)
    ensures Mastery(id, ms) == 0.0
  {
    if ms != [] {
      NothingToShow(id, ms[..|ms| - 1], positive);
      CreditCosts(id, ms, positive);
    }
  }

  lemma {:induction false} SteadyMastery(id: string, ms: seq<Mention>)
    requires Steady(id, ms)
    ensures Mastery(id, ms) == Ratio(TallyOf(id, ms).weightedCorrect, TallyOf(id, ms).weighted)
  {
    if TallyOf(id, ms).weighted > 0.0 {
      MasteryIsBatchRatio(id, ms);
    } else {
      NothingToShow(id, ms, PositiveWeight(id, ms));
    }
  }

  lemma {:induction false} SteadyForgetsOrder(id: string, s: seq<Mention>, t: seq<Mention>)
    requires multiset(s) == multiset(t)
    ensures Steady(id, s) <==> Steady(id, t)
  {
    TallyForgetsOrder(id, s, t);
    PositiveForgetsOrder(id, s, t);
    SameMentions(s, t);
    assert forall i :: 0 <= i < |s| ==> s[i] in t;
    assert forall i :: 0 <= i < |t| ==> t[i] in s;
  }

  lemma {:induction false} SameMentions(s: seq<Mention>, t: seq<Mention>)
    requires multiset(s) == multiset(t)
    ensures forall m :: m in s <==> m in t
  {
    assert forall m :: m in s <==> m in multiset(s);
    assert forall m :: m in t <==> m in multiset(t);
  }

  lemma {:induction false} SteadyMasteries(id: string, s: seq<Mention>, t: seq<Mention>)
    requires multiset(s) == multiset(t) && Steady(id, s)
    ensures Mastery(id, s) == Mastery(id, t)
  {
    SteadyForgetsOrder(id, s, t);
    TallyForgetsOrder(id, s, t);
    SteadyMastery(id, s);
    SteadyMastery(id, t);
  }

  // ---- What further mentions do to a mastery ----

  ghost predicate Falling(id: string, ms: seq<Mention>) {
    forall i :: 0 <= i < |ms| && ms[i].id == id ==> ms[i].weight <= 0.0
  }

  ghost predicate Climbing(id: string, ms: seq<Mention>) {
    forall i :: 0 <= i < |ms| && ms[i].id == id ==> ms[i].weight > 0.0
  }

  lemma {:induction false} OneMore(id: string, ms: seq<Mention>, m: Mention)
    ensures TallyOf(id, ms + [m]) == if m.id == id then Counted(TallyOf(id, ms), m) else TallyOf(id, ms)
    ensures var t := TallyOf(id, ms + [m]);
      Mastery(id, ms + [m]) ==
        if m.id == id && t.weighted > 0.0 then t.weightedCorrect / t.weighted else Mastery(id, ms)
  {
    assert (ms + [m])[..|ms|] == ms;
  }

  /** Below zero nothing is recomputed while the total falls. */
  lemma {:induction false} FallingStays(id: string, x: seq<Mention>, y: seq<Mention>)
    requires Falling(id, y) && TallyOf(id, x).weighted <= 0.0
    ensures TallyOf(id, x + y).weighted <= 0.0 && Mastery(id, x + y) == Mastery(id, x)
  {
    if y == [] {
      assert x + y == x;
    } else {
      var before, last := y[..|y| - 1], y[|y| - 1];
      FallingStays(id, x, before);
      assert x + y == (x + before) + [last];
      OneMore(id, x + before, last);
    }
  }

  /** Nor while it climbs to no more than zero. */
  lemma {:induction false} ClimbingStays(id: string, x: seq<Mention>, y: seq<Mention>)
    requires Climbing(id, y) && TallyOf(id, x + y).weighted <= 0.0
    ensures Mastery(id, x + y) == Mastery(id, x)
  {
    if y == [] {
      assert x + y == x;
    } else {
      var before, last := y[..|y| - 1], y[|y| - 1];
      assert x + y == (x + before) + [last];
      OneMore(id, x + before, last);
      ClimbingStays(id, x, before);
    }
  }

  /** A credit no smaller than the total, and a mastery above zero. */
  ghost predicate Above(id: string, ms: seq<Mention>) {
    TallyOf(id, ms).weightedCorrect >= TallyOf(id, ms).weighted && Mastery(id, ms) > 0.0
  }

  lemma {:induction false} FallingStaysAbove(id: string, x: seq<Mention>, y: seq<Mention>)
    requires Falling(id, y) && Above(id, x)
    ensures Above(id, x + y)
  {
    if y == [] {
      assert x + y == x;
    } else {
      var before, last := y[..|y| - 1], y[|y| - 1];
      FallingStaysAbove(id, x, before);
      assert x + y == (x + before) + [last];
      OneMore(id, x + before, last);
      var t := TallyOf(id, x + y);
      if t.weighted > 0.0 { QuotientSign(t.weightedCorrect, t.weighted); }
    }
  }

  /** A negative credit, and a mastery below zero. */
  ghost predicate BelowZero(id: string, ms: seq<Mention>) {
    TallyOf(id, ms).weightedCorrect < 0.0 && Mastery(id, ms) < 0.0
  }

  lemma {:induction false} FallingStaysBelow(id: string, x: seq<Mention>, y: seq<Mention>)
    requires Falling(id, y) && BelowZero(id, x)
    ensures BelowZero(id, x + y)
  {
    if y == [] {
      assert x + y == x;
    } else {
      var before, last := y[..|y| - 1], y[|y| - 1];
      FallingStaysBelow(id, x, before);
      assert x + y == (x + before) + [last];
      OneMore(id, x + before, last);
      var t := TallyOf(id, x + y);
      if t.weighted > 0.0 { QuotientSign(t.weightedCorrect, t.weighted); }
    }
  }

  // ---- Orders that disagree ----

  /** The attempt mentions the tag once at most, as a task's tags do when they were deduplicated. */
  ghost predicate OnceAtMost(id: string, a: Attempt) {
    forall i, j :: 0 <= i < j < |a.tagScores| ==> a.tagScores[i].tagID != id || a.tagScores[j].tagID != id
  }

  ghost predicate OncePerAttempt(id: string, s: seq<Attempt>) {
    forall i :: 0 <= i < |s| ==> OnceAtMost(id, s[i])
  }

  predicate Raises(id: string, a: Attempt) {
    exists i :: 0 <= i < |a.tagScores| && a.tagScores[i].tagID == id && a.tagScores[i].weight > 0.0
  }

  function Select(id: string, raising: bool, s: seq<Attempt>): (r: seq<Attempt>)
    ensures forall a :: a in r ==> a in s && Raises(id, a) == raising
  {
    if s == [] then []
    else
      var before, last := Select(id, raising, s[..|s| - 1]), s[|s| - 1];
      if Raises(id, last) == raising then before + [last] else before
  }

  lemma {:induction false} SelectedAreAll(id: string, s: seq<Attempt>)
    ensures multiset(s) == multiset(Select(id, true, s)) + multiset(Select(id, false, s))
  {
    if s != [] {
      var before, last := s[..|s| - 1], s[|s| - 1];
      assert s == before + [last];
      SelectedAreAll(id, before);
    }
  }

  ghost predicate AllFall(id: string, s: seq<Attempt>) {
    forall a :: a in s ==> Falling(id, MentionsIn(Tags, a))
  }

  ghost predicate AllClimb(id: string, s: seq<Attempt>) {
    forall a :: a in s ==> Climbing(id, MentionsIn(Tags, a))
  }

  lemma {:induction false} MentionsFall(id: string, s: seq<Attempt>)
    ensures AllFall(id, s) ==> Falling(id, Mentions(Tags, s))
    ensures AllClimb(id, s) ==> Climbing(id, Mentions(Tags, s))
  {
    if s != [] {
      assert s == s[..|s| - 1] + [s[|s| - 1]];
      MentionsFall(id, s[..|s| - 1]);
    }
  }

  lemma {:induction false} SelectedClimbOrFall(id: string, s: seq<Attempt>)
    requires OncePerAttempt(id, s)
    ensures Climbing(id, Mentions(Tags, Select(id, true, s)))
    ensures Falling(id, Mentions(Tags, Select(id, false, s)))
  {
    forall a | a in Select(id, true, s) ensures Climbing(id, MentionsIn(Tags, a)) {
      var i :| 0 <= i < |a.tagScores| && a.tagScores[i].tagID == id && a.tagScores[i].weight > 0.0;
      assert OnceAtMost(id, a);
      forall j | 0 <= j < |a.tagScores| && a.tagScores[j].tagID == id ensures j == i {
      }
    }
    MentionsFall(id, Select(id, true, s));
    MentionsFall(id, Select(id, false, s));
  }

  /** First the attempts that do not raise the total, then those that do: no ratio is ever taken. */
  lemma {:induction false} RaisingLast(id: string, s: seq<Attempt>) returns (t: seq<Attempt>)
    requires OncePerAttempt(id, s) && TallyOf(id, Mentions(Tags, s)).weighted <= 0.0
    ensures multiset(t) == multiset(s) && Mastery(id, Mentions(Tags, t)) == 0.0
  {
    var low, high := Select(id, false, s), Select(id, true, s);
    t := low + high;
    SelectedAreAll(id, s);
    SelectedClimbOrFall(id, s);
    MentionsJoined(Tags, low, high);
    SameTally(id, s, t);
    FallingStays(id, [], Mentions(Tags, low));
    assert [] + Mentions(Tags, low) == Mentions(Tags, low);
    ClimbingStays(id, Mentions(Tags, low), Mentions(Tags, high));
  }

  lemma {:induction false} SameTally(id: string, s: seq<Attempt>, t: seq<Attempt>)
    requires multiset(s) == multiset(t)
    ensures TallyOf(id, Mentions(Tags, s)) == TallyOf(id, Mentions(Tags, t))
    ensures PositiveWeight(id, Mentions(Tags, s)) == PositiveWeight(id, Mentions(Tags, t))
  {
    MentionsForgetOrder(Tags, s, t);
    TallyForgetsOrder(id, Mentions(Tags, s), Mentions(Tags, t));
    PositiveForgetsOrder(id, Mentions(Tags, s), Mentions(Tags, t));
  }

  /** What one attempt says of a tag it mentions once. */
  lemma {:induction false} OneMention(id: string, a: Attempt, j: nat)
    requires OnceAtMost(id, a) && j < |a.tagScores| && a.tagScores[j].tagID == id
    ensures TallyOf(id, MentionsIn(Tags, a)) == Counted(EMPTY_TALLY, MentionAt(Tags, a, j))
    ensures PositiveWeight(id, MentionsIn(Tags, a)) == Positive(a.tagScores[j].weight)
  {
    var ms := MentionsIn(Tags, a);
    TallyWithout(id, ms, j);
    PositiveWithout(id, ms, j);
    var rest := Without(ms, j);
    forall i | 0 <= i < |rest| ensures rest[i].id != id {
      assert rest[i] == ms[PastGap(j, i)];
    }
    Unmentioned(id, rest);
  }

  lemma {:induction false} Unmentioned(id: string, ms: seq<Mention>)
    requires forall i :: 0 <= i < |ms| ==> ms[i].id != id
    ensures TallyOf(id, ms) == EMPTY_TALLY && PositiveWeight(id, ms) == 0.0
  {
    if ms != [] {
      Unmentioned(id, ms[..|ms| - 1]);
    }
  }

  lemma {:induction false} FirstOf(s: seq<Attempt>, k: nat, x: seq<Attempt>, y: seq<Attempt>)
    requires k < |s| && multiset(Without(s, k)) == multiset(x) + multiset(y)
    ensures multiset([s[k]] + x + y) == multiset(s)
    ensures Mentions(Tags, [s[k]] + x + y) == MentionsIn(Tags, s[k]) + Mentions(Tags, x) + Mentions(Tags, y)
  {
    WithoutMultiset(s, k);
    assert s[k] in multiset(s);
    assert multiset(s) == multiset{s[k]} + multiset(Without(s, k));
    assert multiset([s[k]] + x + y) == multiset{s[k]} + multiset(x) + multiset(y);
    MentionsJoined(Tags, [s[k]] + x, y);
    MentionsJoined(Tags, [s[k]], x);
    MentionsOfOne(Tags, s[k]);
  }

  lemma {:induction false} WithoutOncePer(id: string, s: seq<Attempt>, k: nat)
    requires k < |s| && OncePerAttempt(id, s)
    ensures OncePerAttempt(id, Without(s, k))
  {
    forall i | 0 <= i < |Without(s, k)| ensures OnceAtMost(id, Without(s, k)[i]) {
      assert Without(s, k)[i] == s[PastGap(k, i)];
    }
  }

  lemma {:induction false} CreditShows(id: string, a: Attempt, j: nat)
    requires OnceAtMost(id, a) && j < |a.tagScores| && a.tagScores[j].tagID == id
    requires a.isCorrect && a.tagScores[j].weight > 0.0
    ensures Above(id, MentionsIn(Tags, a))
  {
    OneMention(id, a, j);
    MasteryIsBatchRatio(id, MentionsIn(Tags, a));
    SelfQuotient(a.tagScores[j].weight);
  }

  /** A right answer of positive weight first, then the falling ones: its ratio, once taken, stays above zero. */
  lemma {:induction false} CreditFirst(id: string, s: seq<Attempt>, k: nat, j: nat) returns (t: seq<Attempt>)
    requires OncePerAttempt(id, s) && TallyOf(id, Mentions(Tags, s)).weighted <= 0.0
    requires k < |s| && j < |s[k].tagScores| && s[k].tagScores[j].tagID == id
    requires s[k].isCorrect && s[k].tagScores[j].weight > 0.0
    ensures multiset(t) == multiset(s) && Mastery(id, Mentions(Tags, t)) > 0.0
  {
    var rest := Without(s, k);
    var low, high := Select(id, false, rest), Select(id, true, rest);
    t := [s[k]] + low + high;
    WithoutOncePer(id, s, k);
    SelectedAreAll(id, rest);
    SelectedClimbOrFall(id, rest);
    FirstOf(s, k, low, high);
    SameTally(id, s, t);
    CreditShows(id, s[k], j);
    var first := MentionsIn(Tags, s[k]);
    FallingStaysAbove(id, first, Mentions(Tags, low));
    ClimbingStays(id, first + Mentions(Tags, low), Mentions(Tags, high));
  }

  /** Right answers carry no positive weight. */
  ghost predicate NoPositiveCredit(id: string, ms: seq<Mention>) {
    forall i :: 0 <= i < |ms| && ms[i].id == id && ms[i].weight > 0.0 ==> !ms[i].correct
  }

  lemma {:induction false} ClimbingWithoutCredit(id: string, ms: seq<Mention>)
    requires Climbing(id, ms) && NoPositiveCredit(id, ms)
    ensures TallyOf(id, ms).weightedCorrect == 0.0 && TallyOf(id, ms).weighted == PositiveWeight(id, ms)
  {
    if ms != [] {
      ClimbingWithoutCredit(id, ms[..|ms| - 1]);
    }
  }

  lemma {:induction false} FallingIsNotPositive(id: string, ms: seq<Mention>)
    requires Falling(id, ms)
    ensures PositiveWeight(id, ms) == 0.0
  {
    if ms != [] {
      FallingIsNotPositive(id, ms[..|ms| - 1]);
    }
  }

  lemma {:induction false} CreditlessMentions(id: string, s: seq<Attempt>)
    requires forall a :: a in s ==> NoPositiveCredit(id, MentionsIn(Tags, a))
    ensures NoPositiveCredit(id, Mentions(Tags, s))
  {
    if s != [] {
      assert s == s[..|s| - 1] + [s[|s| - 1]];
      CreditlessMentions(id, s[..|s| - 1]);
    }
  }

  /** A right answer of negative weight first, then the climbing ones, all wrong: a ratio below zero, which stays. */
  lemma {:induction false} DebitFirst(id: string, s: seq<Attempt>, k: nat, j: nat) returns (t: seq<Attempt>)
    requires OncePerAttempt(id, s)
    requires forall a :: a in s ==> NoPositiveCredit(id, MentionsIn(Tags, a))
    requires k < |s| && j < |s[k].tagScores| && s[k].tagScores[j].tagID == id && s[k].isCorrect
    requires s[k].tagScores[j].weight < 0.0 && PositiveWeight(id, Mentions(Tags, s)) + s[k].tagScores[j].weight > 0.0
    ensures multiset(t) == multiset(s) && Mastery(id, Mentions(Tags, t)) < 0.0
  {
    var rest := Without(s, k);
    var low, high := Select(id, false, rest), Select(id, true, rest);
    t := [s[k]] + high + low;
    WithoutOncePer(id, s, k);
    SelectedAreAll(id, rest);
    SelectedClimbOrFall(id, rest);
    FirstOf(s, k, high, low);
    SameTally(id, s, t);
    OneMention(id, s[k], j);
    var first, raised := MentionsIn(Tags, s[k]), Mentions(Tags, high);
    RestIsAmong(s, k);
    CreditlessMentions(id, high);
    ClimbingWithoutCredit(id, raised);
    FallingIsNotPositive(id, Mentions(Tags, low));
    PositiveJoined(id, first + raised, Mentions(Tags, low));
    PositiveJoined(id, first, raised);
    TallyJoined(id, first, raised);
    MasteryIsBatchRatio(id, first + raised);
    QuotientSign(-s[k].tagScores[j].weight, TallyOf(id, first + raised).weighted);
    RatioBelowZero(TallyOf(id, first + raised).weightedCorrect, TallyOf(id, first + raised).weighted);
    FallingStaysBelow(id, first + raised, Mentions(Tags, low));
  }

  lemma {:induction false} RestIsAmong(s: seq<Attempt>, k: nat)
    requires k < |s|
    ensures forall a :: a in Without(s, k) ==> a in s
  {
  }

  lemma {:induction false} RatioBelowZero(part: real, whole: real)
    requires part < 0.0 < whole
    ensures Ratio(part, whole) < 0.0
  {
    QuotientSign(part, whole);
  }

  lemma {:induction false} MentionHasAttempt(s: seq<Attempt>, i: nat) returns (k: nat, j: nat)
    requires i < |Mentions(Tags, s)|
    ensures k < |s| && j < |s[k].tagScores| && Mentions(Tags, s)[i] == MentionAt(Tags, s[k], j)
  {
    var before := Mentions(Tags, s[..|s| - 1]);
    if i < |before| {
      k, j := MentionHasAttempt(s[..|s| - 1], i);
    } else {
      k, j := |s| - 1, i - |before|;
    }
  }

  /** An unsteady tag has two orders with different masteries. */
  lemma {:induction false} UnsteadyRemembersOrder(id: string, s: seq<Attempt>)
    returns (t: seq<Attempt>, u: seq<Attempt>)
    requires OncePerAttempt(id, s) && !Steady(id, Mentions(Tags, s))
    ensures multiset(t) == multiset(s) == multiset(u)
    ensures Mastery(id, Mentions(Tags, t)) != Mastery(id, Mentions(Tags, u)) == 0.0
  {
    var ms := Mentions(Tags, s);
    u := RaisingLast(id, s);
    var i :| 0 <= i < |ms| && CanCredit(ms[i], id, PositiveWeight(id, ms));
    var k, j := MentionHasAttempt(s, i);
    if l :| 0 <= l < |s| && !NoPositiveCredit(id, MentionsIn(Tags, s[l])) {
      var mj :| 0 <= mj < |s[l].tagScores| && s[l].tagScores[mj].tagID == id && s[l].tagScores[mj].weight > 0.0
                && s[l].isCorrect;
      t := CreditFirst(id, s, l, mj);
    } else {
      assert NoPositiveCredit(id, MentionsIn(Tags, s[k])) && MentionsIn(Tags, s[k])[j] == ms[i];
      t := DebitFirst(id, s, k, j);
    }
  }

  // ---- The theorem, for profiles ----

  /** Whatever order the attempts are read in, the profile shows the same mastery of the tag. */
  ghost predicate OrderFree(id: string, userID: string, s: seq<Attempt>, now: Time) {
    forall t: seq<Attempt> :: multiset(t) == multiset(s) ==>
      MasteryIn(ProfileOf(userID, t, now), id) == MasteryIn(ProfileOf(userID, s, now), id)
  }

  lemma {:induction false} SteadyIsOrderFree(id: string, userID: string, s: seq<Attempt>, now: Time)
    requires Steady(id, Mentions(Tags, s))
    ensures OrderFree(id, userID, s, now)
  {
    forall t: seq<Attempt> | multiset(t) == multiset(s)
      ensures MasteryIn(ProfileOf(userID, t, now), id) == MasteryIn(ProfileOf(userID, s, now), id)
    {
      MentionsForgetOrder(Tags, s, t);
      SteadyMasteries(id, Mentions(Tags, s), Mentions(Tags, t));
      ProfileMastery(userID, s, id, now);
      ProfileMastery(userID, t, id, now);
    }
  }

  /**
   A tag's mastery does not depend on the order of the attempts exactly when its weights add up to more than zero or
   no right answer can be credited to a positive total. (The other direction for attempts that name a tag once.)
   */
  lemma {:induction false} MasteryForgetsOrder(id: string, userID: string, s: seq<Attempt>, now: Time)
    ensures Steady(id, Mentions(Tags, s)) ==> OrderFree(id, userID, s, now)
    ensures OncePerAttempt(id, s) ==> (OrderFree(id, userID, s, now) <==> Steady(id, Mentions(Tags, s)))
  {
    if Steady(id, Mentions(Tags, s)) {
      SteadyIsOrderFree(id, userID, s, now);
    } else if OncePerAttempt(id, s) {
      var t, u := UnsteadyRemembersOrder(id, s);
      ProfileMastery(userID, t, id, now);
      ProfileMastery(userID, u, id, now);
    }
  }

  /** Tag weights that are not negative are steady. */
  lemma {:induction false} NonNegativeIsSteady(id: string, ms: seq<Mention>)
    requires NonNegative(ms)
    ensures Steady(id, ms)
  {
    forall i | 0 <= i < |ms| && CanCredit(ms[i], id, PositiveWeight(id, ms)) ensures TallyOf(id, ms).weighted > 0.0 {
      TallyWithout(id, ms, i);
      var rest := Without(ms, i);
      forall k | 0 <= k < |rest| ensures rest[k].weight >= 0.0 {
        assert rest[k] == ms[PastGap(i, k)];
      }
      TallyBounds(id, rest);
    }
  }

  // ---- All of a tag's statistics ----

  /** Two tag statistics that agree in everything but the labels and the mastery, which may depend on the order. */
  predicate SameSums(x: TagStat, y: TagStat) {
    x == y.(code := x.code, name := x.name, kind := x.kind, mastery := x.mastery)
  }

  /**
   Reordering the attempts changes at most the labels and masteries of tag statistics, and of a steady tag the labels
   alone.
   */
  lemma {:induction false} TagStatsForgetOrder(userID: string, s: seq<Attempt>, t: seq<Attempt>, now: Time)
    requires multiset(s) == multiset(t)
    ensures ProfileOf(userID, s, now).tags.Keys == ProfileOf(userID, t, now).tags.Keys
    ensures forall id :: id in ProfileOf(userID, s, now).tags ==>
      var x, y := ProfileOf(userID, s, now).tags[id], ProfileOf(userID, t, now).tags[id];
      SameSums(x, y) && (Steady(id, Mentions(Tags, s)) ==> x.mastery == y.mastery)
  {
    var ms, mt := Mentions(Tags, s), Mentions(Tags, t);
    MentionsForgetOrder(Tags, s, t);
    SameIDs(ms, mt);
    forall id | id in IDs(ms)
      ensures TallyOf(id, ms) == TallyOf(id, mt)
      ensures Steady(id, ms) ==> Mastery(id, ms) == Mastery(id, mt)
    {
      TallyForgetsOrder(id, ms, mt);
      if Steady(id, ms) { SteadyMasteries(id, ms, mt); }
    }
  }

  // ---- A counterexample, and the theorem for single mentions ----

  /** An attempt that mentions one tag. */
  function Tagged(m: Mention): (a: Attempt)
    ensures MentionsIn(Tags, a) == [m]
  {
    Attempt("", "", "", "", [], [TagScore(m.id, m.code, m.name, m.kind, m.weight)], 1, "", m.correct, "", 0)
  }

  function TaggedAll(ms: seq<Mention>): (s: seq<Attempt>)
    ensures |s| == |ms| && forall i :: 0 <= i < |ms| ==> s[i] == Tagged(ms[i])
  {
    seq(|ms|, i requires 0 <= i < |ms| => Tagged(ms[i]))
  }

  lemma {:induction false} TaggedMentions(ms: seq<Mention>)
    ensures Mentions(Tags, TaggedAll(ms)) == ms
  {
    if ms != [] {
      TaggedMentions(ms[..|ms| - 1]);
      assert TaggedAll(ms)[..|ms| - 1] == TaggedAll(ms[..|ms| - 1]);
    }
  }

  /** For mentions instead of attempts the condition is exact without exception. */
  lemma {:induction false} MentionMasteryForgetsOrder(id: string, ms: seq<Mention>)
    ensures (forall ns: seq<Mention> :: multiset(ns) == multiset(ms) ==> Mastery(id, ns) == Mastery(id, ms))
       <==> Steady(id, ms)
  {
    if Steady(id, ms) {
      forall ns: seq<Mention> | multiset(ns) == multiset(ms) ensures Mastery(id, ns) == Mastery(id, ms) {
        SteadyMasteries(id, ms, ns);
      }
    } else {
      var s := TaggedAll(ms);
      TaggedMentions(ms);
      var t, u := UnsteadyRemembersOrder(id, s);
      MentionsForgetOrder(Tags, s, t);
      MentionsForgetOrder(Tags, s, u);
    }
  }

  lemma {:induction false} TwoMentions(id: string, first: Mention, second: Mention)
    requires first.id == id == second.id && first.correct && second.correct && first.weight + second.weight == 0.0
    ensures Mastery(id, [first, second]) == if first.weight > 0.0 then 1.0 else 0.0
  {
    assert [first, second] == [] + [first] + [second];
    OneMore(id, [], first);
    OneMore(id, [] + [first], second);
    if first.weight > 0.0 { SelfQuotient(first.weight); }
  }

  /** Two right answers of weights 1 and -1: read in one order the profile shows mastery 1, in the other 0. */
  lemma {:induction false} NegativeWeightsRememberOrder(id: string, userID: string, now: Time)
    ensures var plus := Tagged(Mention(id, 1.0, true, "", "", ""));
      var minus := Tagged(Mention(id, -1.0, true, "", "", ""));
      && multiset([plus, minus]) == multiset([minus, plus])
      && MasteryIn(ProfileOf(userID, [plus, minus], now), id) == 1.0
      && MasteryIn(ProfileOf(userID, [minus, plus], now), id) == 0.0
  {
    var up, down := Mention(id, 1.0, true, "", "", ""), Mention(id, -1.0, true, "", "", "");
    TwoTagged(userID, up, down, now);
    TwoTagged(userID, down, up, now);
    TwoMentions(id, up, down);
    TwoMentions(id, down, up);
    assert [Tagged(up), Tagged(down)] == [Tagged(up)] + [Tagged(down)];
  }

  lemma {:induction false} TwoTagged(userID: string, first: Mention, second: Mention, now: Time)
    ensures forall id ::
      MasteryIn(ProfileOf(userID, [Tagged(first), Tagged(second)], now), id) == Mastery(id, [first, second])
  {
    assert TaggedAll([first, second]) == [Tagged(first), Tagged(second)];
    TaggedMentions([first, second]);
    forall id: string
      ensures MasteryIn(ProfileOf(userID, [Tagged(first), Tagged(second)], now), id) == Mastery(id, [first, second])
    {
      ProfileMastery(userID, [Tagged(first), Tagged(second)], id, now);
    }
  }
}
