/**
 Choosing tasks from the ranking in two passes: the first passes over tasks whose primary topic already has two,
 the second fills up with what was passed over. The choice is described by positions in the ranking.
 */
module TaskSelection {
  import opened Permutations
  import opened Positions
  import opened Sequences
  import opened Ranking

  function Primary(task: RankedTask): string {
    if task.topicIDs == [] then "" else task.topicIDs[0]
  }

  ghost predicate Ascending(chosen: seq<nat>) {
    forall k, l :: 0 <= k < l < |chosen| ==> chosen[k] < chosen[l]
  }

  function CountPrimary(ranked: seq<RankedTask>, chosen: seq<nat>, topic: string): nat
    requires Below(chosen, |ranked|)
  {
    if chosen == [] then 0
    else CountPrimary(ranked, chosen[..|chosen| - 1], topic) +
         if Primary(ranked[chosen[|chosen| - 1]]) == topic then 1 else 0
  }

  predicate Crowded(ranked: seq<RankedTask>, chosen: seq<nat>, i: nat)
    requires Below(chosen, |ranked|) && i < |ranked|
  {
    Primary(ranked[i]) != "" && CountPrimary(ranked, chosen, Primary(ranked[i])) >= 2
  }

  /** What the first pass has chosen after n tasks. The last free place is given without looking at topics. */
  function FirstPass(ranked: seq<RankedTask>, n: nat, maxTasks: nat): (chosen: seq<nat>)
    requires n <= |ranked| && maxTasks >= 1
    ensures Below(chosen, n) && Ascending(chosen) && |chosen| <= maxTasks
  {
    if n == 0 then []
    else
      var before := FirstPass(ranked, n - 1, maxTasks);
      if |before| == maxTasks then before
      else if Crowded(ranked, before, n - 1) && |before| < maxTasks - 1 then before
      else before + [n - 1]
  }

  function TakenIDs(ranked: seq<RankedTask>, chosen: seq<nat>): set<string>
    requires Below(chosen, |ranked|)
  {
    if chosen == [] then {} else TakenIDs(ranked, chosen[..|chosen| - 1]) + {ranked[chosen[|chosen| - 1]].id}
  }

  /** What the second pass adds from the first n tasks, to a choice that was not full. */
  function SecondPass(ranked: seq<RankedTask>, first: seq<nat>, n: nat, maxTasks: nat): (chosen: seq<nat>)
    requires n <= |ranked| && Below(first, |ranked|) && |first| < maxTasks
    ensures Below(chosen, |ranked|) && |chosen| <= maxTasks
  {
    if n == 0 then first
    else
      var before := SecondPass(ranked, first, n - 1, maxTasks);
      if |before| == maxTasks || ranked[n - 1].id in TakenIDs(ranked, first) then before
      else before + [n - 1]
  }

  function Chosen(ranked: seq<RankedTask>, maxTasks: nat): (chosen: seq<nat>)
    requires maxTasks >= 1
    ensures Below(chosen, |ranked|)
  {
    var first := FirstPass(ranked, |ranked|, maxTasks);
    if |first| < maxTasks then SecondPass(ranked, first, |ranked|, maxTasks) else first
  }

  // ---- The code ----

  method PickByTopic(ranked: seq<RankedTask>, maxTasks: nat) returns (selected: seq<RankedTask>)
    requires maxTasks >= 1
    ensures selected == At(ranked, FirstPass(ranked, |ranked|, maxTasks))
  {
    selected := [];
    var byPrimaryTopic: map<string, nat> := map[];
    ghost var chosen: seq<nat> := [];
    for i := 0 to |ranked|
      invariant Picked(ranked, i, maxTasks, chosen, selected, byPrimaryTopic) && |chosen| < maxTasks
    {
      var task := ranked[i];
      var primary := Primary(task);
      PickStep(ranked, i, maxTasks, chosen, selected, byPrimaryTopic);
      var count := CountIn(byPrimaryTopic, primary);
      if primary != "" && count >= 2 && |selected| < maxTasks - 1 {
        continue;
      }
      selected := selected + [task];
      chosen := chosen + [i];
      if primary != "" {
        byPrimaryTopic := byPrimaryTopic[primary := count + 1];
      }
      if |selected| == maxTasks {
        FullStaysFull(ranked, i + 1, |ranked|, maxTasks);
        return;
      }
    }
  }

  /** Where the first pass stands after n tasks. */
  ghost predicate Picked(ranked: seq<RankedTask>, n: nat, maxTasks: nat, chosen: seq<nat>, selected: seq<RankedTask>,
                         counts: map<string, nat>)
    requires n <= |ranked| && maxTasks >= 1
  {
    && chosen == FirstPass(ranked, n, maxTasks)
    && selected == At(ranked, chosen)
    && CountsMatch(ranked, chosen, counts)
  }

  method FillUp(ranked: seq<RankedTask>, picked: seq<RankedTask>, ghost first: seq<nat>, maxTasks: nat)
    returns (selected: seq<RankedTask>)
    requires Below(first, |ranked|) && |first| < maxTasks && picked == At(ranked, first)
    ensures selected == At(ranked, SecondPass(ranked, first, |ranked|, maxTasks))
  {
    var taken := set task | task in picked :: task.id;
    TakenIsIDs(ranked, first);
    selected := picked;
    ghost var chosen := first;
    for i := 0 to |ranked|
      invariant chosen == SecondPass(ranked, first, i, maxTasks) && |chosen| < maxTasks
      invariant selected == At(ranked, chosen)
    {
      if ranked[i].id in taken {
        continue;
      }
      AtStep(ranked, chosen, i);
      selected := selected + [ranked[i]];
      chosen := chosen + [i];
      if |selected| == maxTasks {
        FilledStaysFilled(ranked, first, i + 1, |ranked|, maxTasks);
        return;
      }
    }
  }

  method SelectTasks(ranked: seq<RankedTask>, maxTasks: nat) returns (selected: seq<RankedTask>)
    requires maxTasks >= 1
    ensures selected == At(ranked, Chosen(ranked, maxTasks))
  {
    selected := PickByTopic(ranked, maxTasks);
    if |selected| < maxTasks {
      selected := FillUp(ranked, selected, FirstPass(ranked, |ranked|, maxTasks), maxTasks);
    }
  }

  lemma {:induction false} CountStep(ranked: seq<RankedTask>, chosen: seq<nat>, i: nat, topic: string)
    requires Below(chosen, |ranked|) && i < |ranked|
    ensures CountPrimary(ranked, chosen + [i], topic) ==
      CountPrimary(ranked, chosen, topic) + (if Primary(ranked[i]) == topic then 1 else 0)
  {
    assert (chosen + [i])[..|chosen|] == chosen;
  }

  function CountIn(counts: map<string, nat>, topic: string): nat {
    if topic in counts then counts[topic] else 0
  }

  ghost predicate CountsMatch(ranked: seq<RankedTask>, chosen: seq<nat>, counts: map<string, nat>)
    requires Below(chosen, |ranked|)
  {
    forall p :: p != "" ==> CountIn(counts, p) == CountPrimary(ranked, chosen, p)
  }

  lemma {:induction false} CrowdedByCount(ranked: seq<RankedTask>, chosen: seq<nat>, counts: map<string, nat>, i: nat)
    requires Below(chosen, |ranked|) && i < |ranked| && CountsMatch(ranked, chosen, counts)
    ensures Crowded(ranked, chosen, i) <==> Primary(ranked[i]) != "" && CountIn(counts, Primary(ranked[i])) >= 2
  {
  }

  lemma {:induction false} CountsStep(ranked: seq<RankedTask>, chosen: seq<nat>, counts: map<string, nat>, i: nat)
    requires Below(chosen, |ranked|) && i < |ranked| && CountsMatch(ranked, chosen, counts)
    ensures var p := Primary(ranked[i]);
      CountsMatch(ranked, chosen + [i], CountedUp(counts, p))
  {
    var p := Primary(ranked[i]);
    var counts' := CountedUp(counts, p);
    forall topic | topic != "" ensures CountIn(counts', topic) == CountPrimary(ranked, chosen + [i], topic) {
      CountStep(ranked, chosen, i, topic);
    }
  }

  function CountedUp(counts: map<string, nat>, topic: string): map<string, nat> {
    if topic != "" then counts[topic := CountIn(counts, topic) + 1] else counts
  }

  /** One turn of the first pass, as the code decides it by its counters. */
  lemma {:induction false} PickStep(ranked: seq<RankedTask>, i: nat, maxTasks: nat, chosen: seq<nat>,
                                    selected: seq<RankedTask>, counts: map<string, nat>)
    requires i < |ranked| && maxTasks >= 1
    requires Picked(ranked, i, maxTasks, chosen, selected, counts) && |chosen| < maxTasks
    ensures var p := Primary(ranked[i]);
      if p != "" && CountIn(counts, p) >= 2 && |selected| < maxTasks - 1
      then Picked(ranked, i + 1, maxTasks, chosen, selected, counts)
      else Picked(ranked, i + 1, maxTasks, chosen + [i], selected + [ranked[i]], CountedUp(counts, p))
  {
    CrowdedByCount(ranked, chosen, counts, i);
    FirstPassStep(ranked, i, maxTasks);
    AtStep(ranked, chosen, i);
    CountsStep(ranked, chosen, counts, i);
  }

  lemma {:induction false} TakenIsIDs(ranked: seq<RankedTask>, chosen: seq<nat>)
    requires Below(chosen, |ranked|)
    ensures (set task | task in At(ranked, chosen) :: task.id) == TakenIDs(ranked, chosen)
  {
    if chosen != [] {
      var before, last := chosen[..|chosen| - 1], chosen[|chosen| - 1];
      TakenIsIDs(ranked, before);
      AtStep(ranked, before, last);
      assert chosen == before + [last];
      assert ranked[last] in At(ranked, chosen);
      assert forall task :: task in At(ranked, chosen) <==> task in At(ranked, before) || task == ranked[last];
    }
  }

  lemma {:induction false} FullStaysFull(ranked: seq<RankedTask>, n: nat, m: nat, maxTasks: nat)
    requires n <= m <= |ranked| && maxTasks >= 1 && |FirstPass(ranked, n, maxTasks)| == maxTasks
    ensures FirstPass(ranked, m, maxTasks) == FirstPass(ranked, n, maxTasks)
  {
    if n < m {
      FullStaysFull(ranked, n, m - 1, maxTasks);
    }
  }

  lemma {:induction false} FilledStaysFilled(ranked: seq<RankedTask>, first: seq<nat>, n: nat, m: nat, maxTasks: nat)
    requires n <= m <= |ranked| && Below(first, |ranked|) && |first| < maxTasks
    requires |SecondPass(ranked, first, n, maxTasks)| == maxTasks
    ensures SecondPass(ranked, first, m, maxTasks) == SecondPass(ranked, first, n, maxTasks)
  {
    if n < m {
      FilledStaysFilled(ranked, first, n, m - 1, maxTasks);
    }
  }

  // ---- Laws ----

  /** With distinct ids, an id is taken exactly when its position is. */
  lemma {:induction false} TakenMeansChosen(ranked: seq<RankedTask>, first: seq<nat>, i: nat)
    requires DistinctIDs(ranked) && Below(first, |ranked|) && i < |ranked|
    ensures ranked[i].id in TakenIDs(ranked, first) <==> i in first
  {
    if first != [] {
      var before, last := first[..|first| - 1], first[|first| - 1];
      assert first == before + [last];
      TakenMeansChosen(ranked, before, i);
      assert ranked[i].id == ranked[last].id <==> i == last;
    }
  }

  /** No position is chosen twice. */
  lemma {:induction false} SecondPassDistinct(ranked: seq<RankedTask>, first: seq<nat>, n: nat, maxTasks: nat)
    requires DistinctIDs(ranked) && n <= |ranked| && Below(first, |ranked|) && Ascending(first) && |first| < maxTasks
    ensures Distinct(SecondPass(ranked, first, n, maxTasks))
    ensures forall i :: i in SecondPass(ranked, first, n, maxTasks) ==> i in first || i < n
  {
    if n > 0 {
      SecondPassDistinct(ranked, first, n - 1, maxTasks);
      TakenMeansChosen(ranked, first, n - 1);
    }
  }

  /** How many of the first n positions are not in `first`. */
  function Untaken(first: seq<nat>, n: nat): nat {
    if n == 0 then 0 else Untaken(first, n - 1) + if n - 1 in first then 0 else 1
  }

  lemma {:induction false} UntakenIgnoresLater(first: seq<nat>, x: nat, n: nat)
    requires n <= x
    ensures Untaken(first + [x], n) == Untaken(first, n)
  {
    if n > 0 {
      UntakenIgnoresLater(first, x, n - 1);
    }
  }

  lemma {:induction false} UntakenSize(first: seq<nat>, n: nat)
    requires Below(first, n) && Ascending(first)
    ensures Untaken(first, n) == n - |first|
  {
    if n > 0 {
      if first != [] && first[|first| - 1] == n - 1 {
        var before := first[..|first| - 1];
        assert first == before + [n - 1];
        LastOf(before, n - 1);
        AllButLast(first);
        OneMorePosition(first, n);
        UntakenIgnoresLater(before, n - 1, n - 1);
        UntakenSize(before, n - 1);
      } else {
        NotTheLast(first, n);
        OneMorePosition(first, n);
        UntakenSize(first, n - 1);
      }
    }
  }

  lemma {:induction false} OneMorePosition(first: seq<nat>, n: nat)
    requires n > 0
    ensures Untaken(first, n) == Untaken(first, n - 1) + if n - 1 in first then 0 else 1
  {
  }

  lemma {:induction false} AllButLast(first: seq<nat>)
    requires Ascending(first) && first != []
    ensures Ascending(first[..|first| - 1]) && Below(first[..|first| - 1], first[|first| - 1])
  {
  }

  lemma {:induction false} NotTheLast(first: seq<nat>, n: nat)
    requires n > 0 && Below(first, n) && Ascending(first) && (first == [] || first[|first| - 1] != n - 1)
    ensures Below(first, n - 1) && n - 1 !in first
  {
    forall k | 0 <= k < |first| ensures first[k] < n - 1 {
      assert k < |first| - 1 ==> first[k] < first[|first| - 1];
    }
  }

  lemma {:induction false} SecondPassStep(ranked: seq<RankedTask>, first: seq<nat>, n: nat, maxTasks: nat)
    requires DistinctIDs(ranked) && n < |ranked| && Below(first, |ranked|) && |first| < maxTasks
    ensures |SecondPass(ranked, first, n + 1, maxTasks)| == |SecondPass(ranked, first, n, maxTasks)| +
      if |SecondPass(ranked, first, n, maxTasks)| == maxTasks || n in first then 0 else 1
  {
    TakenMeansChosen(ranked, first, n);
  }

  lemma {:induction false} SecondPassSize(ranked: seq<RankedTask>, first: seq<nat>, n: nat, maxTasks: nat)
    requires DistinctIDs(ranked) && n <= |ranked| && Below(first, |ranked|) && |first| < maxTasks
    ensures |SecondPass(ranked, first, n, maxTasks)| == Least(|first| + Untaken(first, n), maxTasks)
  {
    if n > 0 {
      SecondPassSize(ranked, first, n - 1, maxTasks);
      SecondPassStep(ranked, first, n - 1, maxTasks);
    }
  }

  function Least(m: nat, n: nat): nat { if m <= n then m else n }

  /** Exactly as many tasks as asked for, or all of them when there are fewer; none twice. */
  lemma {:induction false} ChoiceSize(ranked: seq<RankedTask>, maxTasks: nat)
    requires DistinctIDs(ranked) && maxTasks >= 1
    ensures |Chosen(ranked, maxTasks)| == Least(|ranked|, maxTasks)
    ensures Distinct(Chosen(ranked, maxTasks))
  {
    var n, first := |ranked|, FirstPass(ranked, |ranked|, maxTasks);
    UntakenSize(first, n);
    if |first| < maxTasks {
      SecondPassDistinct(ranked, first, n, maxTasks);
      SecondPassSize(ranked, first, n, maxTasks);
    }
  }

  lemma {:induction false} FirstPassGrows(ranked: seq<RankedTask>, n: nat, m: nat, maxTasks: nat)
    requires n <= m <= |ranked| && maxTasks >= 1
    ensures FirstPass(ranked, n, maxTasks) <= FirstPass(ranked, m, maxTasks)
  {
    if n < m {
      FirstPassGrows(ranked, n, m - 1, maxTasks);
      FirstPassKeeps(ranked, m - 1, maxTasks);
    }
  }

  lemma {:induction false} FirstPassKeeps(ranked: seq<RankedTask>, n: nat, maxTasks: nat)
    requires n < |ranked| && maxTasks >= 1
    ensures FirstPass(ranked, n, maxTasks) <= FirstPass(ranked, n + 1, maxTasks)
  {
    if |FirstPass(ranked, n, maxTasks)| < maxTasks {
      FirstPassStep(ranked, n, maxTasks);
    } else {
      FullStaysFull(ranked, n, n + 1, maxTasks);
    }
  }

  /** Two positions of the same primary topic, both better ranked than `i` and both chosen. */
  ghost predicate TwoBetter(ranked: seq<RankedTask>, chosen: seq<nat>, i: nat)
    requires i < |ranked| && Below(chosen, |ranked|)
  {
    exists a, b :: 0 <= a < b < i && a in chosen && b in chosen
      && Primary(ranked[a]) == Primary(ranked[b]) == Primary(ranked[i]) != ""
  }

  lemma {:induction false} CountedOnce(ranked: seq<RankedTask>, chosen: seq<nat>, topic: string) returns (a: nat)
    requires Below(chosen, |ranked|) && CountPrimary(ranked, chosen, topic) >= 1
    ensures a in chosen && Primary(ranked[a]) == topic
  {
    a := chosen[|chosen| - 1];
    if Primary(ranked[a]) != topic {
      a := CountedOnce(ranked, chosen[..|chosen| - 1], topic);
    }
  }

  lemma {:induction false} CountedTwice(ranked: seq<RankedTask>, chosen: seq<nat>, topic: string)
    returns (a: nat, b: nat)
    requires Below(chosen, |ranked|) && Ascending(chosen) && CountPrimary(ranked, chosen, topic) >= 2
    ensures a < b && a in chosen && b in chosen && Primary(ranked[a]) == Primary(ranked[b]) == topic
  {
    var before := chosen[..|chosen| - 1];
    b := chosen[|chosen| - 1];
    if Primary(ranked[b]) == topic {
      a := CountedOnce(ranked, before, topic);
    } else {
      a, b := CountedTwice(ranked, before, topic);
    }
  }

  lemma {:induction false} FirstPassStep(ranked: seq<RankedTask>, n: nat, maxTasks: nat)
    requires maxTasks >= 1 && n < |ranked| && |FirstPass(ranked, n, maxTasks)| < maxTasks
    ensures var before := FirstPass(ranked, n, maxTasks);
      FirstPass(ranked, n + 1, maxTasks) ==
        if Crowded(ranked, before, n) && |before| < maxTasks - 1 then before else before + [n]
  {
  }

  /** What the first pass does not choose while places are free, it passes over for its topic. */
  lemma {:induction false} PassedOver(ranked: seq<RankedTask>, maxTasks: nat, i: nat)
    requires maxTasks >= 1 && i < |ranked| && |FirstPass(ranked, i, maxTasks)| < maxTasks
    requires i !in FirstPass(ranked, |ranked|, maxTasks)
    ensures Crowded(ranked, FirstPass(ranked, i, maxTasks), i)
  {
    var before, after := FirstPass(ranked, i, maxTasks), FirstPass(ranked, i + 1, maxTasks);
    FirstPassGrows(ranked, i + 1, |ranked|, maxTasks);
    PrefixMember(after, FirstPass(ranked, |ranked|, maxTasks), i);
    LastOf(before, i);
    assert after != before + [i];
    FirstPassStep(ranked, i, maxTasks);
  }

  /** The second pass appends to the first, in ranking order. */
  lemma {:induction false} SecondPassAppends(ranked: seq<RankedTask>, first: seq<nat>, n: nat, maxTasks: nat)
    requires n <= |ranked| && Below(first, |ranked|) && |first| < maxTasks
    ensures first <= SecondPass(ranked, first, n, maxTasks)
    ensures Ascending(SecondPass(ranked, first, n, maxTasks)[|first|..])
    ensures Below(SecondPass(ranked, first, n, maxTasks)[|first|..], n)
  {
    if n > 0 {
      SecondPassAppends(ranked, first, n - 1, maxTasks);
    }
  }

  lemma {:induction false} FirstIsChosen(ranked: seq<RankedTask>, maxTasks: nat, i: nat)
    requires maxTasks >= 1
    ensures i in FirstPass(ranked, |ranked|, maxTasks) ==> i in Chosen(ranked, maxTasks)
  {
    var first := FirstPass(ranked, |ranked|, maxTasks);
    if |first| < maxTasks {
      SecondPassAppends(ranked, first, |ranked|, maxTasks);
      PrefixMember(first, Chosen(ranked, maxTasks), i);
    }
  }

  /** A task left out while a lower-ranked one is chosen has two better-ranked chosen tasks of its own primary topic. */
  lemma {:induction false} LeftOutForTopic(ranked: seq<RankedTask>, maxTasks: nat, i: nat, j: nat)
    requires maxTasks >= 1 && i < j < |ranked|
    requires i !in Chosen(ranked, maxTasks) && j in Chosen(ranked, maxTasks)
    ensures TwoBetter(ranked, Chosen(ranked, maxTasks), i)
  {
    var n, before := |ranked|, FirstPass(ranked, i, maxTasks);
    FirstIsChosen(ranked, maxTasks, i);
    FirstPassGrows(ranked, i, n, maxTasks);
    if |before| == maxTasks {
      FullStaysFull(ranked, i, n, maxTasks);
    }
    PassedOver(ranked, maxTasks, i);
    var a, b := CountedTwice(ranked, before, Primary(ranked[i]));
    FirstIsChosen(ranked, maxTasks, a);
    FirstIsChosen(ranked, maxTasks, b);
  }

  lemma {:induction false} TwoPerTopicWhileOpen(ranked: seq<RankedTask>, n: nat, maxTasks: nat, topic: string)
    requires n <= |ranked| && maxTasks >= 1 && topic != "" && |FirstPass(ranked, n, maxTasks)| < maxTasks
    ensures CountPrimary(ranked, FirstPass(ranked, n, maxTasks), topic) <= 2
  {
    if n > 0 {
      var before := FirstPass(ranked, n - 1, maxTasks);
      FirstPassGrows(ranked, n - 1, n, maxTasks);
      TwoPerTopicWhileOpen(ranked, n - 1, maxTasks, topic);
      FirstPassStep(ranked, n - 1, maxTasks);
      NoThird(ranked, before, n - 1, topic);
    }
  }

  lemma {:induction false} NoThird(ranked: seq<RankedTask>, chosen: seq<nat>, i: nat, topic: string)
    requires Below(chosen, |ranked|) && i < |ranked| && topic != "" && CountPrimary(ranked, chosen, topic) <= 2
    ensures Crowded(ranked, chosen, i) || CountPrimary(ranked, chosen + [i], topic) <= 2
  {
    CountStep(ranked, chosen, i, topic);
  }

  lemma {:induction false} LastPlace(ranked: seq<RankedTask>, n: nat, maxTasks: nat)
    requires 0 < n <= |ranked| && maxTasks >= 1
    requires |FirstPass(ranked, n - 1, maxTasks)| < maxTasks == |FirstPass(ranked, n, maxTasks)|
    ensures FirstPass(ranked, n, maxTasks)[..maxTasks - 1] == FirstPass(ranked, n - 1, maxTasks)
  {
    FirstPassStep(ranked, n - 1, maxTasks);
  }

  /** The first pass gives a topic no more than two places, not counting the very last place there is. */
  lemma {:induction false} TwoPerTopic(ranked: seq<RankedTask>, n: nat, maxTasks: nat, topic: string)
    requires n <= |ranked| && maxTasks >= 1 && topic != ""
    ensures var chosen := FirstPass(ranked, n, maxTasks);
      if |chosen| < maxTasks then CountPrimary(ranked, chosen, topic) <= 2
      else CountPrimary(ranked, chosen[..maxTasks - 1], topic) <= 2
  {
    if |FirstPass(ranked, n, maxTasks)| < maxTasks {
      TwoPerTopicWhileOpen(ranked, n, maxTasks, topic);
    } else {
      TwoPerTopicWhenFull(ranked, n, maxTasks, topic);
    }
  }

  lemma {:induction false} TwoPerTopicWhenFull(ranked: seq<RankedTask>, n: nat, maxTasks: nat, topic: string)
    requires n <= |ranked| && maxTasks >= 1 && topic != "" && |FirstPass(ranked, n, maxTasks)| == maxTasks
    ensures CountPrimary(ranked, FirstPass(ranked, n, maxTasks)[..maxTasks - 1], topic) <= 2
  {
    if |FirstPass(ranked, n - 1, maxTasks)| == maxTasks {
      FullStaysFull(ranked, n - 1, n, maxTasks);
      TwoPerTopicWhenFull(ranked, n - 1, maxTasks, topic);
    } else {
      LastPlace(ranked, n, maxTasks);
      TwoPerTopicWhileOpen(ranked, n - 1, maxTasks, topic);
    }
  }

  // ---- One turn of each pass, by the tasks themselves ----

  function HasPrimary(topic: string): RankedTask -> bool {
    (t: RankedTask) => t.topicIDs != [] && t.topicIDs[0] == topic
  }

  lemma {:induction false} CountIsHowMany(ranked: seq<RankedTask>, chosen: seq<nat>, topic: string)
    requires Below(chosen, |ranked|) && topic != ""
    ensures CountPrimary(ranked, chosen, topic) == HowMany(At(ranked, chosen), HasPrimary(topic))
  {
    if chosen == [] {
      HowManyNone(HasPrimary(topic));
    } else {
      var before, last := chosen[..|chosen| - 1], chosen[|chosen| - 1];
      CountIsHowMany(ranked, before, topic);
      assert chosen == before + [last];
      AtStep(ranked, before, last);
      HowManyMore(At(ranked, before), ranked[last], HasPrimary(topic));
    }
  }

  /**
   While there is room the first pass takes the next task if it has no primary topic, if fewer than two tasks with that
   topic were taken, or if only the last place is left.
   */
  lemma {:induction false} FirstPassTakes(ranked: seq<RankedTask>, i: nat, maxTasks: nat)
    requires maxTasks >= 1 && i < |ranked| && |FirstPass(ranked, i, maxTasks)| < maxTasks
    ensures var chosen, topics := FirstPass(ranked, i, maxTasks), ranked[i].topicIDs;
      FirstPass(ranked, i + 1, maxTasks) ==
        if topics == [] || topics[0] == "" || |chosen| == maxTasks - 1
           || HowMany(At(ranked, chosen), HasPrimary(topics[0])) < 2
        then chosen + [i] else chosen
  {
    FirstPassStep(ranked, i, maxTasks);
    if Primary(ranked[i]) != "" {
      CountIsHowMany(ranked, FirstPass(ranked, i, maxTasks), Primary(ranked[i]));
    }
  }

  lemma {:induction false} TakenIDsAre(ranked: seq<RankedTask>, first: seq<nat>, id: string)
    requires Below(first, |ranked|)
    ensures id in TakenIDs(ranked, first) <==> exists t :: t in At(ranked, first) && t.id == id
  {
    TakenIsIDs(ranked, first);
  }

  /** While there is room the second pass takes the next task if none with its id was taken in the first. */
  lemma {:induction false} SecondPassTakes(ranked: seq<RankedTask>, first: seq<nat>, i: nat, maxTasks: nat)
    requires i < |ranked| && Below(first, |ranked|) && |first| < maxTasks
    ensures var chosen := SecondPass(ranked, first, i, maxTasks);
      SecondPass(ranked, first, i + 1, maxTasks) ==
        if |chosen| == maxTasks || exists t :: t in At(ranked, first) && t.id == ranked[i].id
        then chosen else chosen + [i]
  {
    TakenIDsAre(ranked, first, ranked[i].id);
  }
}
