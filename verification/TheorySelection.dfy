/**
 Choosing theory for the selected tasks: blocks are scored by the topics of the tasks and taken greedily, best first,
 as long as they share no topic with a block already taken.
 */
module TheorySelection {
  import opened Cosine
  import opened Orders
  import opened Positions
  import opened PythonRounding
  import opened Ranking

  datatype Theory = Theory(id: string, title: string, latexBody: string, summary: string, topicIDs: seq<string>)

  datatype RankedTheory = RankedTheory(id: string, title: string, latexBody: string, summary: string,
                                       topicIDs: seq<string>, score: real)

  /** A selected block shows its score rounded. */
  function Shown(block: RankedTheory): RankedTheory {
    block.(score := PyRound4(block.score))
  }

  function ShownAll(blocks: seq<RankedTheory>): (r: seq<RankedTheory>)
    ensures |r| == |blocks| && forall i :: 0 <= i < |blocks| ==> r[i] == Shown(blocks[i])
  {
    seq(|blocks|, i requires 0 <= i < |blocks| => Shown(blocks[i]))
  }

  lemma {:induction false} ShownStep(blocks: seq<RankedTheory>, block: RankedTheory)
    ensures ShownAll(blocks + [block]) == ShownAll(blocks) + [Shown(block)]
  {
  }

  // ---- Topic scores ----

  /** What one task adds: its score, at least 0.1, spread by its topic weights. */
  function Added(scores: Weights, factor: real, weights: Weights, keys: set<string>): Weights {
    map k | k in scores.Keys + keys ::
      if k in keys && k in weights then Grown(Get(scores, k), factor, weights[k]) else Get(scores, k)
  }

  function Grown(score: real, factor: real, weight: real): real {
    score + factor * weight
  }

  function TaskFactor(task: RankedTask): real {
    AtLeast(0.1, task.score)
  }

  ghost function TopicScores(tasks: seq<RankedTask>, calibrations: map<string, CalibrationInfo>): Weights {
    if tasks == [] then map[]
    else
      var task := tasks[|tasks| - 1];
      var weights := TaskTopicWeights(task.topicIDs, InfoOf(calibrations, task.id));
      Added(TopicScores(tasks[..|tasks| - 1], calibrations), TaskFactor(task), weights, weights.Keys)
  }

  method ScoreTopics(tasks: seq<RankedTask>, calibrations: map<string, CalibrationInfo>) returns (scores: Weights)
    ensures scores == TopicScores(tasks, calibrations)
  {
    scores := map[];
    for i := 0 to |tasks|
      invariant scores == TopicScores(tasks[..i], calibrations)
    {
      assert tasks[..i + 1][..i] == tasks[..i];
      var weights := TopicWeights(tasks[i].topicIDs, InfoOf(calibrations, tasks[i].id));
      scores := AddTask(scores, TaskFactor(tasks[i]), weights);
    }
    assert tasks[..|tasks|] == tasks;
  }

  method AddTask(given: Weights, factor: real, weights: Weights) returns (scores: Weights)
    ensures scores == Added(given, factor, weights, weights.Keys)
  {
    scores := given;
    var rest := weights.Keys;
    assert scores == Added(given, factor, weights, {});
    while rest != {}
      invariant rest <= weights.Keys
      invariant scores == Added(given, factor, weights, weights.Keys - rest)
      decreases rest
    {
      var k :| k in rest;
      AddedStep(given, factor, weights, weights.Keys - rest, k);
      assert weights.Keys - (rest - {k}) == weights.Keys - rest + {k};
      rest := rest - {k};
      scores := scores[k := Grown(Get(scores, k), factor, weights[k])];
    }
    assert weights.Keys - rest == weights.Keys;
  }

  lemma {:induction false} AddedStep(given: Weights, factor: real, weights: Weights, keys: set<string>, k: string)
    requires k in weights && k !in keys
    ensures var before := Added(given, factor, weights, keys);
      Added(given, factor, weights, keys + {k}) == before[k := Grown(Get(before, k), factor, weights[k])]
  {
    assert Get(Added(given, factor, weights, keys), k) == Get(given, k);
  }

  // ---- Ranking theory ----

  function ScoreOf(scores: Weights, topicIDs: seq<string>): real {
    if topicIDs == [] then 0.0
    else ScoreOf(scores, topicIDs[..|topicIDs| - 1]) + Get(scores, topicIDs[|topicIDs| - 1])
  }

  function Scored(item: Theory, topics: seq<string>, score: real): RankedTheory {
    RankedTheory(item.id, item.title, item.latexBody, item.summary, topics, score)
  }

  /** The blocks with a positive score. */
  function Relevant(theory: seq<Theory>, scores: Weights): seq<RankedTheory> {
    if theory == [] then []
    else
      var before, item := Relevant(theory[..|theory| - 1], scores), theory[|theory| - 1];
      var topics := NamedTopics(item.topicIDs);
      var score := ScoreOf(scores, topics);
      if score <= 0.0 then before else before + [Scored(item, topics, score)]
  }

  predicate Before(x: RankedTheory, y: RankedTheory) {
    RankLe(x.score, x.id, y.score, y.id)
  }

  lemma {:induction false} BeforeIsTotalPreorder()
    ensures TotalPreorder(Before)
  {
    RankLeIsTotalPreorder();
  }

  method RankTheory(theory: seq<Theory>, scores: Weights) returns (ranked: seq<RankedTheory>)
    ensures Sorted(Before, ranked) && multiset(ranked) == multiset(Relevant(theory, scores))
    ensures forall i, j :: 0 <= i < j < |ranked| ==>
      ranked[i].score > ranked[j].score || (ranked[i].score == ranked[j].score && StringLe(ranked[i].id, ranked[j].id))
  {
    ranked := [];
    for i := 0 to |theory|
      invariant ranked == Relevant(theory[..i], scores)
    {
      assert theory[..i + 1][..i] == theory[..i];
      var topics, score := NamedTopics(theory[i].topicIDs), 0.0;
      for j := 0 to |topics|
        invariant score == ScoreOf(scores, topics[..j])
      {
        assert topics[..j + 1][..j] == topics[..j];
        score := score + Get(scores, topics[j]);
      }
      assert topics[..|topics|] == topics;
      if score <= 0.0 {
        continue;
      }
      ranked := ranked + [Scored(theory[i], topics, score)];
    }
    assert theory[..|theory|] == theory;
    BeforeIsTotalPreorder();
    ranked := Sort(Before, ranked);
  }

  // ---- The greedy cover ----

  function Topics(item: RankedTheory): set<string> {
    set t | t in item.topicIDs
  }

  function Covered(ranked: seq<RankedTheory>, chosen: seq<nat>): set<string>
    requires Below(chosen, |ranked|)
  {
    if chosen == [] then {}
    else Covered(ranked, chosen[..|chosen| - 1]) + Topics(ranked[chosen[|chosen| - 1]])
  }

  /** The positions taken among the first n blocks. */
  function Greedy(ranked: seq<RankedTheory>, n: nat, limit: nat): (chosen: seq<nat>)
    requires n <= |ranked| && limit >= 1
    ensures Below(chosen, n) && |chosen| <= limit
  {
    if n == 0 then []
    else
      var before := Greedy(ranked, n - 1, limit);
      if |before| == limit || Covered(ranked, before) * Topics(ranked[n - 1]) != {} then before
      else before + [n - 1]
  }

  method Cover(ranked: seq<RankedTheory>, limit: nat) returns (selected: seq<RankedTheory>)
    requires limit >= 1
    ensures selected == ShownAll(At(ranked, Greedy(ranked, |ranked|, limit)))
  {
    selected := [];
    var coveredTopics: set<string> := {};
    ghost var chosen: seq<nat> := [];
    for i := 0 to |ranked|
      invariant chosen == Greedy(ranked, i, limit) && |chosen| < limit
      invariant selected == ShownAll(At(ranked, chosen))
      invariant coveredTopics == Covered(ranked, chosen)
    {
      var topics := Topics(ranked[i]);
      if coveredTopics * topics != {} {
        continue;
      }
      AtStep(ranked, chosen, i);
      CoveredStep(ranked, chosen, i);
      ShownStep(At(ranked, chosen), ranked[i]);
      selected := selected + [Shown(ranked[i])];
      chosen := chosen + [i];
      coveredTopics := coveredTopics + topics;
      if |selected| == limit {
        FullStaysFull(ranked, i + 1, |ranked|, limit);
        return;
      }
    }
  }

  method SelectTheory(theory: seq<Theory>, tasks: seq<RankedTask>, calibrations: map<string, CalibrationInfo>,
                      limit: nat)
    returns (selected: seq<RankedTheory>, ghost ranked: seq<RankedTheory>)
    ensures limit == 0 || tasks == [] ==> selected == []
    ensures limit > 0 && tasks != [] ==>
      && Sorted(Before, ranked)
      && multiset(ranked) == multiset(Relevant(theory, TopicScores(tasks, calibrations)))
      && selected == ShownAll(At(ranked, Greedy(ranked, |ranked|, limit)))
  {
    if limit == 0 || |tasks| == 0 {
      return [], [];
    }
    var scores := ScoreTopics(tasks, calibrations);
    var order := RankTheory(theory, scores);
    ranked := order;
    selected := Cover(order, limit);
  }

  lemma {:induction false} CoveredStep(ranked: seq<RankedTheory>, chosen: seq<nat>, i: nat)
    requires Below(chosen, |ranked|) && i < |ranked|
    ensures Covered(ranked, chosen + [i]) == Covered(ranked, chosen) + Topics(ranked[i])
  {
    assert (chosen + [i])[..|chosen|] == chosen;
  }

  lemma {:induction false} FullStaysFull(ranked: seq<RankedTheory>, n: nat, m: nat, limit: nat)
    requires n <= m <= |ranked| && limit >= 1 && |Greedy(ranked, n, limit)| == limit
    ensures Greedy(ranked, m, limit) == Greedy(ranked, n, limit)
  {
    if n < m {
      FullStaysFull(ranked, n, m - 1, limit);
    }
  }

  // ---- Laws ----

  /** Only blocks with a positive score are ranked at all. */
  lemma {:induction false} RelevantIsPositive(theory: seq<Theory>, scores: Weights)
    ensures forall item :: item in Relevant(theory, scores) ==>
      item.score > 0.0 && item.score == ScoreOf(scores, item.topicIDs)
  {
    if theory != [] {
      RelevantIsPositive(theory[..|theory| - 1], scores);
    }
  }

  lemma {:induction false} CoveredHolds(ranked: seq<RankedTheory>, chosen: seq<nat>, a: nat)
    requires Below(chosen, |ranked|) && a in chosen
    ensures a < |ranked| && Topics(ranked[a]) <= Covered(ranked, chosen)
  {
    var before, last := chosen[..|chosen| - 1], chosen[|chosen| - 1];
    if last != a {
      assert chosen == before + [last];
      CoveredHolds(ranked, before, a);
    }
  }

  lemma {:induction false} CoveredBy(ranked: seq<RankedTheory>, chosen: seq<nat>, topic: string) returns (a: nat)
    requires Below(chosen, |ranked|) && topic in Covered(ranked, chosen)
    ensures a in chosen && a < |ranked| && topic in Topics(ranked[a])
  {
    a := chosen[|chosen| - 1];
    if topic !in Topics(ranked[a]) {
      a := CoveredBy(ranked, chosen[..|chosen| - 1], topic);
    }
  }

  lemma {:induction false} SubsetDisjoint(part: set<string>, whole: set<string>, other: set<string>)
    requires part <= whole && whole * other == {}
    ensures part * other == {}
  {
    assert part * other <= whole * other;
  }

  ghost predicate PairwiseDisjoint(ranked: seq<RankedTheory>, chosen: seq<nat>)
    requires Below(chosen, |ranked|)
  {
    forall k, l :: 0 <= k < l < |chosen| ==> Topics(ranked[chosen[k]]) * Topics(ranked[chosen[l]]) == {}
  }

  lemma {:induction false} DisjointAppend(ranked: seq<RankedTheory>, chosen: seq<nat>, i: nat)
    requires Below(chosen, |ranked|) && i < |ranked| && PairwiseDisjoint(ranked, chosen)
    requires Covered(ranked, chosen) * Topics(ranked[i]) == {}
    ensures PairwiseDisjoint(ranked, chosen + [i])
  {
    forall k | 0 <= k < |chosen| ensures Topics(ranked[chosen[k]]) * Topics(ranked[i]) == {} {
      CoveredHolds(ranked, chosen, chosen[k]);
      SubsetDisjoint(Topics(ranked[chosen[k]]), Covered(ranked, chosen), Topics(ranked[i]));
    }
  }

  /** The topic sets of the chosen blocks are pairwise disjoint. */
  lemma {:induction false} ChosenAreDisjoint(ranked: seq<RankedTheory>, n: nat, limit: nat)
    requires n <= |ranked| && limit >= 1
    ensures PairwiseDisjoint(ranked, Greedy(ranked, n, limit))
  {
    if n > 0 {
      var before := Greedy(ranked, n - 1, limit);
      ChosenAreDisjoint(ranked, n - 1, limit);
      if Greedy(ranked, n, limit) != before {
        DisjointAppend(ranked, before, n - 1);
      }
    }
  }

  lemma {:induction false} GreedyGrows(ranked: seq<RankedTheory>, n: nat, m: nat, limit: nat)
    requires n <= m <= |ranked| && limit >= 1
    ensures Greedy(ranked, n, limit) <= Greedy(ranked, m, limit)
  {
    if n < m {
      GreedyGrows(ranked, n, m - 1, limit);
    }
  }

  /** Some better-ranked chosen block shares a topic with block `i`. */
  ghost predicate Overlapped(ranked: seq<RankedTheory>, chosen: seq<nat>, i: nat)
    requires i < |ranked|
  {
    exists a :: 0 <= a < i && a in chosen && Topics(ranked[a]) * Topics(ranked[i]) != {}
  }

  /** A block passed over while there was room meets topics already covered. */
  lemma {:induction false} PassedOver(ranked: seq<RankedTheory>, limit: nat, i: nat)
    requires limit >= 1 && i < |ranked| && |Greedy(ranked, i, limit)| < limit
    requires i !in Greedy(ranked, |ranked|, limit)
    ensures Covered(ranked, Greedy(ranked, i, limit)) * Topics(ranked[i]) != {}
  {
    var before := Greedy(ranked, i, limit);
    GreedyGrows(ranked, i + 1, |ranked|, limit);
    PrefixMember(Greedy(ranked, i + 1, limit), Greedy(ranked, |ranked|, limit), i);
    assert (before + [i])[|before|] == i;
  }

  /** A ranked block that is left out overlaps a better-ranked chosen block, or came when the limit was reached. */
  lemma {:induction false} LeftOutForOverlap(ranked: seq<RankedTheory>, limit: nat, i: nat)
    requires limit >= 1 && i < |ranked| && i !in Greedy(ranked, |ranked|, limit)
    ensures Overlapped(ranked, Greedy(ranked, |ranked|, limit), i) || |Greedy(ranked, i, limit)| == limit
  {
    var before := Greedy(ranked, i, limit);
    if |before| < limit {
      PassedOver(ranked, limit, i);
      var topic :| topic in Covered(ranked, before) * Topics(ranked[i]);
      var a := CoveredBy(ranked, before, topic);
      GreedyGrows(ranked, i, |ranked|, limit);
      PrefixMember(before, Greedy(ranked, |ranked|, limit), a);
      assert topic in Topics(ranked[a]) * Topics(ranked[i]);
    }
  }

  // ---- Scores that round to nothing ----

  /** A block selected for a positive score shows a positive one exactly when it is more than half of the last digit. */
  lemma {:induction false} ShownScore(b: RankedTheory)
    requires b.score > 0.0
    ensures Shown(b).score > 0.0 <==> b.score > 1.0 / 20000.0
  {
    var n := NearestEven(b.score * 10000.0);
    assert b.score <= 1.0 / 20000.0 <==> b.score * 10000.0 <= 0.5;
  }

  /** A block whose topic scores 0.00001 is selected, and shows the score 0. */
  lemma {:induction false} TinyScoreShowsNothing(item: Theory)
    requires item.topicIDs == ["t"]
    ensures var ranked := Relevant([item], map["t" := 0.00001]);
      && |ranked| == 1 && ranked[0].score > 0.0
      && Greedy(ranked, 1, 1) == [0]
      && ShownAll(At(ranked, [0]))[0].score == 0.0
  {
    var scores: Weights := map["t" := 0.00001];
    OneTopic(scores, "t");
    assert [item][..0] == [];
    assert Relevant([item][..0], scores) == [];
    var block := Scored(item, NamedTopics(["t"]), 0.00001);
    assert Relevant([item], scores) == [block];
    assert Greedy([block], 0, 1) == [];
    ShownScore(block);
    PyRound4Monotone(0.0, 0.00001);
  }

  lemma {:induction false} OneTopic(scores: Weights, t: string)
    requires t != ""
    ensures NamedTopics([t]) == [t] && ScoreOf(scores, [t]) == Get(scores, t)
  {
    assert [t][1..] == [] && [t][..0] == [];
    assert ScoreOf(scores, [t][..0]) == 0.0;
  }

  // ---- One turn of each loop, by the tasks and blocks themselves ----

  ghost predicate ShareTopic(x: RankedTheory, y: RankedTheory) {
    exists t :: t in x.topicIDs && t in y.topicIDs
  }

  lemma {:induction false} CoversShared(ranked: seq<RankedTheory>, chosen: seq<nat>, i: nat)
    requires Below(chosen, |ranked|) && i < |ranked|
    ensures Covered(ranked, chosen) * Topics(ranked[i]) != {}
       <==> exists k :: 0 <= k < |chosen| && ShareTopic(ranked[chosen[k]], ranked[i])
  {
    if Covered(ranked, chosen) * Topics(ranked[i]) != {} {
      var t :| t in Covered(ranked, chosen) * Topics(ranked[i]);
      var a := CoveredBy(ranked, chosen, t);
      var k :| 0 <= k < |chosen| && chosen[k] == a;
      assert ShareTopic(ranked[chosen[k]], ranked[i]);
    }
    if k :| 0 <= k < |chosen| && ShareTopic(ranked[chosen[k]], ranked[i]) {
      var t :| t in ranked[chosen[k]].topicIDs && t in ranked[i].topicIDs;
      CoveredHolds(ranked, chosen, chosen[k]);
      assert t in Covered(ranked, chosen) * Topics(ranked[i]);
    }
  }

  /** While there is room the next block is taken unless it shares a topic with one taken before. */
  lemma {:induction false} GreedyTakes(ranked: seq<RankedTheory>, i: nat, limit: nat)
    requires i < |ranked| && limit >= 1
    ensures var chosen := Greedy(ranked, i, limit);
      Greedy(ranked, i + 1, limit) ==
        if |chosen| == limit || exists k :: 0 <= k < |chosen| && ShareTopic(ranked[chosen[k]], ranked[i])
        then chosen else chosen + [i]
  {
    CoversShared(ranked, Greedy(ranked, i, limit), i);
  }

  /** A block scores what its topics score together, and is ranked exactly when that is positive. */
  lemma {:induction false} RelevantGrows(theory: seq<Theory>, item: Theory, scores: Weights)
    ensures Relevant([], scores) == []
    ensures var topics := NamedTopics(item.topicIDs);
      var score := ScoreOf(scores, topics);
      Relevant(theory + [item], scores) ==
        if score > 0.0
        then Relevant(theory, scores) + [RankedTheory(item.id, item.title, item.latexBody, item.summary, topics, score)]
        else Relevant(theory, scores)
  {
    assert (theory + [item])[..|theory|] == theory;
  }

  lemma {:induction false} ScoreGrows(scores: Weights, topics: seq<string>, t: string)
    ensures ScoreOf(scores, []) == 0.0
    ensures ScoreOf(scores, topics + [t]) == ScoreOf(scores, topics) + if t in scores then scores[t] else 0.0
  {
    assert (topics + [t])[..|topics|] == topics;
  }

  lemma {:induction false} AddedAt(before: Weights, factor: real, weights: Weights)
    ensures var after := Added(before, factor, weights, weights.Keys);
      && after.Keys == before.Keys + weights.Keys
      && forall t :: t in after ==>
           after[t] == if t in weights then Grown(Get(before, t), factor, weights[t]) else Get(before, t)
  {
  }

  /** A task's score, at least 0.1, times the weight of a topic. */
  function Contribution(task: RankedTask, weight: real): real {
    (if task.score > 0.1 then task.score else 0.1) * weight
  }

  lemma {:induction false} GrownByContribution(score: real, task: RankedTask, weight: real)
    ensures Grown(score, TaskFactor(task), weight) == score + Contribution(task, weight)
  {
    assert TaskFactor(task) == if task.score > 0.1 then task.score else 0.1;
  }

  /** Each selected task contributes to each topic it weighs. */
  lemma {:induction false} TopicScoresGrow(tasks: seq<RankedTask>, task: RankedTask,
                                           calibrations: map<string, CalibrationInfo>, t: string)
    ensures TopicScores([], calibrations) == map[]
    ensures var before, after := TopicScores(tasks, calibrations), TopicScores(tasks + [task], calibrations);
      var weights := TaskTopicWeights(task.topicIDs, InfoOf(calibrations, task.id));
      && (t in after <==> t in before || t in weights)
      && Get(after, t) == Get(before, t) + if t in weights then Contribution(task, weights[t]) else 0.0
  {
    var before := TopicScores(tasks, calibrations);
    var weights := TaskTopicWeights(task.topicIDs, InfoOf(calibrations, task.id));
    TopicScoresStep(tasks, task, calibrations);
    AddedAt(before, TaskFactor(task), weights);
    if t in weights {
      GrownByContribution(Get(before, t), task, weights[t]);
    }
  }

  lemma {:induction false} TopicScoresStep(tasks: seq<RankedTask>, task: RankedTask,
                                           calibrations: map<string, CalibrationInfo>)
    ensures var weights := TaskTopicWeights(task.topicIDs, InfoOf(calibrations, task.id));
      TopicScores(tasks + [task], calibrations) ==
        Added(TopicScores(tasks, calibrations), TaskFactor(task), weights, weights.Keys)
  {
    assert (tasks + [task])[..|tasks|] == tasks;
  }
}
