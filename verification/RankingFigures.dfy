/** What the parts of a task's score are: weights as shares, the mixture, the target difficulty, the data that count. */
module RankingFigures {
  import opened Outcomes
  import opened Sums
  import opened Sequences
  import opened Cosine
  import opened PythonRounding
  import opened Ranking

  // ---- Weights ----

  lemma {:induction false} EntriesGrow(entries: seq<WeightEntry>, e: WeightEntry)
    ensures EntryMap([]) == map[]
    ensures EntryMap(entries + [e]) == if e.id == "" then EntryMap(entries) else EntryMap(entries)[e.id := e.weight]
  {
    LastOf(entries, e);
  }

  /** Only positive weights count; each becomes its share in their sum, rounded to four decimals. */
  lemma {:induction false} PositiveShares(values: Weights, k: string)
    ensures k in NormalizePositive(values) <==> k in values && values[k] > 0.0
    ensures k in values && values[k] > 0.0 ==>
      var positive: Weights := map l | l in values && values[l] > 0.0 :: values[l];
      Sum(positive) > 0.0 && NormalizePositive(values)[k] == PyRound4(values[k] / Sum(positive))
  {
    var positive: Weights := map l | l in values && values[l] > 0.0 :: values[l];
    assert positive == Positives(values);
    SumNonNegative(positive);
    assert k in positive ==> positive[k] <= Sum(positive);
  }

  /** The calibration's tag weights come first, then the task's own; if none is positive all tags weigh the same. */
  lemma {:induction false} TagWeightsAre(tags: seq<WeightEntry>, info: CalibrationInfo)
    ensures info.tagWeights != [] ==> TaskTagWeights(tags, info) == NormalizePositive(EntryMap(info.tagWeights))
    ensures info.tagWeights == [] && (exists k :: k in EntryMap(tags) && EntryMap(tags)[k] > 0.0) ==>
      TaskTagWeights(tags, info) == NormalizePositive(EntryMap(tags))
    ensures info.tagWeights == [] && (forall k :: k in EntryMap(tags) ==> EntryMap(tags)[k] <= 0.0) ==>
      TaskTagWeights(tags, info) == map k | k in EntryMap(tags) :: PyRound4(1.0 / |EntryMap(tags)| as real)
  {
    var vector := EntryMap(tags);
    if k :| k in vector && vector[k] > 0.0 {
      assert k in Positives(vector);
    }
    if forall k :: k in vector ==> vector[k] <= 0.0 {
      assert Positives(vector) == map[];
    }
  }

  lemma {:induction false} TopicWeightsAre(topicIDs: seq<string>, info: CalibrationInfo)
    ensures info.topicWeights != [] ==>
      TaskTopicWeights(topicIDs, info) == NormalizePositive(EntryMap(info.topicWeights))
    ensures info.topicWeights == [] && NamedTopics(topicIDs) == [] ==> TaskTopicWeights(topicIDs, info) == map[]
    ensures info.topicWeights == [] && NamedTopics(topicIDs) != [] ==>
      var topics := NamedTopics(topicIDs);
      TaskTopicWeights(topicIDs, info) == map t | t in topics :: PyRound4(1.0 / |topics| as real)
  {
    var topics := NamedTopics(topicIDs);
    assert forall t :: t in topics <==> t in (set t | t in topics);
  }

  /** Topics without an id are dropped, the others keep their order. */
  lemma {:induction false} NamedTopicsGrow(topicIDs: seq<string>, t: string)
    ensures NamedTopics([]) == []
    ensures NamedTopics(topicIDs + [t]) == NamedTopics(topicIDs) + if t == "" then [] else [t]
  {
    if topicIDs == [] {
      assert [] + [t] == [t] && [t][1..] == [];
    } else {
      assert (topicIDs + [t])[1..] == topicIDs[1..] + [t];
      NamedTopicsGrow(topicIDs[1..], t);
    }
  }

  // ---- The score ----

  /** The score is 65% tag similarity, 25% topic alignment and 10% closeness of difficulty, rounded to four decimals. */
  lemma {:induction false} ScoreIsMix(sqrt: real -> real, needs: Needs, task: RawTask)
    ensures ScoreOf(sqrt, needs, task) ==
      PyRound4(0.65 * Similarity(sqrt, needs, task) + 0.25 * Alignment(needs, task) + 0.10 * Closeness(needs, task))
  {
  }

  /** Similarity compares the user's weak tags with the task's, alignment the user's weak topics with the task's. */
  lemma {:induction false} PartsAre(sqrt: real -> real, needs: Needs, task: RawTask)
    ensures
      var info := if task.id in needs.calibrations then needs.calibrations[task.id] else CalibrationInfo(None, [], []);
      && Similarity(sqrt, needs, task) ==
           CosineOf(needs.weak, TaskTagWeights(task.tags, info), sqrt(SquareSum(needs.weak)),
                    sqrt(SquareSum(TaskTagWeights(task.tags, info))))
      && Alignment(needs, task) == OverlapOf(needs.topicWeakness, TaskTopicWeights(NamedTopics(task.topicIDs), info))
  {
  }

  /** The overlap is the dot product, cut to the unit interval; with an empty map it is 0. */
  lemma {:induction false} OverlapIs(reference: Weights, target: Weights)
    ensures reference == map[] || target == map[] ==> OverlapOf(reference, target) == 0.0
    ensures reference != map[] && target != map[] ==>
      var dot := Dot(reference, target);
      OverlapOf(reference, target) == if dot < 0.0 then 0.0 else if dot > 1.0 then 1.0 else dot
  {
  }

  /** The target is 3 plus three times the mean weakness (0.45 if there is none), between 2 and 8. */
  lemma {:induction false} TargetIs(weak: Weights)
    ensures var mean := if weak == map[] then 0.45 else Sum(weak) / |weak| as real;
      var target := 3.0 + mean * 3.0;
      TargetDifficulty(weak) == if target < 2.0 then 2.0 else if target > 8.0 then 8.0 else target
  {
  }

  /** Closeness falls by a ninth for each step from the target, down to 0; the suggested difficulty comes first. */
  lemma {:induction false} ClosenessIs(needs: Needs, task: RawTask)
    ensures
      var info := if task.id in needs.calibrations then needs.calibrations[task.id] else CalibrationInfo(None, [], []);
      var difficulty := match info.suggestedDifficulty
        case Some(suggested) => suggested
        case None => if task.difficulty == 0.0 then 1.0 else task.difficulty;
      var target := TargetDifficulty(needs.weak);
      var distance := if difficulty < target then target - difficulty else difficulty - target;
      Closeness(needs, task) == if distance > 9.0 then 0.0 else 1.0 - distance / 9.0
  {
  }

  /** Tasks without an id are not ranked; the others carry their content, rounded tags, difficulty and parts. */
  lemma {:induction false} RankedGrow(sqrt: real -> real, needs: Needs, tasks: seq<RawTask>, task: RawTask)
    ensures ScoredTasks(sqrt, needs, []) == []
    ensures ScoredTasks(sqrt, needs, tasks + [task]) ==
      ScoredTasks(sqrt, needs, tasks) + if task.id == "" then [] else [Scored(sqrt, needs, task)]
    ensures var ranked := Scored(sqrt, needs, task);
      && ranked.id == task.id && ranked.title == task.title && ranked.latexBody == task.latexBody
      && ranked.topicIDs == NamedTopics(task.topicIDs) && ranked.score == ScoreOf(sqrt, needs, task)
      && ranked.difficulty == PyRound2(DifficultyOf(task, InfoOf(needs.calibrations, task.id)))
      && |ranked.tags| == |task.tags|
      && (forall i :: 0 <= i < |task.tags| ==>
            ranked.tags[i] == WeightEntry(task.tags[i].id, PyRound4(task.tags[i].weight)))
      && ranked.breakdown == Breakdown(PyRound4(Similarity(sqrt, needs, task)), PyRound4(Alignment(needs, task)),
                                       PyRound4(Closeness(needs, task)))
  {
    LastOf(tasks, task);
  }
}
