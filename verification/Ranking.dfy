/**
 Ranking tasks against the vector of weak tags. Ids are as the Python code leaves them after `strip`.
 A task's score mixes tag similarity, topic alignment and closeness of difficulty.
 */
module Ranking {
  import opened Outcomes
  import opened Reals
  import opened Sums
  import opened Orders
  import opened Cosine
  import opened PythonRounding

  datatype WeightEntry = WeightEntry(id: string, weight: real)

  /** A difficulty that is missing is 0. */
  datatype RawTask = RawTask(id: string, title: string, latexBody: string, topicIDs: seq<string>,
                             tags: seq<WeightEntry>, difficulty: real)

  /** What the course calibration says about a task; nothing for a task it does not know. */
  datatype CalibrationInfo = CalibrationInfo(suggestedDifficulty: Option<real>, topicWeights: seq<WeightEntry>,
                                             tagWeights: seq<WeightEntry>)

  const NO_INFO: CalibrationInfo := CalibrationInfo(None, [], [])

  /** The parts of a score, each rounded. */
  datatype Breakdown = Breakdown(tagSimilarity: real, topicAlignment: real, difficultyScore: real)

  datatype RankedTask = RankedTask(id: string, title: string, latexBody: string, topicIDs: seq<string>,
                                   tags: seq<WeightEntry>, difficulty: real, score: real, breakdown: Breakdown)

  ghost predicate DistinctIDs(ranked: seq<RankedTask>) {
    forall i, j :: 0 <= i < j < |ranked| ==> ranked[i].id != ranked[j].id
  }

  // ---- Weights ----

  /** A dictionary built from a list: later entries overwrite earlier ones, entries without an id are dropped. */
  function EntryMap(entries: seq<WeightEntry>): Weights {
    if entries == [] then map[]
    else
      var before, last := EntryMap(entries[..|entries| - 1]), entries[|entries| - 1];
      if last.id == "" then before else before[last.id := last.weight]
  }

  function Positives(values: Weights): Weights {
    map k | k in values && values[k] > 0.0 :: values[k]
  }

  function Shares(positive: Weights, total: real): Weights
    requires total > 0.0
  {
    map k | k in positive :: PyRound4(positive[k] / total)
  }

  ghost function NormalizePositive(values: Weights): Weights {
    var total := Sum(Positives(values));
    if total <= 0.0 then map[] else Shares(Positives(values), total)
  }

  function Uniform(keys: set<string>, count: nat): Weights
    requires count > 0
  {
    map k | k in keys :: PyRound4(1.0 / count as real)
  }

  ghost function TaskTagWeights(tags: seq<WeightEntry>, info: CalibrationInfo): Weights {
    if info.tagWeights != [] then NormalizePositive(EntryMap(info.tagWeights))
    else
      var vector := EntryMap(tags);
      if Positives(vector) != map[] then NormalizePositive(vector)
      else if vector != map[] then Uniform(vector.Keys, |vector|)
      else map[]
  }

  function NamedTopics(topicIDs: seq<string>): seq<string> {
    if topicIDs == [] then []
    else if topicIDs[0] == "" then NamedTopics(topicIDs[1..]) else [topicIDs[0]] + NamedTopics(topicIDs[1..])
  }

  ghost function TaskTopicWeights(topicIDs: seq<string>, info: CalibrationInfo): Weights {
    if info.topicWeights != [] then NormalizePositive(EntryMap(info.topicWeights))
    else
      var topics := NamedTopics(topicIDs);
      if topics == [] then map[] else Uniform(set t | t in topics, |topics|)
  }

  method NormalizePositiveWeights(values: Weights) returns (r: Weights)
    ensures r == NormalizePositive(values)
  {
    var positive := Positives(values);
    var total := Total(positive);
    if total <= 0.0 {
      return map[];
    }
    return Shares(positive, total);
  }

  method TagWeights(tags: seq<WeightEntry>, info: CalibrationInfo) returns (r: Weights)
    ensures r == TaskTagWeights(tags, info)
  {
    if |info.tagWeights| > 0 {
      r := NormalizePositiveWeights(EntryMap(info.tagWeights));
      return;
    }
    var vector := EntryMap(tags);
    if Positives(vector) != map[] {
      r := NormalizePositiveWeights(vector);
      return;
    }
    if vector != map[] {
      return Uniform(vector.Keys, |vector|);
    }
    return map[];
  }

  method TopicWeights(topicIDs: seq<string>, info: CalibrationInfo) returns (r: Weights)
    ensures r == TaskTopicWeights(topicIDs, info)
  {
    if |info.topicWeights| > 0 {
      r := NormalizePositiveWeights(EntryMap(info.topicWeights));
      return;
    }
    var topics := NamedTopics(topicIDs);
    if |topics| == 0 {
      return map[];
    }
    return Uniform(set t | t in topics, |topics|);
  }

  // ---- Score ----

  ghost function OverlapOf(reference: Weights, target: Weights): real {
    if reference == map[] || target == map[] then 0.0 else ClampUnit(Dot(reference, target))
  }

  method WeightedOverlap(reference: Weights, target: Weights) returns (overlap: real)
    ensures overlap == OverlapOf(reference, target)
  {
    if reference == map[] || target == map[] {
      return 0.0;
    }
    var dot := Total(Products(reference, target));
    return ClampUnit(dot);
  }

  ghost function TargetDifficulty(weak: Weights): real {
    var average := if weak == map[] then 0.45 else Sum(weak) / |weak| as real;
    AtMost(8.0, AtLeast(2.0, 3.0 + average * 3.0))
  }

  function AtMost(high: real, x: real): real { if x < high then x else high }

  function AtLeast(low: real, x: real): real { if x > low then x else low }

  function Distance(x: real, y: real): real { if x >= y then x - y else y - x }

  function DifficultyScore(difficulty: real, target: real): (s: real)
    ensures 0.0 <= s <= 1.0
  {
    AtLeast(0.0, 1.0 - Distance(difficulty, target) / 9.0)
  }

  function MixScores(similarity: real, alignment: real, closeness: real): real {
    PyRound4(0.65 * similarity + 0.25 * alignment + 0.10 * closeness)
  }

  function InfoOf(calibrations: map<string, CalibrationInfo>, id: string): CalibrationInfo {
    if id in calibrations then calibrations[id] else NO_INFO
  }

  function DifficultyOf(task: RawTask, info: CalibrationInfo): real {
    match info.suggestedDifficulty
    case Some(difficulty) => difficulty
    case None => if task.difficulty == 0.0 then 1.0 else task.difficulty
  }

  /** What a task is ranked by: the user's weak tags and topics, and the calibration of the course. */
  datatype Needs = Needs(weak: Weights, topicWeakness: Weights, calibrations: map<string, CalibrationInfo>)

  ghost function Similarity(sqrt: real -> real, needs: Needs, task: RawTask): real {
    var weights := TaskTagWeights(task.tags, InfoOf(needs.calibrations, task.id));
    CosineOf(needs.weak, weights, sqrt(SquareSum(needs.weak)), sqrt(SquareSum(weights)))
  }

  ghost function Alignment(needs: Needs, task: RawTask): real {
    OverlapOf(needs.topicWeakness, TaskTopicWeights(NamedTopics(task.topicIDs), InfoOf(needs.calibrations, task.id)))
  }

  ghost function Closeness(needs: Needs, task: RawTask): real {
    DifficultyScore(DifficultyOf(task, InfoOf(needs.calibrations, task.id)), TargetDifficulty(needs.weak))
  }

  ghost function ScoreOf(sqrt: real -> real, needs: Needs, task: RawTask): real {
    MixScores(Similarity(sqrt, needs, task), Alignment(needs, task), Closeness(needs, task))
  }

  function RoundedEntries(entries: seq<WeightEntry>): seq<WeightEntry> {
    seq(|entries|, i requires 0 <= i < |entries| => entries[i].(weight := PyRound4(entries[i].weight)))
  }

  function Listed(task: RawTask, difficulty: real, similarity: real, alignment: real, closeness: real): RankedTask {
    RankedTask(task.id, task.title, task.latexBody, NamedTopics(task.topicIDs), RoundedEntries(task.tags),
               PyRound2(difficulty), MixScores(similarity, alignment, closeness),
               Breakdown(PyRound4(similarity), PyRound4(alignment), PyRound4(closeness)))
  }

  ghost function Scored(sqrt: real -> real, needs: Needs, task: RawTask): RankedTask {
    Listed(task, DifficultyOf(task, InfoOf(needs.calibrations, task.id)),
           Similarity(sqrt, needs, task), Alignment(needs, task), Closeness(needs, task))
  }

  /** All tasks with an id, scored, in the order given. */
  ghost function ScoredTasks(sqrt: real -> real, needs: Needs, tasks: seq<RawTask>): seq<RankedTask> {
    if tasks == [] then []
    else
      var before, last := ScoredTasks(sqrt, needs, tasks[..|tasks| - 1]), tasks[|tasks| - 1];
      if last.id == "" then before else before + [Scored(sqrt, needs, last)]
  }

  /** Higher scores first, ties by id. */
  predicate Before(x: RankedTask, y: RankedTask) {
    RankLe(x.score, x.id, y.score, y.id)
  }

  lemma {:induction false} BeforeIsTotalPreorder()
    ensures TotalPreorder(Before)
  {
    RankLeIsTotalPreorder();
  }

  method ScoreTask(sqrt: real -> real, needs: Needs, target: real, task: RawTask) returns (ranked: RankedTask)
    requires target == TargetDifficulty(needs.weak)
    ensures ranked == Scored(sqrt, needs, task)
  {
    var topics := NamedTopics(task.topicIDs);
    var info := InfoOf(needs.calibrations, task.id);
    var taskTags := TagWeights(task.tags, info);
    var topicWeights := TopicWeights(topics, info);
    var similarity := CosineSimilarity(sqrt, needs.weak, taskTags);
    var alignment := WeightedOverlap(needs.topicWeakness, topicWeights);
    var difficulty := DifficultyOf(task, info);
    return Listed(task, difficulty, similarity, alignment, DifficultyScore(difficulty, target));
  }

  method RankTasks(sqrt: real -> real, needs: Needs, tasks: seq<RawTask>) returns (ranked: seq<RankedTask>)
    ensures Sorted(Before, ranked) && multiset(ranked) == multiset(ScoredTasks(sqrt, needs, tasks))
    ensures forall i, j :: 0 <= i < j < |ranked| ==>
      ranked[i].score > ranked[j].score || (ranked[i].score == ranked[j].score && StringLe(ranked[i].id, ranked[j].id))
  {
    var average := 0.45;
    if |needs.weak| > 0 {
      var total := Total(needs.weak);
      average := total / |needs.weak| as real;
    }
    var target := AtMost(8.0, AtLeast(2.0, 3.0 + average * 3.0));
    assert target == TargetDifficulty(needs.weak) by {
      assert needs.weak == map[] <==> |needs.weak| == 0;
    }
    ranked := [];
    for i := 0 to |tasks|
      invariant ranked == ScoredTasks(sqrt, needs, tasks[..i])
    {
      assert tasks[..i + 1][..i] == tasks[..i];
      if tasks[i].id == "" {
        continue;
      }
      var scored := ScoreTask(sqrt, needs, target, tasks[i]);
      ranked := ranked + [scored];
    }
    assert tasks[..|tasks|] == tasks;
    BeforeIsTotalPreorder();
    ranked := Sort(Before, ranked);
  }

  // ---- Laws ----

  lemma {:induction false} MixInUnit(similarity: real, alignment: real, closeness: real)
    requires 0.0 <= similarity <= 1.0 && 0.0 <= alignment <= 1.0 && 0.0 <= closeness <= 1.0
    ensures 0.0 <= MixScores(similarity, alignment, closeness) <= 1.0
  {
    PyRound4InUnit(0.65 * similarity + 0.25 * alignment + 0.10 * closeness);
  }

  /** Every score lies between 0 and 1, whatever the weights. */
  lemma {:induction false} ScoreInUnit(sqrt: real -> real, needs: Needs, task: RawTask)
    ensures 0.0 <= ScoreOf(sqrt, needs, task) <= 1.0
  {
    var weights := TaskTagWeights(task.tags, InfoOf(needs.calibrations, task.id));
    CosineInUnit(needs.weak, weights, sqrt(SquareSum(needs.weak)), sqrt(SquareSum(weights)));
    MixInUnit(Similarity(sqrt, needs, task), Alignment(needs, task), Closeness(needs, task));
  }

  lemma {:induction false} RankedScoresInUnit(sqrt: real -> real, needs: Needs, tasks: seq<RawTask>)
    ensures forall t :: t in ScoredTasks(sqrt, needs, tasks) ==> t.id != "" && 0.0 <= t.score <= 1.0
  {
    if tasks != [] {
      RankedScoresInUnit(sqrt, needs, tasks[..|tasks| - 1]);
      ScoreInUnit(sqrt, needs, tasks[|tasks| - 1]);
    }
  }

  lemma {:induction false} NormalizedInUnit(values: Weights)
    ensures forall k :: k in NormalizePositive(values) ==>
      k in values && values[k] > 0.0 && 0.0 <= NormalizePositive(values)[k] <= 1.0
  {
    var positive := Positives(values);
    var total := Sum(positive);
    SumNonNegative(positive);
    if total > 0.0 {
      forall k | k in positive ensures 0.0 <= PyRound4(positive[k] / total) <= 1.0 {
        ShareInUnit(positive[k], total);
        PyRound4InUnit(positive[k] / total);
      }
    }
  }

  lemma {:induction false} UniformInUnit(keys: set<string>, count: nat)
    requires count > 0
    ensures NoNegative(Uniform(keys, count))
  {
    ShareInUnit(1.0, count as real);
    PyRound4InUnit(1.0 / count as real);
  }

  /** The tag weights of a task are never negative, whatever the weights it was given. */
  lemma {:induction false} TagWeightsNotNegative(tags: seq<WeightEntry>, info: CalibrationInfo)
    ensures NoNegative(TaskTagWeights(tags, info))
  {
    NormalizedInUnit(EntryMap(info.tagWeights));
    NormalizedInUnit(EntryMap(tags));
    var vector := EntryMap(tags);
    if vector != map[] {
      assert |vector| > 0;
      UniformInUnit(vector.Keys, |vector|);
    }
  }

  /** So for a weakness vector without negative entries, no task's similarity is changed by the clamp. */
  lemma {:induction false} SimilarityIsUnclamped(sqrt: real -> real, needs: Needs, task: RawTask)
    requires IsSqrt(sqrt) && NoNegative(needs.weak)
    ensures var weights := TaskTagWeights(task.tags, InfoOf(needs.calibrations, task.id));
      Similarity(sqrt, needs, task)
        == PlainCosine(needs.weak, weights, sqrt(SquareSum(needs.weak)), sqrt(SquareSum(weights)))
  {
    var weights := TaskTagWeights(task.tags, InfoOf(needs.calibrations, task.id));
    TagWeightsNotNegative(task.tags, InfoOf(needs.calibrations, task.id));
    SquareSumNonNegative(needs.weak);
    SquareSumNonNegative(weights);
    ClampIsIdle(needs.weak, weights, sqrt(SquareSum(needs.weak)), sqrt(SquareSum(weights)));
  }
}
