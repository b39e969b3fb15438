/**
 Course calibration: attempts are grouped by task, success rates averaged, students split into strong and weak,
 and the resulting scores normalised into weights. Go ranges over maps in an arbitrary order; the loops here pick
 keys arbitrarily, and still every run gives the value of the function `CalibrationOf`.
 */
module Calibration {
  import opened Reals
  import opened Rounding
  import opened Sums
  import opened MapLoops
  import opened Orders
  import opened Permutations
  import opened StatDomain
  import opened CourseRates

  // ---- Grouping ----

  function Bucket(attempts: seq<Attempt>, taskID: string): seq<Attempt> {
    if attempts == [] then []
    else
      var before, last := Bucket(attempts[..|attempts| - 1], taskID), attempts[|attempts| - 1];
      if last.contentID == taskID then before + [last] else before
  }

  function Tasks(attempts: seq<Attempt>): set<string> {
    set a | a in attempts && a.contentID != "" :: a.contentID
  }

  function BucketAt(attempts: seq<Attempt>): string -> seq<Attempt> {
    taskID => Bucket(attempts, taskID)
  }

  function BucketsOf(attempts: seq<Attempt>): map<string, seq<Attempt>> {
    Table(Tasks(attempts), BucketAt(attempts))
  }

  lemma {:induction false} BucketAppend(attempts: seq<Attempt>, a: Attempt, taskID: string)
    ensures Bucket(attempts + [a], taskID) ==
      if a.contentID == taskID then Bucket(attempts, taskID) + [a] else Bucket(attempts, taskID)
    ensures Tasks(attempts + [a]) == if a.contentID == "" then Tasks(attempts) else Tasks(attempts) + {a.contentID}
  {
    assert (attempts + [a])[..|attempts|] == attempts;
    assert forall x :: x in attempts + [a] <==> x in attempts || x == a;
    assert a in attempts + [a];
  }

  lemma {:induction false} BucketNonEmpty(attempts: seq<Attempt>, taskID: string)
    ensures taskID in Tasks(attempts) <==> Bucket(attempts, taskID) != [] && taskID != ""
  {
    if attempts != [] {
      var before, last := attempts[..|attempts| - 1], attempts[|attempts| - 1];
      assert attempts == before + [last];
      BucketAppend(before, last, taskID);
      BucketNonEmpty(before, taskID);
    }
  }

  lemma {:induction false} BucketsStep(attempts: seq<Attempt>, a: Attempt)
    ensures BucketsOf(attempts + [a]) ==
      if a.contentID == "" then BucketsOf(attempts)
      else BucketsOf(attempts)[a.contentID :=
        (if a.contentID in BucketsOf(attempts) then BucketsOf(attempts)[a.contentID] else []) + [a]]
  {
    BucketNonEmpty(attempts, a.contentID);
    var f, f' := BucketAt(attempts), BucketAt(attempts + [a]);
    forall c ensures f'(c) == if a.contentID == c then f(c) + [a] else f(c) {
      BucketAppend(attempts, a, c);
    }
    BucketAppend(attempts, a, a.contentID);
    if a.contentID == "" {
      NamedOnly(Tasks(attempts), f, f');
    } else {
      TableStep(Tasks(attempts), f, f', a.contentID);
    }
  }

  lemma {:induction false} NamedOnly(tasks: set<string>, f: string -> seq<Attempt>, f': string -> seq<Attempt>)
    requires "" !in tasks && forall c :: c != "" ==> f'(c) == f(c)
    ensures Table(tasks, f') == Table(tasks, f)
  {
  }

  method GroupByTask(attempts: seq<Attempt>) returns (byTask: map<string, seq<Attempt>>)
    ensures byTask == BucketsOf(attempts)
  {
    byTask := map[];
    for i := 0 to |attempts|
      invariant byTask == BucketsOf(attempts[..i])
    {
      var attempt := attempts[i];
      ghost var before := attempts[..i];
      assert attempts[..i + 1] == before + [attempt];
      BucketsStep(before, attempt);
      if attempt.contentID == "" {
        continue;
      }
      var items := if attempt.contentID in byTask then byTask[attempt.contentID] else [];
      byTask := byTask[attempt.contentID := items + [attempt]];
    }
    assert attempts[..|attempts|] == attempts;
  }

  // ---- Success rates ----

  function CorrectCount(items: seq<Attempt>): (n: nat)
    ensures n <= |items|
  {
    if items == [] then 0
    else CorrectCount(items[..|items| - 1]) + if items[|items| - 1].isCorrect then 1 else 0
  }

  function SuccessRate(items: seq<Attempt>): (rate: real)
    requires items != []
    ensures 0.0 <= rate <= 1.0
  {
    ShareInUnit(CorrectCount(items) as real, |items| as real);
    CorrectCount(items) as real / |items| as real
  }

  function RateMap(byTask: map<string, seq<Attempt>>): map<string, real>
    requires forall c :: c in byTask ==> byTask[c] != []
  {
    map c | c in byTask :: SuccessRate(byTask[c])
  }

  ghost function Average(rates: map<string, real>): real
    requires |rates| > 0
  {
    Sum(rates) / |rates| as real
  }

  method SuccessRates(byTask: map<string, seq<Attempt>>) returns (rates: map<string, real>, average: real)
    requires |byTask| > 0 && forall c :: c in byTask ==> byTask[c] != []
    ensures rates == RateMap(byTask) && |rates| > 0 && average == Average(rates)
  {
    ghost var whole := RateMap(byTask);
    rates, average := map[], 0.0;
    var rest := byTask.Keys;
    OutsideAll(whole);
    while rest != {}
      invariant rest <= byTask.Keys
      invariant rates == Outside(whole, rest)
      invariant average == Sum(rates)
      decreases rest
    {
      var taskID :| taskID in rest;
      var rate := RateOf(byTask[taskID]);
      OutsideStep(whole, rest, taskID, rate);
      SumAdd(rates, taskID, rate);
      rest := rest - {taskID};
      rates := rates[taskID := rate];
      average := average + rate;
    }
    OutsideNone(whole);
    assert rates.Keys == byTask.Keys;
    assert |rates| == |rates.Keys| == |byTask.Keys| == |byTask|;
    average := average / |byTask| as real;
  }

  method RateOf(items: seq<Attempt>) returns (rate: real)
    requires items != []
    ensures rate == SuccessRate(items)
  {
    var correct := 0;
    for i := 0 to |items|
      invariant correct == CorrectCount(items[..i])
    {
      assert items[..i + 1][..i] == items[..i];
      if items[i].isCorrect {
        correct := correct + 1;
      }
    }
    assert items[..|items|] == items;
    rate := correct as real / |items| as real;
  }

  // ---- Strong and weak students ----

  datatype Split = Split(strongSolved: nat, strongTotal: nat, weakSolved: nat, weakTotal: nat)

  function SplitOf(items: seq<Attempt>, rates: Rates, id: string, threshold: real): Split {
    if items == [] then Split(0, 0, 0, 0)
    else
      var s, last := SplitOf(items[..|items| - 1], rates, id, threshold), items[|items| - 1];
      if RateIn(rates, last.userID, id) >= threshold
      then s.(strongTotal := s.strongTotal + 1, strongSolved := s.strongSolved + if last.isCorrect then 1 else 0)
      else s.(weakTotal := s.weakTotal + 1, weakSolved := s.weakSolved + if last.isCorrect then 1 else 0)
  }

  /** Every attempt is counted on exactly one side, and so is every right answer. */
  lemma {:induction false} SplitConserves(items: seq<Attempt>, rates: Rates, id: string, threshold: real)
    ensures var s := SplitOf(items, rates, id, threshold);
      && s.strongTotal + s.weakTotal == |items|
      && s.strongSolved + s.weakSolved == CorrectCount(items)
      && s.strongSolved <= s.strongTotal && s.weakSolved <= s.weakTotal
  {
    if items != [] {
      SplitConserves(items[..|items| - 1], rates, id, threshold);
    }
  }

  method CountSplit(items: seq<Attempt>, rates: Rates, id: string, threshold: real)
    returns (strongSolved: nat, strongTotal: nat, weakSolved: nat, weakTotal: nat)
    ensures Split(strongSolved, strongTotal, weakSolved, weakTotal) == SplitOf(items, rates, id, threshold)
  {
    strongSolved, strongTotal, weakSolved, weakTotal := 0, 0, 0, 0;
    for i := 0 to |items|
      invariant Split(strongSolved, strongTotal, weakSolved, weakTotal) == SplitOf(items[..i], rates, id, threshold)
    {
      assert items[..i + 1][..i] == items[..i];
      if RateIn(rates, items[i].userID, id) >= threshold {
        strongTotal := strongTotal + 1;
        if items[i].isCorrect {
          strongSolved := strongSolved + 1;
        }
        continue;
      }
      weakTotal := weakTotal + 1;
      if items[i].isCorrect {
        weakSolved := weakSolved + 1;
      }
    }
    assert items[..|items|] == items;
  }

  function SafeRate(solved: real, total: real): real {
    if total <= 0.0 then 0.0 else solved / total
  }

  const MIN_SCORE: real := 0.05
  const MIN_SAMPLES: real := 6.0

  function Confidence(s: Split): real {
    Clamp((s.strongTotal + s.weakTotal) as real / MIN_SAMPLES, 0.0, 1.0)
  }

  function Signal(s: Split): real {
    var strongRate := SafeRate(s.strongSolved as real, s.strongTotal as real);
    var weakRate := SafeRate(s.weakSolved as real, s.weakTotal as real);
    var signal := strongRate - weakRate;
    if signal < 0.0 then 0.0 else signal
  }

  function BaseWeight(weight: real): real {
    if weight <= 0.0 then 1.0 else weight
  }

  /** The observed signal and the prior weight, mixed by the confidence. */
  function Mix(confidence: real, signal: real, base: real): real {
    MIN_SCORE + confidence * signal + (1.0 - confidence) * base
  }

  function DiscriminativeScore(s: Split, baseWeight: real): real {
    Mix(Confidence(s), Signal(s), BaseWeight(baseWeight))
  }

  lemma {:induction false} MixFloor(confidence: real, signal: real, base: real)
    requires 0.0 <= confidence <= 1.0 && signal >= 0.0 && base >= 0.0
    ensures Mix(confidence, signal, base) >= MIN_SCORE
  {
    assert confidence * signal >= 0.0 && (1.0 - confidence) * base >= 0.0;
  }

  lemma {:induction false} MixMonotone(confidence: real, signal: real, signal': real, base: real)
    requires 0.0 <= confidence <= 1.0 && signal <= signal'
    ensures Mix(confidence, signal, base) <= Mix(confidence, signal', base)
  {
    assert confidence * (signal' - signal) >= 0.0;
  }

  /** A score never falls below the floor, whatever the counts and the weight. */
  lemma {:induction false} ScoreFloor(s: Split, baseWeight: real)
    ensures DiscriminativeScore(s, baseWeight) >= MIN_SCORE
  {
    MixFloor(Confidence(s), Signal(s), BaseWeight(baseWeight));
  }

  lemma {:induction false} SafeRateMonotone(solved: nat, solved': nat, total: nat)
    requires solved <= solved'
    ensures SafeRate(solved as real, total as real) <= SafeRate(solved' as real, total as real)
  {
    if total > 0 {
      QuotientMonotone(solved as real, solved' as real, total as real);
    }
  }

  /** More right answers by strong students, or fewer by weak ones, never lower the score. */
  lemma {:induction false} ScoreFavoursStrongSolvers(s: Split, s': Split, baseWeight: real)
    requires s.strongTotal == s'.strongTotal && s.weakTotal == s'.weakTotal
    requires s.strongSolved <= s'.strongSolved && s.weakSolved >= s'.weakSolved
    ensures DiscriminativeScore(s, baseWeight) <= DiscriminativeScore(s', baseWeight)
  {
    SafeRateMonotone(s.strongSolved, s'.strongSolved, s.strongTotal);
    SafeRateMonotone(s'.weakSolved, s.weakSolved, s.weakTotal);
    MixMonotone(Confidence(s), Signal(s), Signal(s'), BaseWeight(baseWeight));
  }

  // ---- Scores to weights ----

  ghost predicate Lists(keys: seq<string>, set': set<string>) {
    Distinct(keys) && forall k :: k in keys <==> k in set'
  }

  ghost function SomeOrder(keys: set<string>): (s: seq<string>)
    ensures Lists(s, keys)
  {
    if keys == {} then [] else
      var k :| k in keys;
      SomeOrder(keys - {k}) + [k]
  }

  /** The keys in ascending order, each once. */
  ghost function Ascending(keys: set<string>): seq<string> {
    StringLeIsTotalOrder();
    Sort(StringLe, SomeOrder(keys))
  }

  lemma {:induction false} AscendingLists(keys: set<string>)
    ensures Lists(Ascending(keys), keys)
    ensures TotalPreorder(StringLe) && Sorted(StringLe, Ascending(keys))
  {
    StringLeIsTotalOrder();
    DistinctSurvivesReordering(SomeOrder(keys), Ascending(keys));
  }

  /** Sorting the keys gives the same list in whatever order they were collected. */
  lemma {:induction false} AnyOrderSortsToAscending(s: seq<string>, keys: set<string>)
    requires Lists(s, keys) && TotalPreorder(StringLe)
    ensures Sort(StringLe, s) == Ascending(keys)
  {
    StringLeIsTotalOrder();
    SameElementsReorder(s, SomeOrder(keys));
    SortForgetsOrder(StringLe, s, SomeOrder(keys));
  }

  function Repair(score: real): real {
    if score <= 0.0 then 0.0001 else score
  }

  function Repaired(scores: map<string, real>): map<string, real> {
    map k | k in scores :: Repair(scores[k])
  }

  ghost function Share(scores: map<string, real>, k: string): real
    requires k in scores
  {
    RepairedSumPositive(scores, k);
    Repaired(scores)[k] / Sum(Repaired(scores))
  }

  lemma {:induction false} RepairedSumPositive(scores: map<string, real>, k: string)
    requires k in scores
    ensures 0.0 < Repaired(scores)[k] <= Sum(Repaired(scores))
  {
    SumNonNegative(Repaired(scores));
  }

  /** The weights: the rounded shares, by ascending id. */
  ghost function Normalized(scores: map<string, real>): (out: seq<CalibrationWeight>)
    ensures |out| == |Ascending(scores.Keys)|
  {
    var keys := Ascending(scores.Keys);
    AscendingLists(scores.Keys);
    seq(|keys|, i requires 0 <= i < |keys| => CalibrationWeight(keys[i], Round4(Share(scores, keys[i]))))
  }

  /** The first loop: it repairs the scores, collects the keys and adds up, in any order. */
  method RepairScores(given: map<string, real>)
    returns (scores: map<string, real>, keys: seq<string>, total: real)
    ensures scores == Repaired(given) && Lists(keys, given.Keys) && total == Sum(scores)
  {
    scores, keys, total := given, [], 0.0;
    var rest := given.Keys;
    ghost var repaired := Repaired(given);
    OutsideAll(repaired);
    while rest != {}
      invariant rest <= given.Keys && Lists(keys, given.Keys - rest)
      invariant scores.Keys == given.Keys
      invariant forall k :: k in given ==> scores[k] == if k in rest then given[k] else repaired[k]
      invariant total == Sum(Outside(repaired, rest))
      decreases rest
    {
      var key :| key in rest;
      var score := scores[key];
      if score <= 0.0 {
        score := 0.0001;
        scores := scores[key := score];
      }
      SumOutsideStep(repaired, rest, key, score);
      rest := rest - {key};
      keys := keys + [key];
      total := total + score;
    }
    OutsideNone(repaired);
    assert given.Keys - rest == given.Keys;
  }

  lemma {:induction false} SumOutsideStep(m: map<string, real>, rest: set<string>, key: string, value: real)
    requires key in rest && key in m && m[key] == value
    ensures Sum(Outside(m, rest - {key})) == Sum(Outside(m, rest)) + value
  {
    OutsideStep(m, rest, key, value);
    SumAdd(Outside(m, rest), key, value);
  }

  lemma {:induction false} NormalizedAt(scores: map<string, real>, i: nat)
    requires i < |Ascending(scores.Keys)|
    ensures var k := Ascending(scores.Keys)[i];
      k in scores && Normalized(scores)[i] == CalibrationWeight(k, Round4(Share(scores, k)))
  {
    AscendingLists(scores.Keys);
  }

  method WeightAt(ghost given: map<string, real>, scores: map<string, real>, total: real, keys: seq<string>, i: nat)
    returns (weight: CalibrationWeight)
    requires scores == Repaired(given) && total == Sum(scores) && keys == Ascending(given.Keys) && i < |keys|
    ensures weight == Normalized(given)[i]
  {
    NormalizedAt(given, i);
    RepairedSumPositive(given, keys[i]);
    weight := CalibrationWeight(keys[i], Round4(scores[keys[i]] / total));
  }

  method SortStrings(keys: seq<string>, ghost set': set<string>) returns (sorted: seq<string>)
    requires Lists(keys, set')
    ensures sorted == Ascending(set')
  {
    StringLeIsTotalOrder();
    AnyOrderSortsToAscending(keys, set');
    sorted := Sort(StringLe, keys);
  }

  method NormalizeScores(given: map<string, real>) returns (out: seq<CalibrationWeight>)
    ensures out == Normalized(given)
  {
    var scores, keys, total := RepairScores(given);
    keys := SortStrings(keys, given.Keys);
    ghost var weights := Normalized(given);
    out := [];
    for i := 0 to |keys|
      invariant out == weights[..i]
    {
      var weight := WeightAt(given, scores, total, keys, i);
      out := out + [weight];
    }
  }

  // ---- Weights of a bucket ----

  function LastWeight(scores: seq<TagScore>, id: string): real {
    if scores == [] then 0.0
    else if scores[|scores| - 1].tagID == id then scores[|scores| - 1].weight
    else LastWeight(scores[..|scores| - 1], id)
  }

  function TagIDs(scores: seq<TagScore>): set<string> {
    set s | s in scores :: s.tagID
  }

  function TopicScore(items: seq<Attempt>, ratings: Rates): string -> real {
    id => DiscriminativeScore(SplitOf(items, ratings, id, 7.0), 1.0)
  }

  function TagScoreAt(items: seq<Attempt>, masteries: Rates): (string, real) -> real {
    (id, weight) => DiscriminativeScore(SplitOf(items, masteries, id, 0.65), BaseWeight(weight))
  }

  function ScoreIDs(ids: seq<string>, score: string -> real): map<string, real> {
    map id | id in ids :: score(id)
  }

  /** A tag listed twice is scored with the weight listed last. */
  function ScoreTags(tags: seq<TagScore>, score: (string, real) -> real): map<string, real> {
    map id | id in TagIDs(tags) :: score(id, LastWeight(tags, id))
  }

  function TopicScores(items: seq<Attempt>, ratings: Rates): map<string, real>
    requires items != []
  {
    ScoreIDs(items[0].topicIDs, TopicScore(items, ratings))
  }

  function TagScoreMap(items: seq<Attempt>, masteries: Rates): map<string, real>
    requires items != []
  {
    ScoreTags(items[0].tagScores, TagScoreAt(items, masteries))
  }

  lemma {:induction false} ScoreIDsStep(ids: seq<string>, score: string -> real, i: nat)
    requires i < |ids|
    ensures ScoreIDs(ids[..i + 1], score) == ScoreIDs(ids[..i], score)[ids[i] := score(ids[i])]
  {
    assert ids[..i + 1] == ids[..i] + [ids[i]];
  }

  lemma {:induction false} ScoreTagsStep(tags: seq<TagScore>, score: (string, real) -> real, i: nat)
    requires i < |tags|
    ensures ScoreTags(tags[..i + 1], score) ==
      ScoreTags(tags[..i], score)[tags[i].tagID := score(tags[i].tagID, tags[i].weight)]
  {
    assert tags[..i + 1] == tags[..i] + [tags[i]];
    assert tags[..i + 1][..i] == tags[..i];
    assert forall s :: s in tags[..i + 1] <==> s in tags[..i] || s == tags[i];
  }

  method CalibrationTopicWeights(items: seq<Attempt>, ratings: Rates) returns (out: seq<CalibrationWeight>)
    ensures out == if items == [] then [] else Normalized(TopicScores(items, ratings))
  {
    if |items| == 0 {
      return [];
    }
    var scores: map<string, real> := map[];
    var topicIDs := items[0].topicIDs;
    for i := 0 to |topicIDs|
      invariant scores == ScoreIDs(topicIDs[..i], TopicScore(items, ratings))
    {
      var strongSolved, strongTotal, weakSolved, weakTotal := CountSplit(items, ratings, topicIDs[i], 7.0);
      var score := DiscriminativeScore(Split(strongSolved, strongTotal, weakSolved, weakTotal), 1.0);
      scores := scores[topicIDs[i] := score];
      ScoreIDsStep(topicIDs, TopicScore(items, ratings), i);
    }
    assert topicIDs[..|topicIDs|] == topicIDs;
    out := NormalizeScores(scores);
  }

  method CalibrationTagWeights(items: seq<Attempt>, masteries: Rates) returns (out: seq<CalibrationWeight>)
    ensures out == if items == [] then [] else Normalized(TagScoreMap(items, masteries))
  {
    if |items| == 0 {
      return [];
    }
    var scores: map<string, real> := map[];
    var tags := items[0].tagScores;
    for i := 0 to |tags|
      invariant scores == ScoreTags(tags[..i], TagScoreAt(items, masteries))
    {
      var tag := tags[i];
      var strongSolved, strongTotal, weakSolved, weakTotal := CountSplit(items, masteries, tag.tagID, 0.65);
      var base := tag.weight;
      if base <= 0.0 {
        base := 1.0;
      }
      var score := DiscriminativeScore(Split(strongSolved, strongTotal, weakSolved, weakTotal), base);
      scores := scores[tag.tagID := score];
      ScoreTagsStep(tags, TagScoreAt(items, masteries), i);
    }
    assert tags[..|tags|] == tags;
    out := NormalizeScores(scores);
  }

  // ---- The calibration of a course ----

  function SuggestedDifficulty(base: int, average: real, rate: real): real {
    Round4(Clamp(base as real * (1.0 + (average - rate)), 1.0, 10.0))
  }

  function BaseDifficulty(items: seq<Attempt>): (d: int)
    requires items != []
    ensures d >= 1
  {
    if items[0].difficulty <= 0 then 1 else items[0].difficulty
  }

  ghost function TaskCalibrationOf(courseID: string, attempts: seq<Attempt>, taskID: string,
                                   average: real): TaskCalibration
    requires taskID in Tasks(attempts)
  {
    BucketNonEmpty(attempts, taskID);
    var items := Bucket(attempts, taskID);
    TaskCalibration(courseID, taskID, |items|, Round4(SuccessRate(items)), Round4(average), BaseDifficulty(items),
                    SuggestedDifficulty(BaseDifficulty(items), average, SuccessRate(items)),
                    Normalized(TopicScores(items, UserRates(Topics, attempts))),
                    Normalized(TagScoreMap(items, UserRates(Tags, attempts))))
  }

  ghost function TaskRates(attempts: seq<Attempt>): map<string, real> {
    map c | c in Tasks(attempts) :: (BucketNonEmpty(attempts, c); SuccessRate(Bucket(attempts, c)))
  }

  ghost function CourseAverage(attempts: seq<Attempt>): real {
    if |TaskRates(attempts)| == 0 then 0.0 else Average(TaskRates(attempts))
  }

  ghost function TaskCalibrations(courseID: string, attempts: seq<Attempt>, average: real)
    : map<string, TaskCalibration>
  {
    map c | c in Tasks(attempts) :: TaskCalibrationOf(courseID, attempts, c, average)
  }

  ghost function CalibrationOf(courseID: string, attempts: seq<Attempt>, now: Time): CourseCalibration {
    CourseCalibration(courseID, TaskCalibrations(courseID, attempts, CourseAverage(attempts)), now)
  }

  method CalibrateTask(courseID: string, ghost attempts: seq<Attempt>, taskID: string, items: seq<Attempt>,
                       average: real, rate: real, ratings: Rates, masteries: Rates) returns (c: TaskCalibration)
    requires taskID in Tasks(attempts) && items == Bucket(attempts, taskID) && items != []
    requires ratings == UserRates(Topics, attempts) && masteries == UserRates(Tags, attempts)
    requires rate == SuccessRate(items)
    ensures c == TaskCalibrationOf(courseID, attempts, taskID, average)
  {
    var baseDifficulty := items[0].difficulty;
    if baseDifficulty <= 0 {
      baseDifficulty := 1;
    }
    var topicWeights := CalibrationTopicWeights(items, ratings);
    var tagWeights := CalibrationTagWeights(items, masteries);
    c := TaskCalibration(courseID, taskID, |items|, Round4(rate), Round4(average), baseDifficulty,
                         SuggestedDifficulty(baseDifficulty, average, rate), topicWeights, tagWeights);
  }

  /** The last loop: one calibration per task, in any order. */
  method CalibrateTasks(courseID: string, ghost attempts: seq<Attempt>, byTask: map<string, seq<Attempt>>,
                        average: real, rates: map<string, real>, ratings: Rates, masteries: Rates)
    returns (calibrations: map<string, TaskCalibration>)
    requires byTask == BucketsOf(attempts) && rates == TaskRates(attempts)
    requires ratings == UserRates(Topics, attempts) && masteries == UserRates(Tags, attempts)
    ensures calibrations == TaskCalibrations(courseID, attempts, average)
  {
    ghost var whole := TaskCalibrations(courseID, attempts, average);
    calibrations := map[];
    var rest := byTask.Keys;
    OutsideAll(whole);
    while rest != {}
      invariant rest <= byTask.Keys
      invariant calibrations == Outside(whole, rest)
      decreases rest
    {
      var taskID :| taskID in rest;
      RateOfBucket(attempts, taskID);
      var calibrated := CalibrateTask(courseID, attempts, taskID, byTask[taskID], average, rates[taskID],
                                      ratings, masteries);
      OutsideStep(whole, rest, taskID, calibrated);
      rest := rest - {taskID};
      calibrations := calibrations[taskID := calibrated];
    }
    OutsideNone(whole);
  }

  lemma {:induction false} RateOfBucket(attempts: seq<Attempt>, taskID: string)
    requires taskID in Tasks(attempts)
    ensures Bucket(attempts, taskID) != [] && TaskRates(attempts)[taskID] == SuccessRate(Bucket(attempts, taskID))
  {
    BucketNonEmpty(attempts, taskID);
  }

  lemma {:induction false} BucketsNonEmpty(attempts: seq<Attempt>)
    ensures forall c :: c in Tasks(attempts) ==> Bucket(attempts, c) != []
  {
    forall c | c in Tasks(attempts) ensures Bucket(attempts, c) != [] {
      BucketNonEmpty(attempts, c);
    }
  }

  /** Whatever order the map loops take, the calibration is the one function of the attempts. */
  method Calibrate(courseID: string, attempts: seq<Attempt>, now: Time) returns (calibration: CourseCalibration)
    ensures calibration == CalibrationOf(courseID, attempts, now)
  {
    var byTask := GroupByTask(attempts);
    BucketsNonEmpty(attempts);
    if |byTask| == 0 {
      assert byTask.Keys == {};
      return CourseCalibration(courseID, map[], now);
    }
    var rates, average := SuccessRates(byTask);
    assert rates == TaskRates(attempts);
    var ratings := UserTopicRatings(attempts);
    var masteries := UserTagMasteries(attempts);
    var calibrations := CalibrateTasks(courseID, attempts, byTask, average, rates, ratings, masteries);
    return CourseCalibration(courseID, calibrations, now);
  }
}
