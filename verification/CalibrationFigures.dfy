/**
 What the figures of a calibration mean, said of the attempts themselves: how many there are, how many are right, how
 the students are split, which attempt sets the difficulty, and what a score and a weight are made of.
 */
module CalibrationFigures {
  import opened Reals
  import opened Rounding
  import opened Sums
  import opened Orders
  import opened Sequences
  import opened StatDomain
  import opened CourseRates
  import opened Calibration
  import opened CalibrationLaws

  // ---- Counts ----

  function IsRight(): Attempt -> bool { (a: Attempt) => a.isCorrect }

  function IsAt(taskID: string): Attempt -> bool { (a: Attempt) => a.contentID == taskID }

  function IsRightAt(taskID: string): Attempt -> bool { (a: Attempt) => a.contentID == taskID && a.isCorrect }

  lemma {:induction false} CorrectAreRight(items: seq<Attempt>)
    ensures CorrectCount(items) == HowMany(items, IsRight())
  {
    if items == [] {
      HowManyNone(IsRight());
    } else {
      CorrectAreRight(items[..|items| - 1]);
      HowManySplit(items, IsRight());
    }
  }

  lemma {:induction false} BucketCounts(attempts: seq<Attempt>, taskID: string)
    ensures |Bucket(attempts, taskID)| == HowMany(attempts, IsAt(taskID))
    ensures CorrectCount(Bucket(attempts, taskID)) == HowMany(attempts, IsRightAt(taskID))
  {
    if attempts == [] {
      HowManyNone(IsAt(taskID));
      HowManyNone(IsRightAt(taskID));
    } else {
      var before, last := attempts[..|attempts| - 1], attempts[|attempts| - 1];
      BucketCounts(before, taskID);
      HowManySplit(attempts, IsAt(taskID));
      HowManySplit(attempts, IsRightAt(taskID));
      LastOf(Bucket(before, taskID), last);
    }
  }

  // ---- Success rates ----

  /** A rate is the share of right answers: times the number of answers it is the number of right ones. */
  lemma {:induction false} RateIsShare(items: seq<Attempt>)
    requires items != []
    ensures SuccessRate(items) * |items| as real == HowMany(items, IsRight()) as real
  {
    CorrectAreRight(items);
    QuotientTimes(CorrectCount(items) as real, |items| as real);
  }

  lemma {:induction false} TaskRateIsShare(attempts: seq<Attempt>, taskID: string)
    requires taskID in Tasks(attempts)
    ensures HowMany(attempts, IsAt(taskID)) >= 1
    ensures TaskRates(attempts)[taskID]
         == HowMany(attempts, IsRightAt(taskID)) as real / HowMany(attempts, IsAt(taskID)) as real
  {
    RateOfBucket(attempts, taskID);
    BucketCounts(attempts, taskID);
    RateIsQuotient(Bucket(attempts, taskID));
  }

  lemma {:induction false} RateIsQuotient(items: seq<Attempt>)
    requires items != []
    ensures SuccessRate(items) == CorrectCount(items) as real / |items| as real
  {
  }

  lemma {:induction false} RoundedShare(part: nat, whole: nat)
    requires whole >= 1
    ensures part == whole ==> Round4(part as real / whole as real) == 1.0
    ensures part == 0 ==> Round4(part as real / whole as real) == 0.0
  {
    Round4OfWhole(0);
    Round4OfWhole(1);
    SelfQuotient(whole as real);
    QuotientUnique(0.0, whole as real, 0.0);
  }

  lemma {:induction false} EntryIs(courseID: string, attempts: seq<Attempt>, now: Time, taskID: string)
    requires taskID in Tasks(attempts)
    ensures taskID in CalibrationOf(courseID, attempts, now).taskCalibrations
    ensures Bucket(attempts, taskID) != []
    ensures var entry := CalibrationOf(courseID, attempts, now).taskCalibrations[taskID];
      && entry.courseID == courseID && entry.contentID == taskID
      && entry.attemptCount == |Bucket(attempts, taskID)|
      && entry.successRate == Round4(TaskRates(attempts)[taskID])
      && entry.courseAverageRate == Round4(CourseAverage(attempts))
      && entry.baseDifficulty == BaseDifficulty(Bucket(attempts, taskID))
  {
    BucketNonEmpty(attempts, taskID);
  }

  /**
   An entry counts the attempts at its task, and its success rate is their share of right ones, rounded: 1 when all
   are right, 0 when none is.
   */
  lemma {:induction false} EntryRate(courseID: string, attempts: seq<Attempt>, now: Time, taskID: string)
    requires taskID in Tasks(attempts)
    ensures taskID in CalibrationOf(courseID, attempts, now).taskCalibrations
    ensures var entry := CalibrationOf(courseID, attempts, now).taskCalibrations[taskID];
      var all, right := HowMany(attempts, IsAt(taskID)), HowMany(attempts, IsRightAt(taskID));
      && entry.courseID == courseID && entry.contentID == taskID && entry.attemptCount == all >= 1
      && entry.successRate == Round4(right as real / all as real)
      && (right == all ==> entry.successRate == 1.0) && (right == 0 ==> entry.successRate == 0.0)
  {
    var all, right := HowMany(attempts, IsAt(taskID)), HowMany(attempts, IsRightAt(taskID));
    EntryIs(courseID, attempts, now, taskID);
    TaskRateIsShare(attempts, taskID);
    BucketCounts(attempts, taskID);
    RoundedShare(right, all);
  }

  /** An entry shows the mean of the rates of all tasks, rounded. */
  lemma {:induction false} EntryAverage(courseID: string, attempts: seq<Attempt>, now: Time, taskID: string)
    requires taskID in Tasks(attempts)
    ensures taskID in CalibrationOf(courseID, attempts, now).taskCalibrations && |TaskRates(attempts)| >= 1
    ensures CalibrationOf(courseID, attempts, now).taskCalibrations[taskID].courseAverageRate
         == Round4(Sum(TaskRates(attempts)) / |TaskRates(attempts)| as real)
  {
    EntryIs(courseID, attempts, now, taskID);
    AverageIs(attempts, taskID);
  }

  lemma {:induction false} AverageIs(attempts: seq<Attempt>, taskID: string)
    requires taskID in Tasks(attempts)
    ensures |TaskRates(attempts)| >= 1
    ensures CourseAverage(attempts) == Sum(TaskRates(attempts)) / |TaskRates(attempts)| as real
  {
    assert taskID in TaskRates(attempts);
  }

  // ---- The first attempt at a task ----

  lemma {:induction false} FirstOfBucket(attempts: seq<Attempt>, taskID: string) returns (i: nat)
    requires Bucket(attempts, taskID) != []
    ensures i < |attempts| && attempts[i].contentID == taskID && attempts[i] == Bucket(attempts, taskID)[0]
    ensures forall j :: 0 <= j < i ==> attempts[j].contentID != taskID
  {
    var before := attempts[..|attempts| - 1];
    if Bucket(before, taskID) == [] {
      i := |attempts| - 1;
      EmptyBucket(before, taskID);
      assert forall j :: 0 <= j < i ==> attempts[j] == before[j];
    } else {
      i := FirstOfBucket(before, taskID);
      assert forall j :: 0 <= j <= i ==> attempts[j] == before[j];
    }
  }

  lemma {:induction false} EmptyBucket(attempts: seq<Attempt>, taskID: string)
    requires Bucket(attempts, taskID) == []
    ensures forall j :: 0 <= j < |attempts| ==> attempts[j].contentID != taskID
  {
    if attempts != [] {
      EmptyBucket(attempts[..|attempts| - 1], taskID);
      assert forall j :: 0 <= j < |attempts| - 1 ==> attempts[j] == attempts[..|attempts| - 1][j];
    }
  }

  /** The base difficulty of a task is that of its first attempt, or 1. */
  lemma {:induction false} EntryDifficultyIs(courseID: string, attempts: seq<Attempt>, now: Time, taskID: string,
                                             i: nat)
    requires i < |attempts| && attempts[i].contentID == taskID != ""
    requires forall j :: 0 <= j < i ==> attempts[j].contentID != taskID
    ensures taskID in CalibrationOf(courseID, attempts, now).taskCalibrations
    ensures CalibrationOf(courseID, attempts, now).taskCalibrations[taskID].baseDifficulty ==
      if attempts[i].difficulty > 0 then attempts[i].difficulty else 1
  {
    assert attempts[i] in attempts;
    assert taskID in Tasks(attempts);
    EntryIs(courseID, attempts, now, taskID);
    var k := FirstOfBucket(attempts, taskID);
    assert !(k < i) && !(i < k);
  }

  // ---- Strong and weak students ----

  function IsStrong(rates: Rates, id: string, threshold: real): Attempt -> bool {
    (a: Attempt) => RateIn(rates, a.userID, id) >= threshold
  }

  function IsStrongRight(rates: Rates, id: string, threshold: real): Attempt -> bool {
    (a: Attempt) => RateIn(rates, a.userID, id) >= threshold && a.isCorrect
  }

  function IsWeak(rates: Rates, id: string, threshold: real): Attempt -> bool {
    (a: Attempt) => RateIn(rates, a.userID, id) < threshold
  }

  function IsWeakRight(rates: Rates, id: string, threshold: real): Attempt -> bool {
    (a: Attempt) => RateIn(rates, a.userID, id) < threshold && a.isCorrect
  }

  /** Strong are the attempts of students rated at the threshold or above, weak the others. */
  lemma {:induction false} SplitCounts(items: seq<Attempt>, rates: Rates, id: string, threshold: real)
    ensures SplitOf(items, rates, id, threshold) ==
      Split(HowMany(items, IsStrongRight(rates, id, threshold)), HowMany(items, IsStrong(rates, id, threshold)),
            HowMany(items, IsWeakRight(rates, id, threshold)), HowMany(items, IsWeak(rates, id, threshold)))
  {
    if items == [] {
      HowManyNone(IsStrong(rates, id, threshold));
      HowManyNone(IsStrongRight(rates, id, threshold));
      HowManyNone(IsWeak(rates, id, threshold));
      HowManyNone(IsWeakRight(rates, id, threshold));
    } else {
      SplitCounts(items[..|items| - 1], rates, id, threshold);
      HowManySplit(items, IsStrong(rates, id, threshold));
      HowManySplit(items, IsStrongRight(rates, id, threshold));
      HowManySplit(items, IsWeak(rates, id, threshold));
      HowManySplit(items, IsWeakRight(rates, id, threshold));
    }
  }

  // ---- Scores ----

  /** What is observed: how much more often the strong solve the task than the weak; nobody's attempts count as 0. */
  function Observed(s: Split): real {
    var strong := if s.strongTotal == 0 then 0.0 else s.strongSolved as real / s.strongTotal as real;
    var weak := if s.weakTotal == 0 then 0.0 else s.weakSolved as real / s.weakTotal as real;
    if strong > weak then strong - weak else 0.0
  }

  /** From six attempts on only what is observed counts; before, the prior weight fills up. */
  lemma {:induction false} ScoreIsMixed(s: Split, baseWeight: real)
    ensures var n := s.strongTotal + s.weakTotal;
      var base := if baseWeight > 0.0 then baseWeight else 1.0;
      DiscriminativeScore(s, baseWeight) ==
        if n >= 6 then 0.05 + Observed(s)
        else 0.05 + n as real / 6.0 * Observed(s) + (1.0 - n as real / 6.0) * base
  {
    var n := s.strongTotal + s.weakTotal;
    assert Signal(s) == Observed(s);
    if n >= 6 {
      assert n as real / 6.0 >= 1.0;
      assert Confidence(s) == 1.0;
    } else {
      assert 0.0 <= n as real / 6.0 < 1.0;
    }
  }

  /** Topics are scored by the students rated 7 or above, with prior weight 1. */
  lemma {:induction false} TopicScoreIs(items: seq<Attempt>, ratings: Rates, id: string)
    requires items != [] && id in items[0].topicIDs
    ensures id in TopicScores(items, ratings)
    ensures TopicScores(items, ratings)[id] == DiscriminativeScore(SplitOf(items, ratings, id, 7.0), 1.0)
  {
  }

  /** Tags are scored by the students with mastery 0.65 or above; the prior is the weight listed last for the tag. */
  lemma {:induction false} TagScoreIs(items: seq<Attempt>, masteries: Rates, j: nat)
    requires items != [] && j < |items[0].tagScores|
    requires forall k :: j < k < |items[0].tagScores| ==> items[0].tagScores[k].tagID != items[0].tagScores[j].tagID
    ensures var tag := items[0].tagScores[j];
      && tag.tagID in TagScoreMap(items, masteries)
      && TagScoreMap(items, masteries)[tag.tagID] ==
           DiscriminativeScore(SplitOf(items, masteries, tag.tagID, 0.65), tag.weight)
  {
    var tag := items[0].tagScores[j];
    LastWeightAt(items[0].tagScores, j);
    assert tag in items[0].tagScores;
    SameBase(SplitOf(items, masteries, tag.tagID, 0.65), tag.weight);
  }

  lemma {:induction false} SameBase(s: Split, weight: real)
    ensures DiscriminativeScore(s, BaseWeight(weight)) == DiscriminativeScore(s, weight)
  {
  }

  lemma {:induction false} LastWeightAt(tags: seq<TagScore>, j: nat)
    requires j < |tags| && forall k :: j < k < |tags| ==> tags[k].tagID != tags[j].tagID
    ensures LastWeight(tags, tags[j].tagID) == tags[j].weight
  {
    if j < |tags| - 1 {
      LastWeightAt(tags[..|tags| - 1], j);
    }
  }

  // ---- Weights ----

  /** A weight is the share of its score in the sum of all scores, rounded. */
  lemma {:induction false} WeightIsShare(scores: map<string, real>, i: nat)
    requires AboveFloor(scores) && i < |Normalized(scores)|
    ensures var w := Normalized(scores)[i];
      w.id in scores && Sum(scores) > 0.0 && w.weight == Round4(scores[w.id] / Sum(scores))
  {
    NormalizedAt(scores, i);
    NothingToRepair(scores);
    RepairedSumPositive(scores, Normalized(scores)[i].id);
  }

  /** A calibration is of its course and moment, and has an entry for exactly the tasks attempted. */
  lemma {:induction false} CalibrationHas(courseID: string, attempts: seq<Attempt>, now: Time, taskID: string)
    ensures CalibrationOf(courseID, attempts, now).courseID == courseID
    ensures CalibrationOf(courseID, attempts, now).updatedAt == now
    ensures taskID in CalibrationOf(courseID, attempts, now).taskCalibrations <==>
      taskID != "" && exists i :: 0 <= i < |attempts| && attempts[i].contentID == taskID
  {
    TasksAre(attempts, taskID);
  }

  lemma {:induction false} TasksAre(attempts: seq<Attempt>, taskID: string)
    ensures taskID in Tasks(attempts) <==>
      taskID != "" && exists i :: 0 <= i < |attempts| && attempts[i].contentID == taskID
  {
    if i :| 0 <= i < |attempts| && attempts[i].contentID == taskID {
      assert attempts[i] in attempts;
    }
  }
}
