/** What holds of every calibration: attempts are conserved, weights are shares, difficulties move the right way. */
module CalibrationLaws {
  import opened Reals
  import opened Rounding
  import opened Sums
  import opened Orders
  import opened StatDomain
  import opened CourseRates
  import opened Calibration

  // ---- The buckets partition the attempts ----

  /** A bucket holds exactly the attempts at its task, each as often as it was made. */
  lemma {:induction false} BucketHoldsExactly(attempts: seq<Attempt>, taskID: string, a: Attempt)
    ensures multiset(Bucket(attempts, taskID))[a] == if a.contentID == taskID then multiset(attempts)[a] else 0
  {
    if attempts != [] {
      var before, last := attempts[..|attempts| - 1], attempts[|attempts| - 1];
      assert attempts == before + [last];
      BucketHoldsExactly(before, taskID, a);
    }
  }

  function Identified(attempts: seq<Attempt>): nat {
    if attempts == [] then 0
    else Identified(attempts[..|attempts| - 1]) + if attempts[|attempts| - 1].contentID == "" then 0 else 1
  }

  function Lengths(buckets: map<string, seq<Attempt>>): map<string, real> {
    map c | c in buckets :: |buckets[c]| as real
  }

  lemma {:induction false} LengthsUpdate(buckets: map<string, seq<Attempt>>, c: string, items: seq<Attempt>)
    ensures Sum(Lengths(buckets[c := items])) ==
      Sum(Lengths(buckets)) - (if c in buckets then |buckets[c]| as real else 0.0) + |items| as real
  {
    assert Lengths(buckets[c := items]) == Lengths(buckets)[c := |items| as real];
    SumUpdate(Lengths(buckets), c, |items| as real);
  }

  /** The attempt counts of the tasks add up to the number of attempts that name a task. */
  lemma {:induction false} CountsAddUp(attempts: seq<Attempt>)
    ensures Sum(Lengths(BucketsOf(attempts))) == Identified(attempts) as real
  {
    if attempts != [] {
      var before, a := attempts[..|attempts| - 1], attempts[|attempts| - 1];
      var buckets := BucketsOf(before);
      assert attempts == before + [a];
      CountsAddUp(before);
      BucketsStep(before, a);
      LengthsUpdate(buckets, a.contentID, (if a.contentID in buckets then buckets[a.contentID] else []) + [a]);
    }
  }

  // ---- Weights ----

  ghost predicate AboveFloor(scores: map<string, real>) {
    forall k :: k in scores ==> scores[k] >= MIN_SCORE
  }

  /** The scores of a bucket never fall below the floor, so the repair of non-positive scores is never made. */
  lemma {:induction false} BucketScoresAboveFloor(items: seq<Attempt>, ratings: Rates, masteries: Rates)
    requires items != []
    ensures AboveFloor(TopicScores(items, ratings)) && AboveFloor(TagScoreMap(items, masteries))
    ensures Repaired(TopicScores(items, ratings)) == TopicScores(items, ratings)
    ensures Repaired(TagScoreMap(items, masteries)) == TagScoreMap(items, masteries)
  {
    TopicScoresAboveFloor(items, ratings);
    TagScoresAboveFloor(items, masteries);
    NothingToRepair(TopicScores(items, ratings));
    NothingToRepair(TagScoreMap(items, masteries));
  }

  lemma {:induction false} NothingToRepair(scores: map<string, real>)
    requires AboveFloor(scores)
    ensures Repaired(scores) == scores
  {
  }

  lemma {:induction false} TopicScoresAboveFloor(items: seq<Attempt>, ratings: Rates)
    requires items != []
    ensures AboveFloor(TopicScores(items, ratings))
  {
    forall id | id in TopicScores(items, ratings) ensures TopicScores(items, ratings)[id] >= MIN_SCORE {
      ScoreFloor(SplitOf(items, ratings, id, 7.0), 1.0);
    }
  }

  lemma {:induction false} TagScoresAboveFloor(items: seq<Attempt>, masteries: Rates)
    requires items != []
    ensures AboveFloor(TagScoreMap(items, masteries))
  {
    forall id | id in TagScoreMap(items, masteries) ensures TagScoreMap(items, masteries)[id] >= MIN_SCORE {
      ScoreFloor(SplitOf(items, masteries, id, 0.65), BaseWeight(LastWeight(items[0].tagScores, id)));
    }
  }

  function WeightIDs(weights: seq<CalibrationWeight>): (ids: seq<string>)
    ensures |ids| == |weights|
  {
    seq(|weights|, i requires 0 <= i < |weights| => weights[i].id)
  }

  /** The weights list the scored ids, each once, in strictly ascending order. */
  lemma {:induction false} WeightsListIDs(scores: map<string, real>)
    ensures Lists(WeightIDs(Normalized(scores)), scores.Keys)
    ensures Sorted(StringLe, WeightIDs(Normalized(scores)))
  {
    var ids := WeightIDs(Normalized(scores));
    forall i | 0 <= i < |ids| ensures ids[i] == Ascending(scores.Keys)[i] {
      NormalizedAt(scores, i);
    }
    assert ids == Ascending(scores.Keys);
    AscendingLists(scores.Keys);
  }

  lemma {:induction false} ShareInUnitInterval(scores: map<string, real>, k: string)
    requires k in scores
    ensures 0.0 <= Share(scores, k) <= 1.0
  {
    RepairedSumPositive(scores, k);
    ShareInUnit(Repaired(scores)[k], Sum(Repaired(scores)));
  }

  /** Every weight lies between 0 and 1, and a larger score never gets a smaller weight. */
  lemma {:induction false} WeightBounds(scores: map<string, real>, i: nat, j: nat)
    requires i < |Normalized(scores)| && j < |Normalized(scores)|
    ensures 0.0 <= Normalized(scores)[i].weight <= 1.0
    ensures Normalized(scores)[i].id in scores && Normalized(scores)[j].id in scores
    ensures AboveFloor(scores) && scores[Normalized(scores)[i].id] <= scores[Normalized(scores)[j].id] ==>
      Normalized(scores)[i].weight <= Normalized(scores)[j].weight
  {
    NormalizedAt(scores, i);
    NormalizedAt(scores, j);
    var k, l := Normalized(scores)[i].id, Normalized(scores)[j].id;
    ShareInUnitInterval(scores, k);
    ShareInUnitInterval(scores, l);
    Round4Within(Share(scores, k), 0, 1);
    if AboveFloor(scores) && scores[k] <= scores[l] {
      RepairedSumPositive(scores, k);
      QuotientMonotone(Repaired(scores)[k], Repaired(scores)[l], Sum(Repaired(scores)));
      Round4Monotone(Share(scores, k), Share(scores, l));
    }
  }

  lemma {:induction false} QuotientsOfSum(xs: seq<real>, qs: seq<real>, total: real)
    requires total > 0.0 && |qs| == |xs| && forall i :: 0 <= i < |xs| ==> qs[i] == xs[i] / total
    ensures SumSeq(qs) == SumSeq(xs) / total
  {
    if xs != [] {
      QuotientsOfSum(xs[1..], qs[1..], total);
      QuotientOfSum(xs[0], SumSeq(xs[1..]), total);
    }
  }

  lemma {:induction false} QuotientsOfWholeSum(xs: seq<real>, qs: seq<real>, total: real)
    requires total > 0.0 && SumSeq(xs) == total
    requires |qs| == |xs| && forall i :: 0 <= i < |xs| ==> qs[i] == xs[i] / total
    ensures SumSeq(qs) == 1.0
  {
    QuotientsOfSum(xs, qs, total);
    QuotientUnique(total, total, 1.0);
  }

  lemma {:induction false} RoundedSum(xs: seq<real>, rs: seq<real>)
    requires |rs| == |xs| && forall i :: 0 <= i < |xs| ==> xs[i] >= 0.0 && rs[i] == Round4(xs[i])
    ensures -(|xs| as real) / 20000.0 <= SumSeq(rs) - SumSeq(xs) <= |xs| as real / 20000.0
  {
    if xs != [] {
      RoundedSum(xs[1..], rs[1..]);
      Round4Close(xs[0]);
    }
  }

  ghost function Shares(scores: map<string, real>): (shares: seq<real>)
    ensures |shares| == |Normalized(scores)|
  {
    AscendingLists(scores.Keys);
    var keys := Ascending(scores.Keys);
    seq(|keys|, i requires 0 <= i < |keys| => Share(scores, keys[i]))
  }

  lemma {:induction false} ShareAt(scores: map<string, real>, i: nat)
    requires i < |Ascending(scores.Keys)|
    ensures var k := Ascending(scores.Keys)[i];
      k in scores && Sum(Repaired(scores)) > 0.0
      && Shares(scores)[i] == Repaired(scores)[k] / Sum(Repaired(scores))
  {
    AscendingLists(scores.Keys);
    RepairedSumPositive(scores, Ascending(scores.Keys)[i]);
  }

  /** Before rounding, the shares add up to exactly 1. */
  lemma {:induction false} SharesAddUp(scores: map<string, real>, values: seq<real>)
    requires scores.Keys != {} && |values| == |Ascending(scores.Keys)|
    requires forall i :: 0 <= i < |values| ==>
      Ascending(scores.Keys)[i] in scores && values[i] == Repaired(scores)[Ascending(scores.Keys)[i]]
    ensures SumSeq(Shares(scores)) == 1.0
  {
    var total := Sum(Repaired(scores));
    var k :| k in scores;
    RepairedSumPositive(scores, k);
    AscendingLists(scores.Keys);
    SumAsSeq(Repaired(scores), Ascending(scores.Keys), values);
    forall i | 0 <= i < |values| ensures Shares(scores)[i] == values[i] / total {
      ShareAt(scores, i);
    }
    QuotientsOfWholeSum(values, Shares(scores), total);
  }

  function ValuesOf(weights: seq<CalibrationWeight>): (values: seq<real>)
    ensures |values| == |weights|
  {
    seq(|weights|, i requires 0 <= i < |weights| => weights[i].weight)
  }

  /** After rounding, n weights add up to 1 within n/20000. */
  lemma {:induction false} WeightsAddUp(scores: map<string, real>)
    requires scores.Keys != {}
    ensures var n := |Normalized(scores)| as real;
      n >= 1.0 && 1.0 - n / 20000.0 <= SumSeq(ValuesOf(Normalized(scores))) <= 1.0 + n / 20000.0
  {
    AscendingLists(scores.Keys);
    var keys := Ascending(scores.Keys);
    SharesAddUp(scores, seq(|keys|, i requires 0 <= i < |keys| => Repaired(scores)[keys[i]]));
    var k :| k in scores;
    assert k in Ascending(scores.Keys);
    forall i | 0 <= i < |Normalized(scores)|
      ensures Shares(scores)[i] >= 0.0 && ValuesOf(Normalized(scores))[i] == Round4(Shares(scores)[i])
    {
      NormalizedAt(scores, i);
      ShareInUnitInterval(scores, Ascending(scores.Keys)[i]);
    }
    RoundedSum(Shares(scores), ValuesOf(Normalized(scores)));
  }

  lemma {:induction false} RaisedPart(part: real, part': real, rest: real)
    requires 0.0 < part <= part' && rest >= 0.0
    ensures part / (part + rest) <= part' / (part' + rest)
  {
    var q := part / (part + rest);
    ShareInUnit(part, part + rest);
    QuotientTimes(part, part + rest);
    assert q * (part' + rest) == q * (part + rest) + q * (part' - part);
    assert q * (part' - part) <= part' - part by { TimesMonotone(q, 1.0, part' - part); }
    QuotientMonotone(q * (part' + rest), part', part' + rest);
    QuotientUnique(q * (part' + rest), part' + rest, q);
  }

  /** Raising one score, the others unchanged, never lowers that id's share: strong solvers raise a topic's weight. */
  lemma {:induction false} RaisedScoreRaisesShare(scores: map<string, real>, k: string, raised: real)
    requires k in scores && AboveFloor(scores) && scores[k] <= raised
    ensures Share(scores, k) <= Share(scores[k := raised], k)
    ensures Round4(Share(scores, k)) <= Round4(Share(scores[k := raised], k))
  {
    var m, m' := Repaired(scores), Repaired(scores[k := raised]);
    SumRemove(m, k);
    SumRemove(m', k);
    assert m - {k} == m' - {k};
    SumNonNegative(m - {k});
    RaisedPart(m[k], m'[k], Sum(m - {k}));
    ShareInUnitInterval(scores, k);
    Round4Monotone(Share(scores, k), Share(scores[k := raised], k));
  }

  // ---- Success rates and difficulties ----

  lemma {:induction false} AverageInUnit(attempts: seq<Attempt>)
    ensures 0.0 <= CourseAverage(attempts) <= 1.0
  {
    BucketsNonEmpty(attempts);
    var rates := TaskRates(attempts);
    if |rates| > 0 {
      SumOfUnits(rates);
      ShareInUnit(Sum(rates), |rates| as real);
    }
  }

  /** Over the tasks of a course, the deviations of the success rates from their mean add up to zero. */
  lemma {:induction false} DeviationsCancel(attempts: seq<Attempt>, deviations: map<string, real>)
    requires deviations.Keys == TaskRates(attempts).Keys
    requires forall c :: c in deviations ==> deviations[c] == TaskRates(attempts)[c] - CourseAverage(attempts)
    ensures Sum(deviations) == 0.0
  {
    var rates, average := TaskRates(attempts), CourseAverage(attempts);
    SumShifted(rates, deviations, average);
    if |rates| > 0 {
      MeanAddsBack(Sum(rates), |rates|);
    } else {
      assert rates.Keys == {};
    }
  }

  function Stretched(base: int, average: real, rate: real): real {
    base as real * (1.0 + (average - rate))
  }

  lemma {:induction false} StretchedMoves(base: int, average: real, rate: real)
    requires base >= 1
    ensures rate <= average ==> Stretched(base, average, rate) >= base as real
    ensures rate >= average ==> Stretched(base, average, rate) <= base as real
  {
    assert Stretched(base, average, rate) == base as real + base as real * (average - rate);
    if rate <= average {
      TimesMonotone(0.0, average - rate, base as real);
    } else {
      TimesMonotone(average - rate, 0.0, base as real);
    }
  }

  /**
   The suggested difficulty lies between 1 and 10. A task solved at most as often as the average is never made
   easier (up to the cap of 10), one solved at least as often is never made harder.
   */
  lemma {:induction false} SuggestedDifficultyMoves(base: int, average: real, rate: real)
    requires base >= 1
    ensures 1.0 <= SuggestedDifficulty(base, average, rate) <= 10.0
    ensures rate <= average ==> SuggestedDifficulty(base, average, rate) >= (if base <= 10 then base else 10) as real
    ensures rate >= average ==> SuggestedDifficulty(base, average, rate) <= base as real
  {
    var value := Stretched(base, average, rate);
    var clamped := Clamp(value, 1.0, 10.0);
    StretchedMoves(base, average, rate);
    Round4Within(clamped, 1, 10);
    if rate <= average {
      Round4Within(clamped, if base <= 10 then base else 10, 10);
    }
    if rate >= average {
      Round4Within(clamped, 1, base);
    }
  }

  /** The smallest change that survives rounding to four decimals. */
  const HALF_STEP: real := 1.0 / 20000.0

  lemma {:induction false} RoundsAbove(x: real, n: nat)
    requires x >= 0.0
    ensures Round4(x) > n as real <==> x - n as real >= HALF_STEP
  {
    var m := Truncate(x * 10000.0 + 0.5);
    assert m as real <= x * 10000.0 + 0.5 < m as real + 1.0;
    assert Round4(x) > n as real <==> m >= n * 10000 + 1;
  }

  lemma {:induction false} RoundsBelow(x: real, n: nat)
    requires x >= 0.0
    ensures Round4(x) < n as real <==> n as real - x > HALF_STEP
  {
    var m := Truncate(x * 10000.0 + 0.5);
    assert m as real <= x * 10000.0 + 0.5 < m as real + 1.0;
    assert Round4(x) < n as real <==> m < n * 10000;
  }

  /** Below the cap, and the difference to the average, stretched by the base, survives rounding. */
  predicate GrowsFrom(base: int, average: real, rate: real) {
    base < 10 && base as real * (average - rate) >= HALF_STEP
  }

  /**
   A task solved less often than the average is really suggested harder exactly when its base difficulty is below
   the cap and the difference, stretched by the base, is not lost in rounding.
   */
  lemma {:induction false} SuggestedDifficultyGrows(base: int, average: real, rate: real)
    requires base >= 1 && rate < average
    ensures SuggestedDifficulty(base, average, rate) > base as real <==> GrowsFrom(base, average, rate)
  {
    var value := Stretched(base, average, rate);
    assert value == base as real + base as real * (average - rate);
    StretchedMoves(base, average, rate);
    RoundsAbove(Clamp(value, 1.0, 10.0), base);
  }

  /** And one solved more often is suggested easier exactly when the base is above the cap, or above 1 by enough. */
  lemma {:induction false} SuggestedDifficultyFalls(base: int, average: real, rate: real)
    requires base >= 1 && rate > average
    ensures SuggestedDifficulty(base, average, rate) < base as real
       <==> base > 10 || (base > 1 && base as real * (rate - average) > HALF_STEP)
  {
    var value := Stretched(base, average, rate);
    assert value == base as real - base as real * (rate - average);
    StretchedMoves(base, average, rate);
    RoundsBelow(Clamp(value, 1.0, 10.0), base);
  }

  /** A base above the cap is lowered to 10 however hard the task proved: solved less often, suggested easier. */
  lemma {:induction false} CapLowersHardTasks(base: int, average: real, rate: real)
    requires base > 10 && rate < average
    ensures SuggestedDifficulty(base, average, rate) == 10.0 < base as real
  {
    StretchedMoves(base, average, rate);
    Round4OfWhole(10);
  }

  /** A difference too small for rounding leaves the base as it is, although the task is solved less often. */
  lemma {:induction false} RoundingLosesGrowth()
    ensures SuggestedDifficulty(1, 0.50004, 0.5) == 1.0
  {
  }

  /** Of two tasks with the same base difficulty, the one solved more often is not suggested to be harder. */
  lemma {:induction false} SuggestedDifficultyAntitone(base: int, average: real, rate: real, rate': real)
    requires base >= 1 && rate <= rate'
    ensures SuggestedDifficulty(base, average, rate) >= SuggestedDifficulty(base, average, rate')
  {
    var value, value' := Stretched(base, average, rate), Stretched(base, average, rate');
    TimesMonotone(1.0 + (average - rate'), 1.0 + (average - rate), base as real);
    assert value' <= value;
    Round4Monotone(Clamp(value', 1.0, 10.0), Clamp(value, 1.0, 10.0));
  }

  /** The laws above, at one entry of a course's calibration. */
  lemma {:induction false} EntryLaws(courseID: string, attempts: seq<Attempt>, now: Time, taskID: string)
    requires taskID in Tasks(attempts)
    ensures taskID in CalibrationOf(courseID, attempts, now).taskCalibrations
    ensures var entry := CalibrationOf(courseID, attempts, now).taskCalibrations[taskID];
      && entry.contentID == taskID && entry.attemptCount == |Bucket(attempts, taskID)| >= 1
      && 0.0 <= entry.successRate <= 1.0 && 0.0 <= entry.courseAverageRate <= 1.0
      && 1.0 <= entry.suggestedDifficulty <= 10.0
      && (TaskRates(attempts)[taskID] <= CourseAverage(attempts) && entry.baseDifficulty <= 10 ==>
            entry.suggestedDifficulty >= entry.baseDifficulty as real)
      && (TaskRates(attempts)[taskID] >= CourseAverage(attempts) ==>
            entry.suggestedDifficulty <= entry.baseDifficulty as real)
  {
    BucketNonEmpty(attempts, taskID);
    var items := Bucket(attempts, taskID);
    AverageInUnit(attempts);
    Round4Within(SuccessRate(items), 0, 1);
    Round4Within(CourseAverage(attempts), 0, 1);
    SuggestedDifficultyMoves(BaseDifficulty(items), CourseAverage(attempts), SuccessRate(items));
  }

  /** When the course's own figures really make a task harder than it was set. */
  lemma {:induction false} EntryGrows(courseID: string, attempts: seq<Attempt>, now: Time, taskID: string)
    requires taskID in Tasks(attempts) && TaskRates(attempts)[taskID] < CourseAverage(attempts)
    ensures taskID in CalibrationOf(courseID, attempts, now).taskCalibrations
    ensures var entry := CalibrationOf(courseID, attempts, now).taskCalibrations[taskID];
      entry.suggestedDifficulty > entry.baseDifficulty as real
      <==> GrowsFrom(entry.baseDifficulty, CourseAverage(attempts), TaskRates(attempts)[taskID])
  {
    var base := EntryDifficulty(courseID, attempts, now, taskID);
    SuggestedDifficultyGrows(base, CourseAverage(attempts), TaskRates(attempts)[taskID]);
  }

  lemma {:induction false} EntryDifficulty(courseID: string, attempts: seq<Attempt>, now: Time, taskID: string)
    returns (base: int)
    requires taskID in Tasks(attempts)
    ensures taskID in CalibrationOf(courseID, attempts, now).taskCalibrations
    ensures var entry := CalibrationOf(courseID, attempts, now).taskCalibrations[taskID];
      && entry.baseDifficulty == base >= 1
      && entry.suggestedDifficulty == SuggestedDifficulty(base, CourseAverage(attempts), TaskRates(attempts)[taskID])
  {
    BucketNonEmpty(attempts, taskID);
    base := BaseDifficulty(Bucket(attempts, taskID));
  }

  /** The ids, each once, ascending; every weight between 0 and 1; together 1, within n/20000. */
  ghost predicate SoundWeights(weights: seq<CalibrationWeight>, ids: set<string>) {
    && Lists(WeightIDs(weights), ids) && Sorted(StringLe, WeightIDs(weights))
    && (forall i :: 0 <= i < |weights| ==> 0.0 <= weights[i].weight <= 1.0)
    && (ids != {} ==>
      1.0 - |weights| as real / 20000.0 <= SumSeq(ValuesOf(weights)) <= 1.0 + |weights| as real / 20000.0)
  }

  lemma {:induction false} NormalizedAreSound(scores: map<string, real>)
    ensures SoundWeights(Normalized(scores), scores.Keys)
  {
    WeightsListIDs(scores);
    forall i | 0 <= i < |Normalized(scores)| ensures 0.0 <= Normalized(scores)[i].weight <= 1.0 {
      WeightBounds(scores, i, i);
    }
    if scores.Keys != {} {
      WeightsAddUp(scores);
    }
  }

  /** The weights of every entry list the topics and tags of the task's first attempt, and are shares. */
  lemma {:induction false} EntryWeights(courseID: string, attempts: seq<Attempt>, now: Time, taskID: string)
    requires taskID in Tasks(attempts)
    ensures taskID in CalibrationOf(courseID, attempts, now).taskCalibrations
    ensures Bucket(attempts, taskID) != []
    ensures var entry := CalibrationOf(courseID, attempts, now).taskCalibrations[taskID];
      var first := Bucket(attempts, taskID)[0];
      && SoundWeights(entry.topicWeights, set id | id in first.topicIDs)
      && SoundWeights(entry.tagWeights, TagIDs(first.tagScores))
  {
    BucketNonEmpty(attempts, taskID);
    var items := Bucket(attempts, taskID);
    SoundTopicWeights(items, UserRates(Topics, attempts));
    SoundTagWeights(items, UserRates(Tags, attempts));
  }

  lemma {:induction false} SoundTopicWeights(items: seq<Attempt>, ratings: Rates)
    requires items != []
    ensures SoundWeights(Normalized(TopicScores(items, ratings)), set id | id in items[0].topicIDs)
  {
    NormalizedAreSound(TopicScores(items, ratings));
    assert TopicScores(items, ratings).Keys == set id | id in items[0].topicIDs;
  }

  lemma {:induction false} SoundTagWeights(items: seq<Attempt>, masteries: Rates)
    requires items != []
    ensures SoundWeights(Normalized(TagScoreMap(items, masteries)), TagIDs(items[0].tagScores))
  {
    NormalizedAreSound(TagScoreMap(items, masteries));
    assert TagScoreMap(items, masteries).Keys == TagIDs(items[0].tagScores);
  }
}
