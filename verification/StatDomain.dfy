/** The records of the statistic service. Times are opaque numbers. */
module StatDomain {
  import opened Sequences

  type Time = int

  datatype TagScore = TagScore(tagID: string, code: string, name: string, kind: string, weight: real)

  datatype Attempt = Attempt(id: string, userID: string, courseID: string, contentID: string,
                             topicIDs: seq<string>, tagScores: seq<TagScore>, difficulty: int,
                             answer: string, isCorrect: bool, source: string, createdAt: Time)

  datatype TopicStat = TopicStat(userID: string, topicID: string, attempts: nat, correct: nat,
                                 weightedAttempts: real, weightedCorrect: real,
                                 accuracy: real, rating: real, updatedAt: Time)

  datatype TagStat = TagStat(userID: string, tagID: string, code: string, name: string, kind: string,
                             weightedAttempts: real, weightedCorrect: real, mastery: real, updatedAt: Time)

  datatype KnowledgeProfile = KnowledgeProfile(userID: string, topics: map<string, TopicStat>,
                                               tags: map<string, TagStat>, updatedAt: Time)

  datatype CalibrationWeight = CalibrationWeight(id: string, weight: real)

  datatype TaskCalibration = TaskCalibration(courseID: string, contentID: string, attemptCount: nat,
                                             successRate: real, courseAverageRate: real,
                                             baseDifficulty: int, suggestedDifficulty: real,
                                             topicWeights: seq<CalibrationWeight>, tagWeights: seq<CalibrationWeight>)

  datatype CourseCalibration = CourseCalibration(courseID: string, taskCalibrations: map<string, TaskCalibration>,
                                                 updatedAt: Time)

  /** An attempt's difficulty as a weight; anything not positive counts as 1. */
  function DifficultyWeight(attempt: Attempt): (w: real)
    ensures w >= 1.0
  {
    if attempt.difficulty <= 0 then 1.0 else attempt.difficulty as real
  }

  // ---- Mentions of topics and tags ----

  /** Topics are weighted by the attempt's difficulty, tags by the weight the tag has in the task. */
  datatype Axis = Topics | Tags

  /** One occurrence of a topic or tag in an attempt. */
  datatype Mention = Mention(id: string, weight: real, correct: bool, code: string, name: string, kind: string)

  function MentionCount(axis: Axis, attempt: Attempt): nat {
    if axis.Topics? then |attempt.topicIDs| else |attempt.tagScores|
  }

  function MentionAt(axis: Axis, attempt: Attempt, i: nat): Mention
    requires i < MentionCount(axis, attempt)
  {
    match axis
    case Topics => Mention(attempt.topicIDs[i], DifficultyWeight(attempt), attempt.isCorrect, "", "", "")
    case Tags =>
      var score := attempt.tagScores[i];
      Mention(score.tagID, score.weight, attempt.isCorrect, score.code, score.name, score.kind)
  }

  function MentionsIn(axis: Axis, attempt: Attempt): (ms: seq<Mention>)
    ensures |ms| == MentionCount(axis, attempt)
    ensures forall i :: 0 <= i < |ms| ==> ms[i] == MentionAt(axis, attempt, i)
  {
    seq(MentionCount(axis, attempt), i requires 0 <= i < MentionCount(axis, attempt) => MentionAt(axis, attempt, i))
  }

  /** All mentions, in the order of the attempts. */
  function Mentions(axis: Axis, attempts: seq<Attempt>): seq<Mention> {
    if attempts == [] then []
    else Mentions(axis, attempts[..|attempts| - 1]) + MentionsIn(axis, attempts[|attempts| - 1])
  }

  lemma {:induction false} MentionsAppend(axis: Axis, attempts: seq<Attempt>, attempt: Attempt)
    ensures Mentions(axis, attempts + [attempt]) == Mentions(axis, attempts) + MentionsIn(axis, attempt)
  {
    assert (attempts + [attempt])[..|attempts|] == attempts;
  }

  lemma {:induction false} MentionsJoined(axis: Axis, s: seq<Attempt>, t: seq<Attempt>)
    ensures Mentions(axis, s + t) == Mentions(axis, s) + Mentions(axis, t)
  {
    if t == [] {
      assert s + t == s;
    } else {
      var before, last := t[..|t| - 1], t[|t| - 1];
      MentionsJoined(axis, s, before);
      assert t == before + [last];
      AppendInTurn(s, before, [last]);
      MentionsAppend(axis, s + before, last);
      AppendInTurn(Mentions(axis, s), Mentions(axis, before), MentionsIn(axis, last));
    }
  }

  lemma {:induction false} MentionsOfOne(axis: Axis, attempt: Attempt)
    ensures Mentions(axis, [attempt]) == MentionsIn(axis, attempt)
  {
    assert [] + [attempt] == [attempt];
    MentionsAppend(axis, [], attempt);
  }

  function IDs(ms: seq<Mention>): set<string> {
    set m | m in ms :: m.id
  }

  lemma {:induction false} IDsAppend(ms: seq<Mention>, m: Mention)
    ensures IDs(ms + [m]) == IDs(ms) + {m.id}
  {
    assert forall x :: x in ms + [m] <==> x in ms || x == m;
    assert m in ms + [m];
  }

  // ---- Tallies ----

  /** What the mentions of one id add up to. */
  datatype Tally = Tally(attempts: nat, correct: nat, weighted: real, weightedCorrect: real)

  const EMPTY_TALLY: Tally := Tally(0, 0, 0.0, 0.0)

  function Counted(t: Tally, m: Mention): Tally {
    Tally(t.attempts + 1, if m.correct then t.correct + 1 else t.correct,
          t.weighted + m.weight, if m.correct then t.weightedCorrect + m.weight else t.weightedCorrect)
  }

  function TallyOf(id: string, ms: seq<Mention>): Tally {
    if ms == [] then EMPTY_TALLY
    else
      var before, last := TallyOf(id, ms[..|ms| - 1]), ms[|ms| - 1];
      if last.id == id then Counted(before, last) else before
  }

  lemma {:induction false} TallyAppend(id: string, ms: seq<Mention>, m: Mention)
    ensures TallyOf(id, ms + [m]) == if m.id == id then Counted(TallyOf(id, ms), m) else TallyOf(id, ms)
  {
    assert (ms + [m])[..|ms|] == ms;
  }

  function Plus(s: Tally, t: Tally): Tally {
    Tally(s.attempts + t.attempts, s.correct + t.correct,
          s.weighted + t.weighted, s.weightedCorrect + t.weightedCorrect)
  }

  lemma {:induction false} TallyJoined(id: string, ms: seq<Mention>, ns: seq<Mention>)
    ensures TallyOf(id, ms + ns) == Plus(TallyOf(id, ms), TallyOf(id, ns))
  {
    if ns == [] {
      assert ms + ns == ms;
    } else {
      var before, last := ns[..|ns| - 1], ns[|ns| - 1];
      TallyJoined(id, ms, before);
      assert ms + ns == (ms + before) + [last];
      TallyAppend(id, ms + before, last);
    }
  }

  ghost predicate NonNegative(ms: seq<Mention>) {
    forall i :: 0 <= i < |ms| ==> ms[i].weight >= 0.0
  }

  /** Right answers are some of the answers, in number and, for weights that are not negative, in weight. */
  lemma {:induction false} TallyBounds(id: string, ms: seq<Mention>)
    ensures TallyOf(id, ms).correct <= TallyOf(id, ms).attempts
    ensures TallyOf(id, ms).attempts > 0 <==> id in IDs(ms)
    ensures id !in IDs(ms) ==> TallyOf(id, ms) == EMPTY_TALLY
    ensures NonNegative(ms) ==> 0.0 <= TallyOf(id, ms).weightedCorrect <= TallyOf(id, ms).weighted
  {
    if ms != [] {
      var before, last := ms[..|ms| - 1], ms[|ms| - 1];
      assert ms == before + [last];
      IDsAppend(before, last);
      TallyBounds(id, before);
    }
  }

  lemma {:induction false} TopicWeightsPositive(attempts: seq<Attempt>)
    ensures forall m :: m in Mentions(Topics, attempts) ==> m.weight >= 1.0
  {
    if attempts != [] {
      TopicWeightsPositive(attempts[..|attempts| - 1]);
    }
  }

  lemma {:induction false} TopicTallyPositive(id: string, ms: seq<Mention>)
    requires forall m :: m in ms ==> m.weight >= 1.0
    ensures id in IDs(ms) ==> TallyOf(id, ms).weighted >= 1.0
    ensures TallyOf(id, ms).weighted >= 0.0
  {
    if ms != [] {
      var before, last := ms[..|ms| - 1], ms[|ms| - 1];
      assert ms == before + [last] && last in ms;
      IDsAppend(before, last);
      TopicTallyPositive(id, before);
    }
  }
}
