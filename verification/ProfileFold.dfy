/**
 The repository's knowledge profile: a fold that updates one topic or tag entry per mention. `ProfileOf` says
 what it amounts to in terms of batch sums. Ratings and accuracies are always the batch ratios; a mastery is
 recomputed only while the weighted attempts are positive, so with negative tag weights it can be out of date.
 */
module ProfileFold {
  import opened Reals
  import opened Permutations
  import opened Sequences
  import opened StatDomain

  function Ratio(part: real, whole: real): real {
    if whole > 0.0 then part / whole else 0.0
  }

  /** A ratio on a scale, such as a rating out of 10. */
  function Rate(scale: real, part: real, whole: real): real {
    if whole > 0.0 then scale * part / whole else 0.0
  }

  // ---- The profile in terms of batch sums ----

  function TopicStatFrom(userID: string, id: string, t: Tally, now: Time): TopicStat
    requires t.attempts > 0
  {
    TopicStat(userID, id, t.attempts, t.correct, t.weighted, t.weightedCorrect,
              t.correct as real / t.attempts as real, Rate(10.0, t.weightedCorrect, t.weighted), now)
  }

  function TopicStatOf(userID: string, id: string, ms: seq<Mention>, now: Time): TopicStat
    requires id in IDs(ms)
  {
    TallyBounds(id, ms);
    TopicStatFrom(userID, id, TallyOf(id, ms), now)
  }

  function LastMention(id: string, ms: seq<Mention>): (m: Mention)
    requires id in IDs(ms)
    ensures m in ms && m.id == id
  {
    var last, before := ms[|ms| - 1], ms[..|ms| - 1];
    if last.id == id then last else
      assert ms == before + [last];
      IDsAppend(before, last);
      LastMention(id, before)
  }

  /** The ratio at the last mention that left the weighted attempts positive; 0 before there is one. */
  function Mastery(id: string, ms: seq<Mention>): real {
    if ms == [] then 0.0
    else
      var last, before := ms[|ms| - 1], ms[..|ms| - 1];
      var t := TallyOf(id, ms);
      if last.id == id && t.weighted > 0.0 then t.weightedCorrect / t.weighted else Mastery(id, before)
  }

  function TagStatOf(userID: string, id: string, ms: seq<Mention>, now: Time): TagStat
    requires id in IDs(ms)
  {
    var t, m := TallyOf(id, ms), LastMention(id, ms);
    TagStat(userID, id, m.code, m.name, m.kind, t.weighted, t.weightedCorrect, Mastery(id, ms), now)
  }

  function TopicStats(userID: string, ms: seq<Mention>, now: Time): map<string, TopicStat> {
    map id | id in IDs(ms) :: TopicStatOf(userID, id, ms, now)
  }

  function TagStats(userID: string, ms: seq<Mention>, now: Time): map<string, TagStat> {
    map id | id in IDs(ms) :: TagStatOf(userID, id, ms, now)
  }

  function ProfileOf(userID: string, attempts: seq<Attempt>, now: Time): KnowledgeProfile {
    KnowledgeProfile(userID, TopicStats(userID, Mentions(Topics, attempts), now),
                     TagStats(userID, Mentions(Tags, attempts), now), now)
  }

  // ---- The fold ----

  const NO_TOPIC: TopicStat := TopicStat("", "", 0, 0, 0.0, 0.0, 0.0, 0.0, 0)
  const NO_TAG: TagStat := TagStat("", "", "", "", "", 0.0, 0.0, 0.0, 0)

  /** The entry holds the tally of the topic; one more mention is counted into it. */
  method CountTopic(given: TopicStat, userID: string, topicID: string, weight: real, correct: bool, now: Time,
                    ghost t: Tally, ghost m: Mention) returns (stat: TopicStat)
    requires weight >= 1.0 && m.weight == weight && m.correct == correct && t.weighted >= 0.0
    requires given.attempts == t.attempts && given.correct == t.correct
    requires given.weightedAttempts == t.weighted && given.weightedCorrect == t.weightedCorrect
    ensures stat == TopicStatFrom(userID, topicID, Counted(t, m), now)
  {
    stat := given.(userID := userID, topicID := topicID, attempts := given.attempts + 1,
                   weightedAttempts := given.weightedAttempts + weight);
    if correct {
      stat := stat.(correct := stat.correct + 1, weightedCorrect := stat.weightedCorrect + weight);
    }
    stat := stat.(accuracy := stat.correct as real / stat.attempts as real);
    if stat.weightedAttempts > 0.0 {
      stat := stat.(rating := Rate(10.0, stat.weightedCorrect, stat.weightedAttempts));
    }
    stat := stat.(updatedAt := now);
  }

  method AddTopic(userID: string, now: Time, attempt: Attempt, i: nat, ghost done: seq<Mention>,
                  topics: map<string, TopicStat>) returns (r: map<string, TopicStat>)
    requires i < |attempt.topicIDs|
    requires forall m :: m in done ==> m.weight >= 1.0
    requires topics == TopicStats(userID, done, now)
    ensures r == TopicStats(userID, done + [MentionAt(Topics, attempt, i)], now)
  {
    var topicID, difficultyWeight := attempt.topicIDs[i], attempt.difficulty as real;
    if difficultyWeight <= 0.0 {
      difficultyWeight := 1.0;
    }
    ghost var m := MentionAt(Topics, attempt, i);
    TallyBounds(topicID, done);
    TopicTallyPositive(topicID, done);
    var stat := if topicID in topics then topics[topicID] else NO_TOPIC;
    stat := CountTopic(stat, userID, topicID, difficultyWeight, attempt.isCorrect, now, TallyOf(topicID, done), m);
    TallyAppend(topicID, done, m);
    r := topics[topicID := stat];
    AddTopicStep(userID, now, done, m, topics, stat);
  }

  lemma {:induction false} AddTopicStep(userID: string, now: Time, done: seq<Mention>, m: Mention,
                                        topics: map<string, TopicStat>, stat: TopicStat)
    requires m.weight >= 1.0 && forall d :: d in done ==> d.weight >= 1.0
    requires topics == TopicStats(userID, done, now)
    requires m.id in IDs(done + [m]) ==> stat == TopicStatOf(userID, m.id, done + [m], now)
    ensures topics[m.id := stat] == TopicStats(userID, done + [m], now)
  {
    IDsAppend(done, m);
    forall id | id in IDs(done) ensures TallyOf(id, done + [m]) ==
      if m.id == id then Counted(TallyOf(id, done), m) else TallyOf(id, done)
    {
      TallyAppend(id, done, m);
    }
  }

  /** The entry holds the tally of the tag; one more mention is counted into it. */
  method CountTag(given: TagStat, userID: string, score: TagScore, correct: bool, now: Time,
                  ghost t: Tally, ghost m: Mention) returns (stat: TagStat)
    requires m.weight == score.weight && m.correct == correct
    requires given.weightedAttempts == t.weighted && given.weightedCorrect == t.weightedCorrect
    ensures var t' := Counted(t, m);
      stat == TagStat(userID, score.tagID, score.code, score.name, score.kind, t'.weighted, t'.weightedCorrect,
                      if t'.weighted > 0.0 then t'.weightedCorrect / t'.weighted else given.mastery, now)
  {
    stat := given.(userID := userID, tagID := score.tagID, code := score.code, name := score.name, kind := score.kind);
    stat := stat.(weightedAttempts := stat.weightedAttempts + score.weight);
    if correct {
      stat := stat.(weightedCorrect := stat.weightedCorrect + score.weight);
    }
    if stat.weightedAttempts > 0.0 {
      stat := stat.(mastery := stat.weightedCorrect / stat.weightedAttempts);
    }
    stat := stat.(updatedAt := now);
  }

  method AddTag(userID: string, now: Time, attempt: Attempt, i: nat, ghost done: seq<Mention>,
                tags: map<string, TagStat>) returns (r: map<string, TagStat>)
    requires i < |attempt.tagScores|
    requires tags == TagStats(userID, done, now)
    ensures r == TagStats(userID, done + [MentionAt(Tags, attempt, i)], now)
  {
    var score := attempt.tagScores[i];
    ghost var m := MentionAt(Tags, attempt, i);
    TallyBounds(score.tagID, done);
    NoMasteryYet(score.tagID, done);
    var stat := if score.tagID in tags then tags[score.tagID] else NO_TAG;
    stat := CountTag(stat, userID, score, attempt.isCorrect, now, TallyOf(score.tagID, done), m);
    r := tags[score.tagID := stat];
    LastOf(done, m);
    TallyAppend(score.tagID, done, m);
    AddTagStep(userID, now, done, m, tags, stat);
  }

  lemma {:induction false} NoMasteryYet(id: string, ms: seq<Mention>)
    ensures id !in IDs(ms) ==> Mastery(id, ms) == 0.0
  {
    if ms != [] {
      var last, before := ms[|ms| - 1], ms[..|ms| - 1];
      assert ms == before + [last];
      IDsAppend(before, last);
      NoMasteryYet(id, before);
    }
  }

  lemma {:induction false} AddTagStep(userID: string, now: Time, done: seq<Mention>, m: Mention,
                                      tags: map<string, TagStat>, stat: TagStat)
    requires tags == TagStats(userID, done, now)
    requires m.id in IDs(done + [m]) ==> stat == TagStatOf(userID, m.id, done + [m], now)
    ensures tags[m.id := stat] == TagStats(userID, done + [m], now)
  {
    IDsAppend(done, m);
    assert (done + [m])[..|done|] == done;
    forall id | id in IDs(done) ensures TallyOf(id, done + [m]) ==
      if m.id == id then Counted(TallyOf(id, done), m) else TallyOf(id, done)
    {
      TallyAppend(id, done, m);
    }
  }

  method AddTopics(userID: string, now: Time, attempt: Attempt, ghost done: seq<Mention>,
                   topics: map<string, TopicStat>) returns (r: map<string, TopicStat>)
    requires forall m :: m in done ==> m.weight >= 1.0
    requires topics == TopicStats(userID, done, now)
    ensures r == TopicStats(userID, done + MentionsIn(Topics, attempt), now)
  {
    r := topics;
    ghost var new' := MentionsIn(Topics, attempt);
    assert done + new'[..0] == done;
    for j := 0 to |attempt.topicIDs|
      invariant r == TopicStats(userID, done + new'[..j], now)
    {
      assert done + new'[..j + 1] == done + new'[..j] + [MentionAt(Topics, attempt, j)];
      r := AddTopic(userID, now, attempt, j, done + new'[..j], r);
    }
    assert new'[..|attempt.topicIDs|] == new';
  }

  method AddTags(userID: string, now: Time, attempt: Attempt, ghost done: seq<Mention>,
                 tags: map<string, TagStat>) returns (r: map<string, TagStat>)
    requires tags == TagStats(userID, done, now)
    ensures r == TagStats(userID, done + MentionsIn(Tags, attempt), now)
  {
    r := tags;
    ghost var new' := MentionsIn(Tags, attempt);
    assert done + new'[..0] == done;
    for j := 0 to |attempt.tagScores|
      invariant r == TagStats(userID, done + new'[..j], now)
    {
      assert done + new'[..j + 1] == done + new'[..j] + [MentionAt(Tags, attempt, j)];
      r := AddTag(userID, now, attempt, j, done + new'[..j], r);
    }
    assert new'[..|attempt.tagScores|] == new';
  }

  method Profile(userID: string, attempts: seq<Attempt>, now: Time) returns (profile: KnowledgeProfile)
    ensures profile == ProfileOf(userID, attempts, now)
  {
    var topics: map<string, TopicStat>, tags: map<string, TagStat> := map[], map[];
    for i := 0 to |attempts|
      invariant topics == TopicStats(userID, Mentions(Topics, attempts[..i]), now)
      invariant tags == TagStats(userID, Mentions(Tags, attempts[..i]), now)
    {
      ghost var before := attempts[..i];
      assert attempts[..i + 1] == before + [attempts[i]];
      MentionsAppend(Topics, before, attempts[i]);
      MentionsAppend(Tags, before, attempts[i]);
      TopicWeightsPositive(before);
      topics := AddTopics(userID, now, attempts[i], Mentions(Topics, before), topics);
      tags := AddTags(userID, now, attempts[i], Mentions(Tags, before), tags);
    }
    assert attempts[..|attempts|] == attempts;
    return KnowledgeProfile(userID, topics, tags, now);
  }

  // ---- Bounds ----

  /** Accuracy lies between 0 and 1 and rating between 0 and 10, always. */
  lemma {:induction false} TopicStatBounds(userID: string, attempts: seq<Attempt>, id: string, now: Time)
    requires id in ProfileOf(userID, attempts, now).topics
    ensures var stat := ProfileOf(userID, attempts, now).topics[id];
      && 0.0 <= stat.accuracy <= 1.0 && 0.0 <= stat.rating <= 10.0
      && stat.rating * stat.weightedAttempts == 10.0 * stat.weightedCorrect
  {
    var ms := Mentions(Topics, attempts);
    var t := TallyOf(id, ms);
    TopicWeightsPositive(attempts);
    TopicTallyPositive(id, ms);
    TallyBounds(id, ms);
    ShareInUnit(t.correct as real, t.attempts as real);
    ShareInUnit(t.weightedCorrect, t.weighted);
    QuotientTimes(t.weightedCorrect, t.weighted);
    QuotientUnique(10.0 * t.weightedCorrect, t.weighted, 10.0 * (t.weightedCorrect / t.weighted));
  }

  /** For weights that are not negative, mastery lies between 0 and 1. */
  lemma {:induction false} MasteryBounds(id: string, ms: seq<Mention>)
    requires NonNegative(ms)
    ensures 0.0 <= Mastery(id, ms) <= 1.0
  {
    if ms != [] {
      MasteryBounds(id, ms[..|ms| - 1]);
      TallyBounds(id, ms);
      var t := TallyOf(id, ms);
      if t.weighted > 0.0 {
        ShareInUnit(t.weightedCorrect, t.weighted);
      }
    }
  }

  // ---- When mastery is the batch ratio ----

  /** How many mentions had been read when the id's weighted attempts were last positive. */
  function LastPositive(id: string, ms: seq<Mention>): (n: nat)
    ensures n <= |ms|
  {
    if ms == [] then 0
    else if ms[|ms| - 1].id == id && TallyOf(id, ms).weighted > 0.0 then |ms|
    else LastPositive(id, ms[..|ms| - 1])
  }

  lemma {:induction false} MasteryIsOldRatio(id: string, ms: seq<Mention>)
    ensures var n := LastPositive(id, ms);
      var t := TallyOf(id, ms[..n]);
      && (n > 0 ==> t.weighted > 0.0)
      && Mastery(id, ms) == Ratio(t.weightedCorrect, t.weighted)
  {
    if ms != [] {
      var before := ms[..|ms| - 1];
      MasteryIsOldRatio(id, before);
      assert before[..LastPositive(id, before)] == ms[..LastPositive(id, before)];
      assert ms[..|ms|] == ms;
    }
  }

  lemma {:induction false} PositiveTallyIsLast(id: string, ms: seq<Mention>)
    requires TallyOf(id, ms).weighted > 0.0
    ensures TallyOf(id, ms[..LastPositive(id, ms)]) == TallyOf(id, ms)
  {
    if ms[|ms| - 1].id != id {
      var before := ms[..|ms| - 1];
      PositiveTallyIsLast(id, before);
      assert before[..LastPositive(id, before)] == ms[..LastPositive(id, before)];
    } else {
      assert ms[..|ms|] == ms;
    }
  }

  /**
   Mastery is the batch ratio exactly when the weighted attempts end positive, or nothing had been
   credited when they last were.
   */
  lemma {:induction false} MasteryIsBatchRatio(id: string, ms: seq<Mention>)
    ensures Mastery(id, ms) == Ratio(TallyOf(id, ms).weightedCorrect, TallyOf(id, ms).weighted)
       <==> TallyOf(id, ms).weighted > 0.0 || TallyOf(id, ms[..LastPositive(id, ms)]).weightedCorrect == 0.0
  {
    var n := LastPositive(id, ms);
    var old', t := TallyOf(id, ms[..n]), TallyOf(id, ms);
    MasteryIsOldRatio(id, ms);
    if t.weighted > 0.0 {
      PositiveTallyIsLast(id, ms);
    } else if n > 0 {
      QuotientTimes(old'.weightedCorrect, old'.weighted);
    } else {
      assert ms[..0] == [];
    }
  }

  /** In particular for weights that are not negative. */
  lemma {:induction false} NonNegativeMasteryIsBatchRatio(id: string, ms: seq<Mention>)
    requires NonNegative(ms)
    ensures Mastery(id, ms) == Ratio(TallyOf(id, ms).weightedCorrect, TallyOf(id, ms).weighted)
  {
    if ms != [] {
      NonNegativeMasteryIsBatchRatio(id, ms[..|ms| - 1]);
      TallyBounds(id, ms[..|ms| - 1]);
      TallyBounds(id, ms);
    }
  }

  // ---- Reordering ----

  lemma {:induction false} TallyWithout(id: string, ms: seq<Mention>, k: nat)
    requires k < |ms|
    ensures TallyOf(id, ms) ==
      if ms[k].id == id then Counted(TallyOf(id, Without(ms, k)), ms[k]) else TallyOf(id, Without(ms, k))
  {
    var n := |ms| - 1;
    if k < n {
      TallyWithout(id, ms[..n], k);
      assert Without(ms, k) == Without(ms[..n], k) + [ms[n]];
      TallyAppend(id, Without(ms[..n], k), ms[n]);
    } else {
      assert Without(ms, k) == ms[..n];
    }
  }

  lemma {:induction false} TallyForgetsOrder(id: string, s: seq<Mention>, t: seq<Mention>)
    requires multiset(s) == multiset(t)
    ensures TallyOf(id, s) == TallyOf(id, t)
    decreases |s|
  {
    SameLength(s, t);
    if s != [] {
      var k := FindPartner(s, t);
      assert Without(s, 0) == s[1..];
      TallyWithout(id, s, 0);
      TallyWithout(id, t, k);
      TallyForgetsOrder(id, s[1..], Without(t, k));
    }
  }

  lemma {:induction false} WithoutLast(attempts: seq<Attempt>, k: nat)
    requires k < |attempts| - 1
    ensures Without(attempts, k) == Without(attempts[..|attempts| - 1], k) + [attempts[|attempts| - 1]]
  {
  }

  lemma {:induction false} MentionsWithout(axis: Axis, attempts: seq<Attempt>, k: nat)
    requires k < |attempts|
    ensures multiset(Mentions(axis, attempts))
         == multiset(Mentions(axis, Without(attempts, k))) + multiset(MentionsIn(axis, attempts[k]))
  {
    var n := |attempts| - 1;
    if k < n {
      MentionsWithout(axis, attempts[..n], k);
      WithoutLast(attempts, k);
      MentionsAppend(axis, Without(attempts[..n], k), attempts[n]);
    } else {
      assert Without(attempts, k) == attempts[..n];
    }
  }

  lemma {:induction false} MentionsForgetOrder(axis: Axis, s: seq<Attempt>, t: seq<Attempt>)
    requires multiset(s) == multiset(t)
    ensures multiset(Mentions(axis, s)) == multiset(Mentions(axis, t))
    decreases |s|
  {
    SameLength(s, t);
    if s != [] {
      var k := FindPartner(s, t);
      assert Without(s, 0) == s[1..];
      MentionsWithout(axis, s, 0);
      MentionsWithout(axis, t, k);
      MentionsForgetOrder(axis, s[1..], Without(t, k));
    }
  }

  lemma {:induction false} TopicStatForgetsOrder(userID: string, id: string, s: seq<Mention>, t: seq<Mention>,
                                                 now: Time)
    requires multiset(s) == multiset(t) && id in IDs(s)
    ensures id in IDs(t) && TopicStatOf(userID, id, s, now) == TopicStatOf(userID, id, t, now)
  {
    SameIDs(s, t);
    TallyForgetsOrder(id, s, t);
  }

  /** Topic statistics do not depend on the order of the attempts at all. */
  lemma {:induction false} TopicStatsForgetOrder(userID: string, s: seq<Attempt>, t: seq<Attempt>, now: Time)
    requires multiset(s) == multiset(t)
    ensures ProfileOf(userID, s, now).topics == ProfileOf(userID, t, now).topics
  {
    var ms, mt := Mentions(Topics, s), Mentions(Topics, t);
    MentionsForgetOrder(Topics, s, t);
    SameIDs(ms, mt);
    forall id | id in IDs(ms) ensures TopicStatOf(userID, id, ms, now) == TopicStatOf(userID, id, mt, now) {
      TopicStatForgetsOrder(userID, id, ms, mt, now);
    }
  }

  lemma {:induction false} SameIDs(s: seq<Mention>, t: seq<Mention>)
    requires multiset(s) == multiset(t)
    ensures IDs(s) == IDs(t)
  {
    assert forall m :: m in s <==> m in multiset(s);
    assert forall m :: m in t <==> m in multiset(t);
  }
}
