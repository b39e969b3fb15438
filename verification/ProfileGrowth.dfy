/** How a profile grows: what each mention of a topic or tag, and so each attempt, adds to its statistics. */
module ProfileGrowth {
  import opened Reals
  import opened Sequences
  import opened StatDomain
  import opened ProfileFold

  /** What an attempt mentions: its topics with its difficulty, or 1 if that is not positive; its tags as weighed. */
  lemma {:induction false} MentionsGrow(attempts: seq<Attempt>, a: Attempt)
    ensures Mentions(Topics, []) == [] && Mentions(Tags, []) == []
    ensures Mentions(Topics, attempts + [a]) == Mentions(Topics, attempts) + MentionsIn(Topics, a)
    ensures Mentions(Tags, attempts + [a]) == Mentions(Tags, attempts) + MentionsIn(Tags, a)
    ensures |MentionsIn(Topics, a)| == |a.topicIDs| && |MentionsIn(Tags, a)| == |a.tagScores|
    ensures forall j :: 0 <= j < |a.topicIDs| ==>
      MentionsIn(Topics, a)[j] ==
        Mention(a.topicIDs[j], if a.difficulty > 0 then a.difficulty as real else 1.0, a.isCorrect, "", "", "")
    ensures forall j :: 0 <= j < |a.tagScores| ==>
      var tag := a.tagScores[j];
      MentionsIn(Tags, a)[j] == Mention(tag.tagID, tag.weight, a.isCorrect, tag.code, tag.name, tag.kind)
  {
    MentionsAppend(Topics, attempts, a);
    MentionsAppend(Tags, attempts, a);
  }

  // ---- One mention ----

  function TopicBefore(stats: map<string, TopicStat>, id: string): TopicStat {
    if id in stats then stats[id] else NO_TOPIC
  }

  /** A mention counts 1, and its weight, once for the attempts and again for the right ones if it is right. */
  lemma {:induction false} TopicMentioned(userID: string, ms: seq<Mention>, m: Mention, now: Time)
    ensures var before, after := TopicStats(userID, ms, now), TopicStats(userID, ms + [m], now);
      var old', stat := TopicBefore(before, m.id), TopicBefore(after, m.id);
      && after.Keys == before.Keys + {m.id} && (forall id :: id in before && id != m.id ==> after[id] == before[id])
      && stat.userID == userID && stat.topicID == m.id && stat.updatedAt == now
      && stat.attempts == old'.attempts + 1 && stat.weightedAttempts == old'.weightedAttempts + m.weight
      && stat.correct == old'.correct + (if m.correct then 1 else 0)
      && stat.weightedCorrect == old'.weightedCorrect + (if m.correct then m.weight else 0.0)
  {
    IDsAppend(ms, m);
    TallyBounds(m.id, ms);
    forall id ensures TallyOf(id, ms + [m]) == if m.id == id then Counted(TallyOf(id, ms), m) else TallyOf(id, ms) {
      TallyAppend(id, ms, m);
    }
  }

  function TagBefore(stats: map<string, TagStat>, id: string): TagStat {
    if id in stats then stats[id] else NO_TAG
  }

  /** The same for tags; the labels are those of the mention, the mastery is the new ratio or stays as it was. */
  lemma {:induction false} TagMentioned(userID: string, ms: seq<Mention>, m: Mention, now: Time)
    ensures var before, after := TagStats(userID, ms, now), TagStats(userID, ms + [m], now);
      var old', stat := TagBefore(before, m.id), TagBefore(after, m.id);
      && after.Keys == before.Keys + {m.id} && (forall id :: id in before && id != m.id ==> after[id] == before[id])
      && stat.userID == userID && stat.tagID == m.id && stat.updatedAt == now
      && stat.code == m.code && stat.name == m.name && stat.kind == m.kind
      && stat.weightedAttempts == old'.weightedAttempts + m.weight
      && stat.weightedCorrect == old'.weightedCorrect + (if m.correct then m.weight else 0.0)
      && (stat.weightedAttempts > 0.0 ==> stat.mastery == stat.weightedCorrect / stat.weightedAttempts)
      && (stat.weightedAttempts <= 0.0 ==> stat.mastery == old'.mastery)
  {
    IDsAppend(ms, m);
    LastOf(ms, m);
    TallyBounds(m.id, ms);
    NoMasteryYet(m.id, ms);
    forall id ensures TallyOf(id, ms + [m]) == if m.id == id then Counted(TallyOf(id, ms), m) else TallyOf(id, ms) {
      TallyAppend(id, ms, m);
    }
  }

  // ---- One attempt ----

  function Named(a: Attempt, id: string): nat {
    multiset(a.topicIDs)[id]
  }

  lemma {:induction false} TopicsTally(a: Attempt, id: string, n: nat)
    requires n <= |a.topicIDs|
    ensures var k := multiset(a.topicIDs[..n])[id];
      var w := if a.difficulty > 0 then a.difficulty as real else 1.0;
      TallyOf(id, MentionsIn(Topics, a)[..n]) ==
        Tally(k, if a.isCorrect then k else 0, Times(w, k), if a.isCorrect then Times(w, k) else 0.0)
  {
    if n > 0 {
      var ms := MentionsIn(Topics, a);
      TopicsTally(a, id, n - 1);
      PrefixPlusOne(ms, n - 1);
      PrefixPlusOne(a.topicIDs, n - 1);
      TallyAppend(id, ms[..n - 1], ms[n - 1]);
    }
  }

  /**
   One more attempt adds to each topic as many attempts as it names it, each with its difficulty (or 1): so the weighted
   attempts of a topic are the difficulties of the attempts at it, added up.
   */
  lemma {:induction false} TopicGrows(userID: string, attempts: seq<Attempt>, a: Attempt, id: string, now: Time)
    ensures var before, after := ProfileOf(userID, attempts, now).topics, ProfileOf(userID, attempts + [a], now).topics;
      var old', stat := TopicBefore(before, id), TopicBefore(after, id);
      var k, w := Named(a, id), if a.difficulty > 0 then a.difficulty as real else 1.0;
      && stat.attempts == old'.attempts + k && stat.weightedAttempts == old'.weightedAttempts + Times(w, k)
      && stat.correct == old'.correct + (if a.isCorrect then k else 0)
      && stat.weightedCorrect == old'.weightedCorrect + (if a.isCorrect then Times(w, k) else 0.0)
  {
    var ms, more := Mentions(Topics, attempts), MentionsIn(Topics, a);
    MentionsAppend(Topics, attempts, a);
    TallyJoined(id, ms, more);
    TopicsTally(a, id, |a.topicIDs|);
    assert more[..|more|] == more && a.topicIDs[..|a.topicIDs|] == a.topicIDs;
    StatShowsTally(userID, ms, id, now);
    StatShowsTally(userID, ms + more, id, now);
  }

  lemma {:induction false} StatShowsTally(userID: string, ms: seq<Mention>, id: string, now: Time)
    ensures var stat, t := TopicBefore(TopicStats(userID, ms, now), id), TallyOf(id, ms);
      && stat.attempts == t.attempts && stat.correct == t.correct
      && stat.weightedAttempts == t.weighted && stat.weightedCorrect == t.weightedCorrect
  {
    TallyBounds(id, ms);
  }

  /** Accuracy is the share of right attempts. */
  lemma {:induction false} AccuracyIsShare(userID: string, attempts: seq<Attempt>, id: string, now: Time)
    requires id in ProfileOf(userID, attempts, now).topics
    ensures var stat := ProfileOf(userID, attempts, now).topics[id];
      stat.attempts >= 1 && stat.accuracy == stat.correct as real / stat.attempts as real
  {
    TallyBounds(id, Mentions(Topics, attempts));
  }

  /** A profile is of its user and moment, and has an entry for exactly the topics and tags named. */
  lemma {:induction false} ProfileHas(userID: string, attempts: seq<Attempt>, now: Time, id: string)
    ensures ProfileOf(userID, attempts, now).userID == userID && ProfileOf(userID, attempts, now).updatedAt == now
    ensures id in ProfileOf(userID, attempts, now).topics <==> exists m :: m in Mentions(Topics, attempts) && m.id == id
    ensures id in ProfileOf(userID, attempts, now).tags <==> exists m :: m in Mentions(Tags, attempts) && m.id == id
  {
  }
}
