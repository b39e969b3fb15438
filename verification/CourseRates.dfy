/**
 Ratings per user and topic, and masteries per user and tag, computed over the mixed attempts of a course.
 They agree with the profile of each user's own attempts, except where the profile's mastery is out of date.
 */
module CourseRates {
  import opened MapLoops
  import opened StatDomain
  import ProfileFold

  datatype Agg = Agg(correct: real, attempts: real)

  type Rates = map<string, map<string, real>>

  function ByUser(items: seq<Attempt>, userID: string): seq<Attempt> {
    if items == [] then []
    else
      var before, last := ByUser(items[..|items| - 1], userID), items[|items| - 1];
      if last.userID == userID then before + [last] else before
  }

  lemma {:induction false} ByUserAppend(items: seq<Attempt>, a: Attempt, userID: string)
    ensures ByUser(items + [a], userID) ==
      if a.userID == userID then ByUser(items, userID) + [a] else ByUser(items, userID)
  {
    assert (items + [a])[..|items|] == items;
  }

  function Users(items: seq<Attempt>): set<string> {
    set a | a in items :: a.userID
  }

  lemma {:induction false} UsersAppend(items: seq<Attempt>, a: Attempt)
    ensures Users(items + [a]) == Users(items) + {a.userID}
  {
    assert forall x :: x in items + [a] <==> x in items || x == a;
    assert a in items + [a];
  }

  lemma {:induction false} NoAttempts(items: seq<Attempt>, userID: string)
    requires userID !in Users(items)
    ensures ByUser(items, userID) == []
  {
    if items != [] {
      assert items == items[..|items| - 1] + [items[|items| - 1]];
      UsersAppend(items[..|items| - 1], items[|items| - 1]);
      NoAttempts(items[..|items| - 1], userID);
    }
  }

  // ---- What the two functions compute ----

  function AggOf(id: string, ms: seq<Mention>): Agg {
    Agg(TallyOf(id, ms).weightedCorrect, TallyOf(id, ms).weighted)
  }

  function Aggs(ms: seq<Mention>): map<string, Agg> {
    map id | id in IDs(ms) :: AggOf(id, ms)
  }

  function UserMentions(axis: Axis, items: seq<Attempt>, userID: string): seq<Mention> {
    Mentions(axis, ByUser(items, userID))
  }

  function RawEntries(axis: Axis, items: seq<Attempt>): string -> map<string, Agg> {
    userID => Aggs(UserMentions(axis, items, userID))
  }

  function RawOf(axis: Axis, items: seq<Attempt>): map<string, map<string, Agg>> {
    Table(Users(items), RawEntries(axis, items))
  }

  function Scale(axis: Axis): real {
    if axis.Topics? then 10.0 else 1.0
  }

  function RatesOf(scale: real, aggs: map<string, Agg>): map<string, real> {
    map id | id in aggs && aggs[id].attempts > 0.0 :: ProfileFold.Rate(scale, aggs[id].correct, aggs[id].attempts)
  }

  function RatesOfAll(scale: real, raw: map<string, map<string, Agg>>): Rates {
    map u | u in raw :: RatesOf(scale, raw[u])
  }

  /** For each user with an attempt: the scaled ratio of each id whose weighted attempts are positive. */
  function UserRates(axis: Axis, items: seq<Attempt>): Rates {
    RatesOfAll(Scale(axis), RawOf(axis, items))
  }

  /** A missing entry reads as 0. */
  function RateIn(rates: Rates, userID: string, id: string): real {
    if userID in rates && id in rates[userID] then rates[userID][id] else 0.0
  }

  // ---- The code ----

  lemma {:induction false} AggsStep(ms: seq<Mention>, m: Mention)
    ensures Aggs(ms + [m]) == Aggs(ms)[m.id := AggOf(m.id, ms + [m])]
  {
    IDsAppend(ms, m);
    forall id | id in IDs(ms) && id != m.id ensures AggOf(id, ms + [m]) == AggOf(id, ms) {
      TallyAppend(id, ms, m);
    }
  }

  lemma {:induction false} UserMentionsStep(axis: Axis, items: seq<Attempt>, a: Attempt, userID: string)
    ensures UserMentions(axis, items + [a], userID) ==
      if userID == a.userID then UserMentions(axis, items, userID) + MentionsIn(axis, a)
      else UserMentions(axis, items, userID)
  {
    ByUserAppend(items, a, userID);
    MentionsAppend(axis, ByUser(items, a.userID), a);
  }

  lemma {:induction false} RawEntriesStep(axis: Axis, items: seq<Attempt>, a: Attempt)
    ensures forall u :: u != a.userID ==> RawEntries(axis, items + [a])(u) == RawEntries(axis, items)(u)
    ensures RawEntries(axis, items + [a])(a.userID) == Aggs(UserMentions(axis, items, a.userID) + MentionsIn(axis, a))
  {
    forall u | u != a.userID ensures RawEntries(axis, items + [a])(u) == RawEntries(axis, items)(u) {
      RawEntryStep(axis, items, a, u);
    }
    RawEntryStep(axis, items, a, a.userID);
  }

  lemma {:induction false} RawEntryStep(axis: Axis, items: seq<Attempt>, a: Attempt, u: string)
    ensures RawEntries(axis, items + [a])(u) ==
      Aggs(if u == a.userID then UserMentions(axis, items, u) + MentionsIn(axis, a) else UserMentions(axis, items, u))
  {
    UserMentionsStep(axis, items, a, u);
  }

  lemma {:induction false} RawStep(axis: Axis, items: seq<Attempt>, a: Attempt, entry: map<string, Agg>)
    requires entry == Aggs(UserMentions(axis, items, a.userID) + MentionsIn(axis, a))
    ensures RawOf(axis, items + [a]) == RawOf(axis, items)[a.userID := entry]
  {
    UsersAppend(items, a);
    RawEntriesStep(axis, items, a);
    TableStep(Users(items), RawEntries(axis, items), RawEntries(axis, items + [a]), a.userID);
  }

  /** The entry counts from zero when the id is new. */
  method Count(perUser: map<string, Agg>, id: string, weight: real, correct: bool, ghost ms: seq<Mention>,
               ghost m: Mention)
    returns (r: map<string, Agg>)
    requires perUser == Aggs(ms) && m.id == id && m.weight == weight && m.correct == correct
    ensures r == Aggs(ms + [m])
  {
    TallyBounds(id, ms);
    TallyAppend(id, ms, m);
    AggsStep(ms, m);
    var entry := if id in perUser then perUser[id] else Agg(0.0, 0.0);
    entry := entry.(attempts := entry.attempts + weight);
    if correct {
      entry := entry.(correct := entry.correct + weight);
    }
    r := perUser[id := entry];
  }

  method CountTopics(attempt: Attempt, perUser: map<string, Agg>, ghost ms: seq<Mention>) returns (r: map<string, Agg>)
    requires perUser == Aggs(ms)
    ensures r == Aggs(ms + MentionsIn(Topics, attempt))
  {
    var weight := attempt.difficulty as real;
    if weight <= 0.0 {
      weight := 1.0;
    }
    r := perUser;
    ghost var more := MentionsIn(Topics, attempt);
    assert ms + more[..0] == ms;
    for j := 0 to |attempt.topicIDs|
      invariant r == Aggs(ms + more[..j])
    {
      assert ms + more[..j + 1] == ms + more[..j] + [more[j]];
      r := Count(r, attempt.topicIDs[j], weight, attempt.isCorrect, ms + more[..j], more[j]);
    }
    assert more[..|more|] == more;
  }

  method CountTags(attempt: Attempt, perUser: map<string, Agg>, ghost ms: seq<Mention>) returns (r: map<string, Agg>)
    requires perUser == Aggs(ms)
    ensures r == Aggs(ms + MentionsIn(Tags, attempt))
  {
    r := perUser;
    ghost var more := MentionsIn(Tags, attempt);
    assert ms + more[..0] == ms;
    for j := 0 to |attempt.tagScores|
      invariant r == Aggs(ms + more[..j])
    {
      assert ms + more[..j + 1] == ms + more[..j] + [more[j]];
      r := Count(r, attempt.tagScores[j].tagID, attempt.tagScores[j].weight, attempt.isCorrect,
                 ms + more[..j], more[j]);
    }
    assert more[..|more|] == more;
  }

  /** Ratios for one user, read off in any order of the map's keys. */
  method RatesForUser(scale: real, perUser: map<string, Agg>) returns (r: map<string, real>)
    ensures r == RatesOf(scale, perUser)
  {
    r := map[];
    var rest := perUser.Keys;
    while rest != {}
      invariant rest <= perUser.Keys
      invariant r == map id | id in perUser && id !in rest && perUser[id].attempts > 0.0 ::
        ProfileFold.Rate(scale, perUser[id].correct, perUser[id].attempts)
      decreases rest
    {
      var id :| id in rest;
      rest := rest - {id};
      var entry := perUser[id];
      if entry.attempts > 0.0 {
        r := r[id := ProfileFold.Rate(scale, entry.correct, entry.attempts)];
      }
    }
  }

  method RatesForAll(scale: real, raw: map<string, map<string, Agg>>) returns (out: Rates)
    ensures out == RatesOfAll(scale, raw)
  {
    out := map[];
    var rest := raw.Keys;
    while rest != {}
      invariant rest <= raw.Keys
      invariant out == map u | u in raw && u !in rest :: RatesOf(scale, raw[u])
      decreases rest
    {
      var u :| u in rest;
      rest := rest - {u};
      var perUser := RatesForUser(scale, raw[u]);
      out := out[u := perUser];
    }
  }

  method UserTopicRatings(items: seq<Attempt>) returns (out: Rates)
    ensures out == UserRates(Topics, items)
  {
    var raw: map<string, map<string, Agg>> := map[];
    for i := 0 to |items|
      invariant raw == RawOf(Topics, items[..i])
    {
      var attempt := items[i];
      assert items[..i + 1] == items[..i] + [attempt];
      var perUser := if attempt.userID in raw then raw[attempt.userID] else map[];
      StartEmpty(Topics, items[..i], attempt.userID);
      perUser := CountTopics(attempt, perUser, UserMentions(Topics, items[..i], attempt.userID));
      RawStep(Topics, items[..i], attempt, perUser);
      raw := raw[attempt.userID := perUser];
    }
    assert items[..|items|] == items;
    out := RatesForAll(10.0, raw);
  }

  method UserTagMasteries(items: seq<Attempt>) returns (out: Rates)
    ensures out == UserRates(Tags, items)
  {
    var raw: map<string, map<string, Agg>> := map[];
    for i := 0 to |items|
      invariant raw == RawOf(Tags, items[..i])
    {
      var attempt := items[i];
      assert items[..i + 1] == items[..i] + [attempt];
      var perUser := if attempt.userID in raw then raw[attempt.userID] else map[];
      StartEmpty(Tags, items[..i], attempt.userID);
      perUser := CountTags(attempt, perUser, UserMentions(Tags, items[..i], attempt.userID));
      RawStep(Tags, items[..i], attempt, perUser);
      raw := raw[attempt.userID := perUser];
    }
    assert items[..|items|] == items;
    out := RatesForAll(1.0, raw);
  }

  lemma {:induction false} StartEmpty(axis: Axis, items: seq<Attempt>, userID: string)
    ensures userID !in Users(items) ==> Aggs(UserMentions(axis, items, userID)) == map[]
  {
    if userID !in Users(items) {
      NoAttempts(items, userID);
    }
  }

  // ---- Agreement with the profile ----

  function RatingIn(profile: KnowledgeProfile, id: string): real {
    if id in profile.topics then profile.topics[id].rating else 0.0
  }

  function MasteryIn(profile: KnowledgeProfile, id: string): real {
    if id in profile.tags then profile.tags[id].mastery else 0.0
  }

  lemma {:induction false} RateIsRatio(axis: Axis, items: seq<Attempt>, userID: string, id: string)
    ensures var t := TallyOf(id, UserMentions(axis, items, userID));
      RateIn(UserRates(axis, items), userID, id) == ProfileFold.Rate(Scale(axis), t.weightedCorrect, t.weighted)
  {
    var ms := UserMentions(axis, items, userID);
    TallyBounds(id, ms);
    if userID !in Users(items) {
      NoAttempts(items, userID);
    }
  }

  lemma {:induction false} ProfileRating(userID: string, attempts: seq<Attempt>, id: string, now: Time)
    ensures var t := TallyOf(id, Mentions(Topics, attempts));
      RatingIn(ProfileFold.ProfileOf(userID, attempts, now), id)
        == ProfileFold.Rate(10.0, t.weightedCorrect, t.weighted)
  {
    TallyBounds(id, Mentions(Topics, attempts));
  }

  /** For any mixed list of attempts, each user's topic ratings are those of the profile of that user's attempts. */
  lemma {:induction false} RatingsAgreeWithProfile(items: seq<Attempt>, userID: string, id: string, now: Time)
    ensures RateIn(UserRates(Topics, items), userID, id)
         == RatingIn(ProfileFold.ProfileOf(userID, ByUser(items, userID), now), id)
  {
    RateIsRatio(Topics, items, userID, id);
    ProfileRating(userID, ByUser(items, userID), id, now);
  }

  lemma {:induction false} ProfileMastery(userID: string, attempts: seq<Attempt>, id: string, now: Time)
    ensures MasteryIn(ProfileFold.ProfileOf(userID, attempts, now), id)
         == ProfileFold.Mastery(id, Mentions(Tags, attempts))
  {
    ProfileFold.NoMasteryYet(id, Mentions(Tags, attempts));
  }

  lemma {:induction false} TagRateIsRatio(items: seq<Attempt>, userID: string, id: string)
    ensures var t := TallyOf(id, UserMentions(Tags, items, userID));
      RateIn(UserRates(Tags, items), userID, id) == ProfileFold.Ratio(t.weightedCorrect, t.weighted)
  {
    RateIsRatio(Tags, items, userID, id);
  }

  /** Tag masteries agree exactly when the profile's mastery is not out of date. */
  lemma {:induction false} MasteriesAgreeWithProfile(items: seq<Attempt>, userID: string, id: string, now: Time)
    ensures var ms := UserMentions(Tags, items, userID);
      RateIn(UserRates(Tags, items), userID, id)
        == MasteryIn(ProfileFold.ProfileOf(userID, ByUser(items, userID), now), id)
      <==> TallyOf(id, ms).weighted > 0.0 || TallyOf(id, ms[..ProfileFold.LastPositive(id, ms)]).weightedCorrect == 0.0
  {
    TagRateIsRatio(items, userID, id);
    ProfileMastery(userID, ByUser(items, userID), id, now);
    ProfileFold.MasteryIsBatchRatio(id, UserMentions(Tags, items, userID));
  }

  lemma {:induction false} NonNegativeMasteriesAgree(items: seq<Attempt>, userID: string, id: string, now: Time)
    requires NonNegative(UserMentions(Tags, items, userID))
    ensures RateIn(UserRates(Tags, items), userID, id)
         == MasteryIn(ProfileFold.ProfileOf(userID, ByUser(items, userID), now), id)
  {
    TagRateIsRatio(items, userID, id);
    ProfileMastery(userID, ByUser(items, userID), id, now);
    ProfileFold.NonNegativeMasteryIsBatchRatio(id, UserMentions(Tags, items, userID));
  }
}
