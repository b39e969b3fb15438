/** What the statistic service caches: the keys, the values, and how each value is computed from the attempt log. */
module CacheModel {
  import opened StatDomain
  import opened CourseRates
  import ProfileFold
  import Calibration

  datatype Query = ForProfile(userID: string) | ForCalibration(courseID: string)

  datatype Entry = ProfileEntry(profile: KnowledgeProfile) | CalibrationEntry(calibration: CourseCalibration)

  const PROFILE_PREFIX: string := "profile:"
  const CALIBRATION_PREFIX: string := "course-calibration:"

  function ProfileKey(userID: string): string { PROFILE_PREFIX + userID }

  function CalibrationKey(courseID: string): string { CALIBRATION_PREFIX + courseID }

  function Key(q: Query): string {
    match q
    case ForProfile(userID) => ProfileKey(userID)
    case ForCalibration(courseID) => CalibrationKey(courseID)
  }

  /** Both reads reject an empty id. */
  predicate Named(q: Query) {
    match q
    case ForProfile(userID) => userID != ""
    case ForCalibration(courseID) => courseID != ""
  }

  function ByCourse(log: seq<Attempt>, courseID: string): seq<Attempt> {
    if log == [] then []
    else
      var before, last := ByCourse(log[..|log| - 1], courseID), log[|log| - 1];
      if last.courseID == courseID then before + [last] else before
  }

  lemma {:induction false} ByCourseAppend(log: seq<Attempt>, a: Attempt, courseID: string)
    ensures ByCourse(log + [a], courseID) ==
      if a.courseID == courseID then ByCourse(log, courseID) + [a] else ByCourse(log, courseID)
  {
    assert (log + [a])[..|log|] == log;
  }

  /** The value recomputed from a log. */
  ghost function Compute(q: Query, log: seq<Attempt>, now: Time): Entry {
    match q
    case ForProfile(userID) => ProfileEntry(ProfileFold.ProfileOf(userID, ByUser(log, userID), now))
    case ForCalibration(courseID) =>
      CalibrationEntry(Calibration.CalibrationOf(courseID, ByCourse(log, courseID), now))
  }

  function UpdatedAt(e: Entry): Time {
    match e
    case ProfileEntry(profile) => profile.updatedAt
    case CalibrationEntry(calibration) => calibration.updatedAt
  }

  /** `e` is what recomputing the query from `log` gives, apart from the moment of computation. */
  ghost predicate Reflects(e: Entry, q: Query, log: seq<Attempt>) {
    e == Compute(q, log, UpdatedAt(e))
  }

  lemma {:induction false} ComputedReflects(q: Query, log: seq<Attempt>, now: Time)
    ensures Reflects(Compute(q, log, now), q, log)
  {
  }

  /** The keys an attempt invalidates. */
  function KeysOf(a: Attempt): set<string> {
    (if a.userID != "" then {ProfileKey(a.userID)} else {}) +
    (if a.courseID != "" then {CalibrationKey(a.courseID)} else {})
  }

  lemma {:induction false} KeysAreDistinct(q: Query, r: Query)
    ensures Key(q) == Key(r) <==> q == r
  {
    match (q, r)
    case (ForProfile(u), ForProfile(v)) =>
      assert ProfileKey(u)[|PROFILE_PREFIX|..] == u && ProfileKey(v)[|PROFILE_PREFIX|..] == v;
    case (ForCalibration(c), ForCalibration(d)) =>
      assert CalibrationKey(c)[|CALIBRATION_PREFIX|..] == c && CalibrationKey(d)[|CALIBRATION_PREFIX|..] == d;
    case (ForProfile(u), ForCalibration(c)) =>
      assert ProfileKey(u)[0] == 'p' && CalibrationKey(c)[0] == 'c';
    case (ForCalibration(c), ForProfile(u)) =>
      assert ProfileKey(u)[0] == 'p' && CalibrationKey(c)[0] == 'c';
  }

  /** A new attempt can change only the values under the keys it invalidates. */
  lemma {:induction false} UntouchedByAppend(q: Query, log: seq<Attempt>, a: Attempt, now: Time)
    requires Named(q) && Key(q) !in KeysOf(a)
    ensures Compute(q, log + [a], now) == Compute(q, log, now)
  {
    match q
    case ForProfile(userID) =>
      ByUserAppend(log, a, userID);
    case ForCalibration(courseID) =>
      ByCourseAppend(log, a, courseID);
  }

  // ---- A new attempt does change them ----

  /** How many attempts at topic or task `x` a value accounts for. */
  function Evidence(e: Entry, x: string): nat {
    match e
    case ProfileEntry(profile) => if x in profile.topics then profile.topics[x].attempts else 0
    case CalibrationEntry(calibration) =>
      if x in calibration.taskCalibrations then calibration.taskCalibrations[x].attemptCount else 0
  }

  function EvidenceIn(q: Query, log: seq<Attempt>, x: string): nat {
    match q
    case ForProfile(userID) => TallyOf(x, Mentions(Topics, ByUser(log, userID))).attempts
    case ForCalibration(courseID) => if x == "" then 0 else |Calibration.Bucket(ByCourse(log, courseID), x)|
  }

  lemma {:induction false} EvidenceShows(q: Query, log: seq<Attempt>, now: Time, x: string)
    ensures Evidence(Compute(q, log, now), x) == EvidenceIn(q, log, x)
  {
    match q
    case ForProfile(userID) => TallyBounds(x, Mentions(Topics, ByUser(log, userID)));
    case ForCalibration(courseID) => Calibration.BucketNonEmpty(ByCourse(log, courseID), x);
  }

  /** The attempt names what the query counts: a topic for profiles, a task for calibrations. */
  predicate Counts(q: Query, a: Attempt) {
    match q
    case ForProfile(_) => a.topicIDs != []
    case ForCalibration(_) => a.contentID != ""
  }

  function Subject(q: Query, a: Attempt): string
    requires Counts(q, a)
  {
    match q
    case ForProfile(_) => a.topicIDs[0]
    case ForCalibration(_) => a.contentID
  }

  /** What the attempt's weights of a tag add up to. */
  function TagWeight(a: Attempt, x: string): real {
    TallyOf(x, MentionsIn(Tags, a)).weighted
  }

  /** A profile also feels tags whose weights do not cancel. */
  ghost predicate Tells(q: Query, a: Attempt) {
    Counts(q, a) || (q.ForProfile? && exists x :: TagWeight(a, x) != 0.0)
  }

  /** `a` belongs to the user or course of the query, and tells it something. */
  ghost predicate Concerns(a: Attempt, q: Query) {
    Named(q) && Key(q) in KeysOf(a) && Tells(q, a)
  }

  lemma {:induction false} KeysNameQueries(q: Query, a: Attempt)
    requires Named(q)
    ensures Key(q) in KeysOf(a) <==> q == ForProfile(a.userID) || q == ForCalibration(a.courseID)
  {
    KeysAreDistinct(q, ForProfile(a.userID));
    KeysAreDistinct(q, ForCalibration(a.courseID));
  }

  lemma {:induction false} FirstTopicCounts(a: Attempt)
    requires a.topicIDs != []
    ensures TallyOf(a.topicIDs[0], MentionsIn(Topics, a)).attempts > 0
  {
    var ms := MentionsIn(Topics, a);
    assert ms[0] in ms && ms[0].id == a.topicIDs[0];
    TallyBounds(a.topicIDs[0], ms);
  }

  /** Evidence is never lost, and an attempt that concerns the query adds to it. */
  lemma {:induction false} EvidenceGrows(q: Query, log: seq<Attempt>, a: Attempt, x: string)
    ensures EvidenceIn(q, log + [a], x) >= EvidenceIn(q, log, x)
    ensures Named(q) && Key(q) in KeysOf(a) && Counts(q, a) && x == Subject(q, a) ==>
      EvidenceIn(q, log + [a], x) > EvidenceIn(q, log, x)
  {
    if Named(q) { KeysNameQueries(q, a); }
    match q
    case ForProfile(userID) =>
      var before := ByUser(log, userID);
      ByUserAppend(log, a, userID);
      MentionsAppend(Topics, before, a);
      TallyJoined(x, Mentions(Topics, before), MentionsIn(Topics, a));
      if a.topicIDs != [] { FirstTopicCounts(a); }
    case ForCalibration(courseID) =>
      ByCourseAppend(log, a, courseID);
      Calibration.BucketAppend(ByCourse(log, courseID), a, x);
  }

  /** The weighted attempts at tag `x` that a value shows. */
  function WeightShown(e: Entry, x: string): real {
    if e.ProfileEntry? && x in e.profile.tags then e.profile.tags[x].weightedAttempts else 0.0
  }

  function WeightIn(userID: string, log: seq<Attempt>, x: string): real {
    TallyOf(x, Mentions(Tags, ByUser(log, userID))).weighted
  }

  lemma {:induction false} WeightShows(userID: string, log: seq<Attempt>, now: Time, x: string)
    ensures WeightShown(Compute(ForProfile(userID), log, now), x) == WeightIn(userID, log, x)
  {
    TallyBounds(x, Mentions(Tags, ByUser(log, userID)));
  }

  lemma {:induction false} WeightAdds(userID: string, log: seq<Attempt>, a: Attempt, x: string)
    ensures WeightIn(userID, log + [a], x) ==
      WeightIn(userID, log, x) + if a.userID == userID then TagWeight(a, x) else 0.0
  {
    ByUserAppend(log, a, userID);
    MentionsAppend(Tags, ByUser(log, userID), a);
    TallyJoined(x, Mentions(Tags, ByUser(log, userID)), MentionsIn(Tags, a));
  }

  lemma {:induction false} ChangedByCount(q: Query, log: seq<Attempt>, a: Attempt, now: Time, later: Time)
    requires Named(q) && Key(q) in KeysOf(a) && Counts(q, a)
    ensures Compute(q, log + [a], later) != Compute(q, log, now)
  {
    var x := Subject(q, a);
    EvidenceGrows(q, log, a, x);
    EvidenceShows(q, log, now, x);
    EvidenceShows(q, log + [a], later, x);
  }

  lemma {:induction false} ChangedByWeight(log: seq<Attempt>, a: Attempt, x: string, now: Time, later: Time)
    requires TagWeight(a, x) != 0.0
    ensures Compute(ForProfile(a.userID), log + [a], later) != Compute(ForProfile(a.userID), log, now)
  {
    WeightAdds(a.userID, log, a, x);
    WeightShows(a.userID, log, now, x);
    WeightShows(a.userID, log + [a], later, x);
  }

  /** A new attempt changes the value of every query it concerns, whatever the times of computation. */
  lemma {:induction false} ChangedByAppend(q: Query, log: seq<Attempt>, a: Attempt, now: Time, later: Time)
    requires Concerns(a, q)
    ensures Compute(q, log + [a], later) != Compute(q, log, now)
  {
    if Counts(q, a) {
      ChangedByCount(q, log, a, now, later);
    } else {
      var x :| TagWeight(a, x) != 0.0;
      KeysNameQueries(q, a);
      ChangedByWeight(log, a, x, now, later);
    }
  }

  /** For an attempt that tells them something, the keys it invalidates are exactly those of the values it changes. */
  lemma {:induction false} KeysAreExact(q: Query, log: seq<Attempt>, a: Attempt, now: Time)
    requires Named(q) && Tells(q, a)
    ensures Key(q) in KeysOf(a) <==> Compute(q, log + [a], now) != Compute(q, log, now)
  {
    if Key(q) in KeysOf(a) {
      ChangedByAppend(q, log, a, now, now);
    } else {
      UntouchedByAppend(q, log, a, now);
    }
  }

  lemma {:induction false} EvidenceSince(q: Query, log: seq<Attempt>, n: nat, x: string)
    requires n <= |log|
    ensures EvidenceIn(q, log, x) >= EvidenceIn(q, log[..n], x)
    decreases |log|
  {
    if n < |log| {
      var before, last := log[..|log| - 1], log[|log| - 1];
      EvidenceSince(q, before, n, x);
      assert before[..n] == log[..n] && log == before + [last];
      EvidenceGrows(q, before, last, x);
    } else {
      assert log[..n] == log;
    }
  }

  lemma {:induction false} ChangedSinceCount(q: Query, log: seq<Attempt>, n: nat, i: nat, now: Time, later: Time)
    requires n <= i < |log| && Named(q) && Key(q) in KeysOf(log[i]) && Counts(q, log[i])
    ensures Compute(q, log, later) != Compute(q, log[..n], now)
  {
    var x := Subject(q, log[i]);
    assert log[..i + 1] == log[..i] + [log[i]] && log[..i][..n] == log[..n];
    EvidenceSince(q, log[..i], n, x);
    EvidenceGrows(q, log[..i], log[i], x);
    EvidenceSince(q, log, i + 1, x);
    EvidenceShows(q, log[..n], now, x);
    EvidenceShows(q, log, later, x);
  }

  // ---- Tags whose weights are never negative ----

  ghost predicate NeverNegative(log: seq<Attempt>, x: string) {
    forall i :: 0 <= i < |log| ==> NotNegative(log[i], x)
  }

  ghost predicate NotNegative(a: Attempt, x: string) {
    forall j :: 0 <= j < |a.tagScores| && a.tagScores[j].tagID == x ==> a.tagScores[j].weight >= 0.0
  }

  lemma {:induction false} TallyNotNegative(x: string, ms: seq<Mention>)
    requires forall j :: 0 <= j < |ms| && ms[j].id == x ==> ms[j].weight >= 0.0
    ensures TallyOf(x, ms).weighted >= 0.0
  {
    if ms != [] {
      TallyNotNegative(x, ms[..|ms| - 1]);
    }
  }

  lemma {:induction false} WeightSince(userID: string, log: seq<Attempt>, n: nat, x: string)
    requires n <= |log| && NeverNegative(log, x)
    ensures WeightIn(userID, log, x) >= WeightIn(userID, log[..n], x)
    decreases |log|
  {
    if n < |log| {
      var before, last := log[..|log| - 1], log[|log| - 1];
      WeightSince(userID, before, n, x);
      assert before[..n] == log[..n] && log == before + [last];
      assert NotNegative(log[|log| - 1], x);
      TallyNotNegative(x, MentionsIn(Tags, last));
      WeightAdds(userID, before, last, x);
    } else {
      assert log[..n] == log;
    }
  }

  lemma {:induction false} ChangedSinceWeight(log: seq<Attempt>, n: nat, i: nat, x: string, now: Time, later: Time)
    requires n <= i < |log| && TagWeight(log[i], x) > 0.0 && NeverNegative(log, x)
    ensures Compute(ForProfile(log[i].userID), log, later) != Compute(ForProfile(log[i].userID), log[..n], now)
  {
    var u := log[i].userID;
    assert log[..i + 1] == log[..i] + [log[i]] && log[..i][..n] == log[..n];
    WeightSince(u, log[..i], n, x);
    WeightAdds(u, log[..i], log[i], x);
    WeightSince(u, log, i + 1, x);
    WeightShows(u, log[..n], now, x);
    WeightShows(u, log, later, x);
  }

  /** Whatever follows, attempt i of the log leaves its mark: on a topic's count, or on a tag's growing weight. */
  ghost predicate Marks(log: seq<Attempt>, i: nat, q: Query)
    requires i < |log|
  {
    Counts(q, log[i]) || (q.ForProfile? && exists x :: TagWeight(log[i], x) > 0.0 && NeverNegative(log, x))
  }

  /** A value from before an attempt that marks its query is out of date ever after. */
  lemma {:induction false} ChangedSince(q: Query, log: seq<Attempt>, n: nat, i: nat, now: Time, later: Time)
    requires n <= i < |log| && Named(q) && Key(q) in KeysOf(log[i]) && Marks(log, i, q)
    ensures Compute(q, log, later) != Compute(q, log[..n], now)
  {
    if Counts(q, log[i]) {
      ChangedSinceCount(q, log, n, i, now, later);
    } else {
      var x :| TagWeight(log[i], x) > 0.0 && NeverNegative(log, x);
      KeysNameQueries(q, log[i]);
      ChangedSinceWeight(log, n, i, x, now, later);
    }
  }
}
