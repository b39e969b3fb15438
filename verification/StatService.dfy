/**
 The statistic service over its attempt log and cache, one complete operation at a time. Each method's effect is a
 function of the state before; the currency of the cache is proved of those functions, for every run.
 */
module StatService {
  import opened Outcomes
  import opened StatDomain
  import opened CourseRates
  import opened CacheModel
  import ProfileFold
  import Calibration

  datatype Metadata =
    | NoProvider
    | ResolveFailed(message: string)
    | Resolved(topicIDs: seq<string>, tagScores: seq<TagScore>, difficulty: int)

  /** What the outside world answers during one call. A service without a cache never gets or sets an entry. */
  datatype Environment = Environment(metadata: Metadata, repoError: Option<string>, cacheGets: bool, cacheSets: bool,
                                     cacheDeletes: bool, newID: string, now: Time)

  datatype Store = Store(log: seq<Attempt>, cache: map<string, Entry>)

  // ---- The operations as functions of the state ----

  function Completed(attempt: Attempt, env: Environment): Attempt {
    var sourced := if attempt.source == "" then attempt.(source := "practice") else attempt;
    var resolved :=
      match env.metadata
      case Resolved(topicIDs, tagScores, difficulty) =>
        sourced.(topicIDs := topicIDs, tagScores := tagScores, difficulty := difficulty)
      case _ => sourced;
    var rated := if resolved.difficulty <= 0 then resolved.(difficulty := 1) else resolved;
    rated.(id := env.newID, createdAt := env.now)
  }

  function Creation(attempt: Attempt, env: Environment): Result<Attempt> {
    if attempt.userID == "" || attempt.contentID == "" then Err("user_id and content_id are required")
    else if env.metadata.ResolveFailed? then Err(env.metadata.message)
    else if env.repoError.Some? then Err(env.repoError.value)
    else Ok(Completed(attempt, env))
  }

  function AfterCreate(st: Store, attempt: Attempt, env: Environment): Store {
    match Creation(attempt, env)
    case Err(_) => st
    case Ok(a) => Store(st.log + [a], if env.cacheDeletes then st.cache - KeysOf(a) else st.cache)
  }

  predicate Hit(st: Store, q: Query, env: Environment) {
    env.cacheGets && Key(q) in st.cache
  }

  ghost function AfterRead(st: Store, q: Query, env: Environment): Store {
    if !Named(q) || Hit(st, q, env) || env.repoError.Some? || !env.cacheSets then st
    else st.(cache := st.cache[Key(q) := Compute(q, st.log, env.now)])
  }

  function MissingID(q: Query): string {
    match q
    case ForProfile(_) => "user_id is required"
    case ForCalibration(_) => "course_id is required"
  }

  ghost function Answer(st: Store, q: Query, env: Environment): Result<Entry> {
    if !Named(q) then Err(MissingID(q))
    else if Hit(st, q, env) then Ok(st.cache[Key(q)])
    else if env.repoError.Some? then Err(env.repoError.value)
    else Ok(Compute(q, st.log, env.now))
  }

  /** Under a profile key there is a profile, under a calibration key a calibration, under the bare prefixes nothing. */
  ghost predicate WellKeyed(cache: map<string, Entry>) {
    && (forall u :: ProfileKey(u) in cache ==> u != "" && cache[ProfileKey(u)].ProfileEntry?)
    && (forall c :: CalibrationKey(c) in cache ==> c != "" && cache[CalibrationKey(c)].CalibrationEntry?)
  }

  lemma {:induction false} CreateKeepsKeys(st: Store, attempt: Attempt, env: Environment)
    requires WellKeyed(st.cache)
    ensures WellKeyed(AfterCreate(st, attempt, env).cache)
  {
  }

  lemma {:induction false} PutKeepsKeys(cache: map<string, Entry>, q: Query, e: Entry)
    requires WellKeyed(cache) && Named(q) && (q.ForProfile? <==> e.ProfileEntry?)
    ensures WellKeyed(cache[Key(q) := e])
  {
    forall u | ProfileKey(u) == Key(q) ensures q == ForProfile(u) {
      KeysAreDistinct(q, ForProfile(u));
    }
    forall c | CalibrationKey(c) == Key(q) ensures q == ForCalibration(c) {
      KeysAreDistinct(q, ForCalibration(c));
    }
  }

  lemma {:induction false} ReadKeepsKeys(st: Store, q: Query, env: Environment)
    requires WellKeyed(st.cache)
    ensures WellKeyed(AfterRead(st, q, env).cache)
  {
    if AfterRead(st, q, env) != st {
      PutKeepsKeys(st.cache, q, Compute(q, st.log, env.now));
    }
  }

  // ---- The service ----

  class StatisticService {
    var log: seq<Attempt>
    var cache: map<string, Entry>

    ghost predicate Valid()
      reads this
    {
      WellKeyed(cache)
    }

    ghost function State(): Store
      reads this
    {
      Store(log, cache)
    }

    constructor ()
      ensures Valid() && State() == Store([], map[])
    {
      log, cache := [], map[];
    }

    method CreateAttempt(given: Attempt, env: Environment) returns (r: Result<Attempt>)
      requires Valid()
      modifies this
      ensures Valid()
      ensures r == Creation(given, env)
      ensures State() == AfterCreate(old(State()), given, env)
    {
      CreateKeepsKeys(State(), given, env);
      var attempt := given;
      if attempt.userID == "" || attempt.contentID == "" {
        return Err("user_id and content_id are required");
      }
      if attempt.source == "" {
        attempt := attempt.(source := "practice");
      }
      if env.metadata != NoProvider {
        if env.metadata.ResolveFailed? {
          return Err(env.metadata.message);
        }
        attempt := attempt.(topicIDs := env.metadata.topicIDs, tagScores := env.metadata.tagScores,
                            difficulty := env.metadata.difficulty);
      }
      if attempt.difficulty <= 0 {
        attempt := attempt.(difficulty := 1);
      }
      attempt := attempt.(id := env.newID, createdAt := env.now);
      if env.repoError.Some? {
        return Err(env.repoError.value);
      }
      log := log + [attempt];
      InvalidateCaches(attempt.userID, attempt.courseID, env);
      return Ok(attempt);
    }

    method InvalidateCaches(userID: string, courseID: string, env: Environment)
      modifies `cache
      ensures cache == if env.cacheDeletes
        then old(cache) - ((if userID != "" then {ProfileKey(userID)} else {}) +
                           (if courseID != "" then {CalibrationKey(courseID)} else {}))
        else old(cache)
    {
      var keys: set<string> := {};
      if userID != "" {
        keys := keys + {ProfileKey(userID)};
      }
      if courseID != "" {
        keys := keys + {CalibrationKey(courseID)};
      }
      if env.cacheDeletes {
        cache := cache - keys;
      }
    }

    method Profile(userID: string, env: Environment) returns (r: Result<KnowledgeProfile>)
      requires Valid()
      modifies `cache
      ensures Valid()
      ensures State() == AfterRead(old(State()), ForProfile(userID), env)
      ensures Answer(old(State()), ForProfile(userID), env) ==
        match r case Ok(profile) => Ok(ProfileEntry(profile)) case Err(message) => Err(message)
    {
      ReadKeepsKeys(State(), ForProfile(userID), env);
      if userID == "" {
        return Err("user_id is required");
      }
      var key := ProfileKey(userID);
      if env.cacheGets && key in cache {
        return Ok(cache[key].profile);
      }
      if env.repoError.Some? {
        return Err(env.repoError.value);
      }
      var profile := ProfileFold.Profile(userID, ByUser(log, userID), env.now);
      CacheSet(key, ProfileEntry(profile), env);
      return Ok(profile);
    }

    method CourseCalibration(courseID: string, env: Environment) returns (r: Result<CourseCalibration>)
      requires Valid()
      modifies `cache
      ensures Valid()
      ensures State() == AfterRead(old(State()), ForCalibration(courseID), env)
      ensures Answer(old(State()), ForCalibration(courseID), env) ==
        match r case Ok(calibration) => Ok(CalibrationEntry(calibration)) case Err(message) => Err(message)
    {
      ReadKeepsKeys(State(), ForCalibration(courseID), env);
      if courseID == "" {
        return Err("course_id is required");
      }
      var key := CalibrationKey(courseID);
      if env.cacheGets && key in cache {
        return Ok(cache[key].calibration);
      }
      if env.repoError.Some? {
        return Err(env.repoError.value);
      }
      var calibration := Recalibrate(courseID, env.now);
      CacheSet(key, CalibrationEntry(calibration), env);
      return Ok(calibration);
    }

    method CacheSet(key: string, value: Entry, env: Environment)
      modifies `cache
      ensures cache == if env.cacheSets then old(cache)[key := value] else old(cache)
    {
      if env.cacheSets {
        cache := cache[key := value];
      }
    }

    method Recalibrate(courseID: string, now: Time) returns (calibration: CourseCalibration)
      ensures CalibrationEntry(calibration) == Compute(ForCalibration(courseID), log, now)
    {
      calibration := Calibration.Calibrate(courseID, ByCourse(log, courseID), now);
    }

    /** An entry's time runs out. */
    method Expire(key: string)
      requires Valid()
      modifies `cache
      ensures Valid() && State() == old(State()).(cache := old(cache) - {key})
    {
      cache := cache - {key};
    }
  }

  // ---- Every run ----

  /** Every cached value is the one recomputed from the current log, apart from its time. */
  ghost predicate Current(st: Store) {
    forall q :: Key(q) in st.cache ==> Named(q) && Reflects(st.cache[Key(q)], q, st.log)
  }

  datatype Operation =
    | Create(attempt: Attempt, env: Environment)
    | Read(q: Query, env: Environment)
    | Expiry(key: string)

  ghost function Step(st: Store, op: Operation): Store {
    match op
    case Create(attempt, env) => AfterCreate(st, attempt, env)
    case Read(q, env) => AfterRead(st, q, env)
    case Expiry(key) => st.(cache := st.cache - {key})
  }

  ghost function Run(st: Store, ops: seq<Operation>): Store
    decreases |ops|
  {
    if ops == [] then st else Step(Run(st, ops[..|ops| - 1]), ops[|ops| - 1])
  }

  /** The operation does not lose an invalidation. */
  predicate Deletes(op: Operation) {
    op.Create? ==> op.env.cacheDeletes
  }

  lemma {:induction false} StepKeepsCurrent(st: Store, op: Operation)
    requires Current(st) && Deletes(op)
    ensures Current(Step(st, op))
  {
    match op
    case Create(attempt, env) =>
      if Creation(attempt, env).Ok? {
        var a := Creation(attempt, env).value;
        forall q | Key(q) in AfterCreate(st, attempt, env).cache
          ensures Named(q) && Reflects(st.cache[Key(q)], q, st.log + [a])
        {
          UntouchedByAppend(q, st.log, a, UpdatedAt(st.cache[Key(q)]));
        }
      }
    case Read(q, env) =>
      ComputedReflects(q, st.log, env.now);
      forall r: Query ensures Key(q) == Key(r) <==> q == r {
        KeysAreDistinct(q, r);
      }
    case Expiry(_) =>
  }

  /** In every run from an empty cache in which no invalidation fails, the cache stays current. */
  lemma {:induction false} RunKeepsCurrent(st: Store, ops: seq<Operation>)
    requires Current(st) && forall i :: 0 <= i < |ops| ==> Deletes(ops[i])
    ensures Current(Run(st, ops))
  {
    if ops != [] {
      RunKeepsCurrent(st, ops[..|ops| - 1]);
      StepKeepsCurrent(Run(st, ops[..|ops| - 1]), ops[|ops| - 1]);
    }
  }

  /** So every successful read in such a run answers what recomputing from the log of that moment would. */
  lemma {:induction false} RunAnswersCurrent(ops: seq<Operation>, q: Query, env: Environment)
    requires forall i :: 0 <= i < |ops| ==> Deletes(ops[i])
    ensures var st := Run(Store([], map[]), ops);
      Answer(st, q, env).Ok? ==> Reflects(Answer(st, q, env).value, q, st.log)
  {
    var st := Run(Store([], map[]), ops);
    RunKeepsCurrent(Store([], map[]), ops);
    ComputedReflects(q, st.log, env.now);
  }

  /** Reads and expiries leave the log alone; a created attempt is added at the end, with its difficulty at least 1. */
  lemma {:induction false} LogGrows(st: Store, op: Operation)
    ensures st.log <= Step(st, op).log && |Step(st, op).log| <= |st.log| + 1
    ensures |Step(st, op).log| > |st.log| ==> op.Create? && Creation(op.attempt, op.env).Ok?
    ensures |Step(st, op).log| > |st.log| ==>
      var a := Step(st, op).log[|st.log|];
      a.difficulty >= 1 && a.source != "" && a.userID == op.attempt.userID && a.contentID == op.attempt.contentID
  {
  }

  /** An attempt is logged exactly when it names a user and a task, and neither metadata nor log fail. */
  lemma {:induction false} LoggedIff(st: Store, attempt: Attempt, env: Environment)
    ensures |AfterCreate(st, attempt, env).log| == |st.log| + 1 <==>
      attempt.userID != "" && attempt.contentID != "" && !env.metadata.ResolveFailed? && env.repoError.None?
    ensures |AfterCreate(st, attempt, env).log| != |st.log| + 1 ==> AfterCreate(st, attempt, env) == st
  {
  }

  /** What is logged: topics, tags and difficulty are the metadata's if there are any, a missing source is practice. */
  lemma {:induction false} LoggedAttempt(st: Store, attempt: Attempt, env: Environment)
    requires Creation(attempt, env).Ok?
    ensures AfterCreate(st, attempt, env).log == st.log + [Creation(attempt, env).value]
    ensures var a, meta := Creation(attempt, env).value, env.metadata;
      && a.id == env.newID && a.createdAt == env.now
      && a.userID == attempt.userID && a.courseID == attempt.courseID && a.contentID == attempt.contentID
      && a.answer == attempt.answer && a.isCorrect == attempt.isCorrect
      && a.source == (if attempt.source == "" then "practice" else attempt.source)
      && a.topicIDs == (if meta.Resolved? then meta.topicIDs else attempt.topicIDs)
      && a.tagScores == (if meta.Resolved? then meta.tagScores else attempt.tagScores)
      && var difficulty := if meta.Resolved? then meta.difficulty else attempt.difficulty;
         a.difficulty == if difficulty > 0 then difficulty else 1
  {
  }

  /** Creating an attempt leaves all other users' profiles and all other courses' calibrations cached. */
  lemma {:induction false} OthersStayCached(st: Store, attempt: Attempt, env: Environment, q: Query)
    requires Named(q) && q != ForProfile(attempt.userID) && q != ForCalibration(attempt.courseID)
    requires Key(q) in st.cache
    ensures Key(q) in AfterCreate(st, attempt, env).cache
    ensures AfterCreate(st, attempt, env).cache[Key(q)] == st.cache[Key(q)]
  {
    KeysAreDistinct(q, ForProfile(attempt.userID));
    KeysAreDistinct(q, ForCalibration(attempt.courseID));
  }

  /** A successful read that can store is cached: the next one answers the same, even when the log cannot be read. */
  lemma {:induction false} ReadIsCached(st: Store, q: Query, env: Environment, next: Environment)
    requires Answer(st, q, env).Ok? && env.cacheGets && env.cacheSets && next.cacheGets
    ensures AfterRead(st, q, env).log == st.log
    ensures Key(q) in AfterRead(st, q, env).cache && AfterRead(st, q, env).cache[Key(q)] == Answer(st, q, env).value
    ensures Answer(AfterRead(st, q, env), q, next) == Answer(st, q, env)
  {
  }

  /** A read fails exactly when the id is empty, or nothing is cached and the log cannot be read. */
  lemma {:induction false} ReadFailsIff(st: Store, q: Query, env: Environment)
    ensures Answer(st, q, env).Err? <==>
      !Named(q) || (env.repoError.Some? && (!env.cacheGets || Key(q) !in st.cache))
    ensures Answer(st, q, env).Err? ==> AfterRead(st, q, env) == st
    ensures q == ForProfile("") ==> Answer(st, q, env) == Err("user_id is required")
    ensures q == ForCalibration("") ==> Answer(st, q, env) == Err("course_id is required")
    ensures Named(q) && Answer(st, q, env).Err? ==> Answer(st, q, env) == Err(env.repoError.value)
  {
  }

  // ---- Exactly when the cache stays current ----

  /** The attempt tells its user's profile something: a topic, or a tag whose weights do not cancel. */
  ghost predicate TellsProfile(a: Attempt) {
    a.topicIDs != [] || exists x :: TagWeight(a, x) != 0.0
  }

  lemma {:induction false} KeysConcern(a: Attempt, key: string) returns (q: Query)
    requires a.contentID != "" && TellsProfile(a) && key in KeysOf(a)
    ensures Key(q) == key && Concerns(a, q)
  {
    q := if a.userID != "" && key == ProfileKey(a.userID) then ForProfile(a.userID) else ForCalibration(a.courseID);
  }

  lemma {:induction false} KeptEntryGoesStale(st: Store, a: Attempt, key: string)
    requires Current(st) && a.contentID != "" && TellsProfile(a)
    requires key in KeysOf(a) && key in st.cache
    ensures !Current(Store(st.log + [a], st.cache))
  {
    var q := KeysConcern(a, key);
    var e := st.cache[Key(q)];
    ChangedByAppend(q, st.log, a, UpdatedAt(e), UpdatedAt(e));
    assert !Reflects(e, q, st.log + [a]);
  }

  lemma {:induction false} NothingCachedStaysCurrent(st: Store, a: Attempt)
    requires Current(st) && KeysOf(a) !! st.cache.Keys
    ensures Current(Store(st.log + [a], st.cache))
  {
    forall q | Key(q) in st.cache ensures Reflects(st.cache[Key(q)], q, st.log + [a]) {
      UntouchedByAppend(q, st.log, a, UpdatedAt(st.cache[Key(q)]));
    }
  }

  /**
   Creating an attempt keeps a current cache current if its keys are deleted or were not cached - and only if, when
   the attempt tells its user's profile something.
   */
  lemma {:induction false} CreateKeepsCurrent(st: Store, given: Attempt, env: Environment)
    requires Current(st) && Creation(given, env).Ok?
    ensures Harmless(st, Create(given, env)) ==> Current(AfterCreate(st, given, env))
    ensures TellsProfile(Creation(given, env).value) ==>
      (Current(AfterCreate(st, given, env)) <==> Harmless(st, Create(given, env)))
  {
    var a := Creation(given, env).value;
    if env.cacheDeletes {
      StepKeepsCurrent(st, Create(given, env));
    } else if KeysOf(a) !! st.cache.Keys {
      NothingCachedStaysCurrent(st, a);
    } else if TellsProfile(a) {
      var key :| key in KeysOf(a) && key in st.cache;
      KeptEntryGoesStale(st, a, key);
    }
  }

  /** The operation deletes what it invalidates, or finds nothing of it cached. */
  ghost predicate Harmless(st: Store, op: Operation) {
    op.Create? && Creation(op.attempt, op.env).Ok? ==>
      op.env.cacheDeletes || KeysOf(Creation(op.attempt, op.env).value) !! st.cache.Keys
  }

  ghost predicate TellingOp(op: Operation) {
    op.Create? && Creation(op.attempt, op.env).Ok? ==> TellsProfile(Creation(op.attempt, op.env).value)
  }

  lemma {:induction false} StepKeepsCurrentIff(st: Store, op: Operation)
    requires Current(st)
    ensures Harmless(st, op) ==> Current(Step(st, op))
    ensures TellingOp(op) ==> (Current(Step(st, op)) <==> Harmless(st, op))
  {
    if op.Create? && Creation(op.attempt, op.env).Ok? {
      CreateKeepsCurrent(st, op.attempt, op.env);
    } else if op.Create? {
      assert Step(st, op) == st;
    } else {
      StepKeepsCurrent(st, op);
    }
  }

  ghost predicate AlwaysCurrent(st: Store, ops: seq<Operation>)
    decreases |ops|
  {
    Current(Run(st, ops)) && (ops != [] ==> AlwaysCurrent(st, ops[..|ops| - 1]))
  }

  ghost predicate AlwaysHarmless(st: Store, ops: seq<Operation>)
    decreases |ops|
  {
    ops != [] ==> AlwaysHarmless(st, ops[..|ops| - 1]) && Harmless(Run(st, ops[..|ops| - 1]), ops[|ops| - 1])
  }

  /**
   Over a whole run, the cache is current at every moment if each creation deletes its keys or finds none of them
   cached - and only if, when the attempts tell their users' profiles something.
   */
  lemma {:induction false} RunCurrentIff(st: Store, ops: seq<Operation>)
    requires Current(st)
    ensures AlwaysHarmless(st, ops) ==> AlwaysCurrent(st, ops)
    ensures (forall i :: 0 <= i < |ops| ==> TellingOp(ops[i])) ==>
      (AlwaysCurrent(st, ops) <==> AlwaysHarmless(st, ops))
  {
    if ops != [] {
      var before, last := ops[..|ops| - 1], ops[|ops| - 1];
      RunCurrentIff(st, before);
      if Current(Run(st, before)) {
        StepKeepsCurrentIff(Run(st, before), last);
      }
      if forall i :: 0 <= i < |ops| ==> TellingOp(ops[i]) {
        assert forall i :: 0 <= i < |before| ==> before[i] == ops[i];
      }
    }
  }

  /** With one failed invalidation the cache goes stale: the deletes are needed. */
  lemma {:induction false} LostDeleteGoesStale(a: Attempt, works: Environment, fails: Environment)
    requires a.userID != "" && a.contentID != "" && a.topicIDs == ["t"]
    requires works.metadata.NoProvider? && fails.metadata.NoProvider?
    requires works.repoError.None? && works.cacheSets && fails.repoError.None? && !fails.cacheDeletes
    ensures !Current(Run(Store([], map[]), [Read(ForProfile(a.userID), works), Create(a, fails)]))
  {
    var empty, q := Store([], map[]), ForProfile(a.userID);
    var ops := [Read(q, works), Create(a, fails)];
    assert ops[..1] == [Read(q, works)] && ops[..1][..0] == [];
    var cached := AfterRead(empty, q, works);
    var st := Run(empty, ops);
    assert Run(empty, ops[..1]) == cached;
    var done := Completed(a, fails);
    assert st == Store([done], cached.cache);
    OneAttemptMentions(done, "t");
    var e := st.cache[Key(q)];
    assert e == Compute(q, [], works.now);
    assert "t" !in e.profile.topics && "t" in Compute(q, [done], UpdatedAt(e)).profile.topics;
    assert !Reflects(e, q, st.log);
  }

  lemma {:induction false} OneAttempt(a: Attempt)
    ensures ByUser([a], a.userID) == [a] && Mentions(Topics, [a]) == MentionsIn(Topics, a)
  {
    assert [] + [a] == [a];
    ByUserAppend([], a, a.userID);
    MentionsOfOne(Topics, a);
  }

  lemma {:induction false} OneAttemptMentions(a: Attempt, id: string)
    requires id in a.topicIDs
    ensures id in IDs(Mentions(Topics, ByUser([a], a.userID)))
  {
    OneAttempt(a);
    var i :| 0 <= i < |a.topicIDs| && a.topicIDs[i] == id;
    assert MentionsIn(Topics, a)[i] in MentionsIn(Topics, a);
  }
}
