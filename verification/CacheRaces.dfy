/**
 Concurrent use of the cache. A read that misses is three steps - look up, list and compute, store and answer - and an
 attempt is two - log, invalidate. Steps of any number of calls interleave freely; lookups, listings, stores and
 invalidations may fail, readers may be lost, entries may expire. An invalidation is made once: one that fails, or is
 never made because the process died, is not made up for. The protocol is proved for any values computed from the log;
 the last section instantiates it with the profiles and calibrations of the service.
 */
module CacheRaces {
  import opened StatDomain
  import opened CacheModel

  /** How the value of a query is computed from a log at a moment. */
  type Values = (Query, seq<Attempt>, Time) -> Entry

  type ReaderID = nat

  /** A value, and how many attempts were logged when it was computed. */
  datatype Held = Held(value: Entry, listed: nat)

  /** A reader that missed: about to list the attempts, or holding the value it computed. */
  datatype Reader =
    | Missed(q: Query, began: nat)
    | Holding(q: Query, began: nat, held: Held)

  /** An answer given when the log was `ended` long; it was computed after the log was `began` long. */
  datatype Answer = Answer(q: Query, value: Entry, began: nat, ended: nat)

  /** `pending` are the attempts logged whose invalidation is still to be made. */
  datatype State = State(log: seq<Attempt>, cache: map<string, Held>, readers: map<ReaderID, Reader>,
                         pending: multiset<Attempt>, answers: seq<Answer>)

  datatype Event =
    | LookUp(id: ReaderID, q: Query, works: bool)
    | List(id: ReaderID, now: Time)
    | Finish(id: ReaderID, stored: bool)
    | Lose(id: ReaderID)
    | Append(attempt: Attempt)
    | Invalidate(attempt: Attempt, works: bool)
    | Expire(key: string)

  const START: State := State([], map[], map[], multiset{}, [])

  /** Only steps that some call is ready to take. */
  predicate Enabled(st: State, e: Event) {
    match e
    case LookUp(id, q, _) => id !in st.readers && Named(q)
    case List(id, _) => id in st.readers && st.readers[id].Missed?
    case Finish(id, _) => id in st.readers && st.readers[id].Holding?
    case Lose(id) => id in st.readers
    case Append(_) => true
    case Invalidate(a, _) => a in st.pending
    case Expire(_) => true
  }

  /** One step; an event that nobody is ready to take does nothing. */
  ghost function Step(c: Values, st: State, e: Event): State {
    if Enabled(st, e) then Take(c, st, e) else st
  }

  ghost function Take(c: Values, st: State, e: Event): State
    requires Enabled(st, e)
  {
    match e
    case LookUp(id, q, works) =>
      if works && Key(q) in st.cache
      then st.(answers := st.answers + [Answer(q, st.cache[Key(q)].value, 0, |st.log|)])
      else st.(readers := st.readers[id := Missed(q, |st.log|)])
    case List(id, now) =>
      var reader := st.readers[id];
      st.(readers := st.readers[id := Holding(reader.q, reader.began, Held(c(reader.q, st.log, now), |st.log|))])
    case Finish(id, stored) =>
      var reader := st.readers[id];
      st.(readers := st.readers - {id},
          cache := if stored then st.cache[Key(reader.q) := reader.held] else st.cache,
          answers := st.answers + [Answer(reader.q, reader.held.value, reader.began, |st.log|)])
    case Lose(id) => st.(readers := st.readers - {id})
    case Append(a) => st.(log := st.log + [a], pending := st.pending + multiset{a})
    case Invalidate(a, works) =>
      st.(cache := if works then st.cache - KeysOf(a) else st.cache, pending := st.pending - multiset{a})
    case Expire(key) => st.(cache := st.cache - {key})
  }

  ghost function After(c: Values, events: seq<Event>): State
    decreases |events|
  {
    if events == [] then START else Step(c, After(c, events[..|events| - 1]), events[|events| - 1])
  }

  // ---- Everything is a snapshot ----

  /** `e` is the value of `q` for the log, computed at some moment. */
  ghost predicate IsValue(c: Values, e: Entry, q: Query, log: seq<Attempt>) {
    exists now :: e == c(q, log, now)
  }

  /** The value is that of the log state it was listed in. */
  ghost predicate HeldOK(c: Values, h: Held, q: Query, log: seq<Attempt>) {
    h.listed <= |log| && IsValue(c, h.value, q, log[..h.listed])
  }

  /** The value of a log state that occurred between the two moments. */
  ghost predicate Snapshot(c: Values, e: Entry, q: Query, log: seq<Attempt>, from: nat, until: nat) {
    exists n :: from <= n <= until && HeldOK(c, Held(e, n), q, log)
  }

  ghost predicate ReaderOK(c: Values, r: Reader, log: seq<Attempt>) {
    && Named(r.q) && r.began <= |log|
    && (r.Holding? ==> r.began <= r.held.listed && HeldOK(c, r.held, r.q, log))
  }

  ghost predicate AnswerOK(c: Values, a: Answer, log: seq<Attempt>) {
    Named(a.q) && a.ended <= |log| && Snapshot(c, a.value, a.q, log, a.began, a.ended)
  }

  ghost predicate CachedOK(c: Values, cache: map<string, Held>, log: seq<Attempt>) {
    forall q :: Key(q) in cache ==> Named(q) && HeldOK(c, cache[Key(q)], q, log)
  }

  ghost predicate Snapshots(c: Values, st: State) {
    && CachedOK(c, st.cache, st.log)
    && (forall id :: id in st.readers ==> ReaderOK(c, st.readers[id], st.log))
    && (forall i :: 0 <= i < |st.answers| ==> AnswerOK(c, st.answers[i], st.log))
  }

  lemma {:induction false} HeldSurvives(c: Values, h: Held, q: Query, log: seq<Attempt>, a: Attempt)
    requires HeldOK(c, h, q, log)
    ensures HeldOK(c, h, q, log + [a])
  {
    assert (log + [a])[..h.listed] == log[..h.listed];
  }

  lemma {:induction false} AnswerSurvives(c: Values, x: Answer, log: seq<Attempt>, a: Attempt)
    requires AnswerOK(c, x, log)
    ensures AnswerOK(c, x, log + [a])
  {
    var n :| x.began <= n <= x.ended && HeldOK(c, Held(x.value, n), x.q, log);
    HeldSurvives(c, Held(x.value, n), x.q, log, a);
  }

  lemma {:induction false} ListedNow(c: Values, q: Query, log: seq<Attempt>, now: Time)
    ensures HeldOK(c, Held(c(q, log, now), |log|), q, log)
  {
    assert log[..|log|] == log;
  }

  lemma {:induction false} HeldIsSnapshot(c: Values, h: Held, q: Query, log: seq<Attempt>, from: nat)
    requires HeldOK(c, h, q, log) && from <= h.listed
    ensures Snapshot(c, h.value, q, log, from, |log|)
  {
    assert h == Held(h.value, h.listed);
  }

  lemma {:induction false} PutKeepsCached(c: Values, cache: map<string, Held>, log: seq<Attempt>, q: Query, h: Held)
    requires CachedOK(c, cache, log) && Named(q) && HeldOK(c, h, q, log)
    ensures CachedOK(c, cache[Key(q) := h], log)
  {
    forall r: Query | Key(r) in cache[Key(q) := h]
      ensures Named(r) && HeldOK(c, cache[Key(q) := h][Key(r)], r, log)
    {
      KeysAreDistinct(q, r);
    }
  }

  lemma {:induction false} AppendKeepsSnapshots(c: Values, st: State, a: Attempt)
    requires Snapshots(c, st)
    ensures Snapshots(c, Take(c, st, Append(a)))
  {
    var log := st.log + [a];
    forall q | Key(q) in st.cache ensures HeldOK(c, st.cache[Key(q)], q, log) {
      HeldSurvives(c, st.cache[Key(q)], q, st.log, a);
    }
    forall id | id in st.readers ensures ReaderOK(c, st.readers[id], log) {
      var r := st.readers[id];
      if r.Holding? {
        HeldSurvives(c, r.held, r.q, st.log, a);
      }
    }
    forall i | 0 <= i < |st.answers| ensures AnswerOK(c, st.answers[i], log) {
      AnswerSurvives(c, st.answers[i], st.log, a);
    }
  }

  lemma {:induction false} AnswerKeepsSnapshots(c: Values, st: State, q: Query, value: Entry, began: nat)
    requires Snapshots(c, st) && Named(q) && Snapshot(c, value, q, st.log, began, |st.log|)
    ensures Snapshots(c, st.(answers := st.answers + [Answer(q, value, began, |st.log|)]))
  {
    assert AnswerOK(c, Answer(q, value, began, |st.log|), st.log);
  }

  lemma {:induction false} HoldKeepsSnapshots(c: Values, st: State, id: ReaderID, r: Reader)
    requires Snapshots(c, st) && ReaderOK(c, r, st.log)
    ensures Snapshots(c, st.(readers := st.readers[id := r]))
  {
  }

  lemma {:induction false} ListKeepsSnapshots(c: Values, st: State, id: ReaderID, now: Time)
    requires Snapshots(c, st) && Enabled(st, List(id, now))
    ensures Snapshots(c, Take(c, st, List(id, now)))
  {
    var r := st.readers[id];
    assert ReaderOK(c, r, st.log);
    ListedNow(c, r.q, st.log, now);
    HoldKeepsSnapshots(c, st, id, Holding(r.q, r.began, Held(c(r.q, st.log, now), |st.log|)));
  }

  lemma {:induction false} FinishKeepsSnapshots(c: Values, st: State, id: ReaderID, stored: bool)
    requires Snapshots(c, st) && Enabled(st, Finish(id, stored))
    ensures Snapshots(c, Take(c, st, Finish(id, stored)))
  {
    var r := st.readers[id];
    assert ReaderOK(c, r, st.log);
    HeldIsSnapshot(c, r.held, r.q, st.log, r.began);
    PutKeepsCached(c, st.cache, st.log, r.q, r.held);
    var kept := st.(readers := st.readers - {id}, cache := if stored then st.cache[Key(r.q) := r.held] else st.cache);
    AnswerKeepsSnapshots(c, kept, r.q, r.held.value, r.began);
  }

  lemma {:induction false} StepKeepsSnapshots(c: Values, st: State, e: Event)
    requires Snapshots(c, st) && Enabled(st, e)
    ensures Snapshots(c, Take(c, st, e))
  {
    match e
    case LookUp(id, q, works) =>
      if works && Key(q) in st.cache {
        HeldIsSnapshot(c, st.cache[Key(q)], q, st.log, 0);
        AnswerKeepsSnapshots(c, st, q, st.cache[Key(q)].value, 0);
      }
    case List(id, now) => ListKeepsSnapshots(c, st, id, now);
    case Finish(id, stored) => FinishKeepsSnapshots(c, st, id, stored);
    case Lose(_) =>
    case Append(a) => AppendKeepsSnapshots(c, st, a);
    case Invalidate(_, _) =>
    case Expire(_) =>
  }

  /**
   In every run, whatever interleaves and whatever fails: each cached or held value and each answer given is the
   value computed from a log state that occurred by then; an answer that missed the cache is from a log state that
   occurred during the call.
   */
  lemma {:induction false} RunsOnlyHoldSnapshots(c: Values, events: seq<Event>)
    ensures Snapshots(c, After(c, events))
    decreases |events|
  {
    if events != [] {
      var st, e := After(c, events[..|events| - 1]), events[|events| - 1];
      RunsOnlyHoldSnapshots(c, events[..|events| - 1]);
      if Enabled(st, e) { StepKeepsSnapshots(c, st, e); }
    }
  }

  // ---- When the cache is current ----

  /** Only an attempt with the query's key changes the query's value. */
  ghost predicate Keyed(c: Values) {
    forall q, log, a, now :: Named(q) && Key(q) !in KeysOf(a) ==> c(q, log + [a], now) == c(q, log, now)
  }

  /** An attempt with the key of the query was logged after the value was listed. */
  ghost predicate Outdated(h: Held, q: Query, log: seq<Attempt>) {
    KeyedSince(q, log, h.listed)
  }

  ghost predicate KeyedSince(q: Query, log: seq<Attempt>, n: nat) {
    exists i :: n <= i < |log| && Key(q) in KeysOf(log[i])
  }

  /** A value listed from the first n attempts is still current if no later one has its key. */
  lemma {:induction false} UnchangedSince(c: Values, q: Query, log: seq<Attempt>, n: nat, now: Time)
    requires Keyed(c) && Named(q) && n <= |log| && !KeyedSince(q, log, n)
    ensures c(q, log, now) == c(q, log[..n], now)
    decreases |log|
  {
    if n < |log| {
      var before, last := log[..|log| - 1], log[|log| - 1];
      assert log == before + [last] && before[..n] == log[..n];
      assert !KeyedSince(q, before, n) by {
        assert forall i :: n <= i < |before| ==> before[i] == log[i];
      }
      UnchangedSince(c, q, before, n, now);
    } else {
      assert log[..n] == log;
    }
  }

  lemma {:induction false} NotOutdatedIsCurrent(c: Values, h: Held, q: Query, log: seq<Attempt>)
    requires Keyed(c) && Named(q) && HeldOK(c, h, q, log) && !Outdated(h, q, log)
    ensures IsValue(c, h.value, q, log)
  {
    var now :| h.value == c(q, log[..h.listed], now);
    UnchangedSince(c, q, log, h.listed, now);
  }

  /** Some attempt with the key still has its invalidation to come. */
  ghost predicate Pending(st: State, key: string) {
    exists a :: a in st.pending && key in KeysOf(a)
  }

  /** Everything known for `q`, cached or held, is what the current log gives. */
  ghost predicate Settled(c: Values, st: State, q: Query) {
    && (Key(q) in st.cache ==> IsValue(c, st.cache[Key(q)].value, q, st.log))
    && (forall id :: id in st.readers ==> SettledReader(c, st.readers[id], q, st.log))
  }

  ghost predicate SettledReader(c: Values, r: Reader, q: Query, log: seq<Attempt>) {
    r.Holding? && r.q == q ==> IsValue(c, r.held.value, q, log)
  }

  /** Values can be out of date only while an invalidation of their key is still to be made. */
  ghost predicate Fresh(c: Values, st: State) {
    forall q :: Named(q) && !Pending(st, Key(q)) ==> Settled(c, st, q)
  }

  /** A reader still holds an outdated value for `q`, or the cache does. */
  ghost predicate OutdatedReader(st: State, q: Query) {
    exists id :: id in st.readers && HoldsOutdated(st.readers[id], q, st.log)
  }

  ghost predicate HoldsOutdated(r: Reader, q: Query, log: seq<Attempt>) {
    r.Holding? && r.q == q && Outdated(r.held, q, log)
  }

  ghost predicate OutdatedEntry(st: State, q: Query) {
    Key(q) in st.cache && Outdated(st.cache[Key(q)], q, st.log)
  }

  /** What the last invalidation pending for a key leaves behind: nothing can put it right any more. */
  ghost predicate LeavesOutdated(st: State, e: Event, q: Query)
    requires e.Invalidate?
  {
    && Named(q) && Key(q) in KeysOf(e.attempt)
    && !Pending(st.(pending := st.pending - multiset{e.attempt}), Key(q))
    && (OutdatedReader(st, q) || (!e.works && OutdatedEntry(st, q)))
  }

  /** The last invalidation pending for a key overtakes a reader, or fails when it was needed. */
  ghost predicate Spoils(st: State, e: Event) {
    e.Invalidate? && Enabled(st, e) && exists q :: LeavesOutdated(st, e, q)
  }

  lemma {:induction false} AppendKeepsFresh(c: Values, st: State, a: Attempt)
    requires Keyed(c) && Fresh(c, st)
    ensures Fresh(c, Take(c, st, Append(a)))
  {
    var st' := Take(c, st, Append(a));
    forall q | Named(q) && !Pending(st', Key(q)) ensures Settled(c, st', q) {
      NotPendingBefore(st, a, q);
      SettledAfterAppend(c, st, a, q);
    }
  }

  lemma {:induction false} NotPendingBefore(st: State, a: Attempt, q: Query)
    requires !Pending(st.(log := st.log + [a], pending := st.pending + multiset{a}), Key(q))
    ensures Key(q) !in KeysOf(a) && !Pending(st, Key(q))
  {
    var more := st.pending + multiset{a};
    assert a in more;
    assert forall b :: b in st.pending ==> b in more;
  }

  lemma {:induction false} ValueAfterAppend(c: Values, e: Entry, q: Query, log: seq<Attempt>, a: Attempt)
    requires Keyed(c) && Named(q) && Key(q) !in KeysOf(a) && IsValue(c, e, q, log)
    ensures IsValue(c, e, q, log + [a])
  {
    var now :| e == c(q, log, now);
    assert c(q, log + [a], now) == c(q, log, now);
  }

  lemma {:induction false} SettledAfterAppend(c: Values, st: State, a: Attempt, q: Query)
    requires Keyed(c) && Named(q) && Key(q) !in KeysOf(a) && Settled(c, st, q)
    ensures Settled(c, Take(c, st, Append(a)), q)
  {
    if Key(q) in st.cache {
      ValueAfterAppend(c, st.cache[Key(q)].value, q, st.log, a);
    }
    forall id | id in st.readers ensures SettledReader(c, st.readers[id], q, st.log + [a]) {
      var r := st.readers[id];
      assert SettledReader(c, r, q, st.log);
      if r.Holding? && r.q == q {
        ValueAfterAppend(c, r.held.value, q, st.log, a);
      }
    }
  }

  lemma {:induction false} SettledAfterReader(c: Values, st: State, e: Event, q: Query)
    requires Enabled(st, e) && (e.LookUp? || e.List? || e.Finish?) && Settled(c, st, q)
    ensures Settled(c, Take(c, st, e), q)
  {
    match e
    case LookUp(_, _, _) =>
    case List(id, now) =>
      assert IsValue(c, c(st.readers[id].q, st.log, now), st.readers[id].q, st.log);
    case Finish(id, stored) =>
      KeysAreDistinct(st.readers[id].q, q);
      assert SettledReader(c, st.readers[id], q, st.log);
  }

  lemma {:induction false} SettledAfterInvalidate(c: Values, st: State, e: Event, q: Query)
    requires Keyed(c) && Snapshots(c, st) && e.Invalidate? && Enabled(st, e)
    requires Named(q) && Key(q) in KeysOf(e.attempt) && !OutdatedReader(st, q) && (e.works || !OutdatedEntry(st, q))
    ensures Settled(c, Take(c, st, e), q)
  {
    forall id | id in st.readers ensures SettledReader(c, st.readers[id], q, st.log) {
      var r := st.readers[id];
      assert ReaderOK(c, r, st.log) && !HoldsOutdated(r, q, st.log);
      if r.Holding? && r.q == q {
        NotOutdatedIsCurrent(c, r.held, q, st.log);
      }
    }
    if !e.works && Key(q) in st.cache {
      NotOutdatedIsCurrent(c, st.cache[Key(q)], q, st.log);
    }
  }

  lemma {:induction false} InvalidateKeepsFresh(c: Values, st: State, e: Event)
    requires Keyed(c) && Snapshots(c, st) && Fresh(c, st) && e.Invalidate? && Enabled(st, e) && !Spoils(st, e)
    ensures Fresh(c, Take(c, st, e))
  {
    var st' := Take(c, st, e);
    forall q | Named(q) && !Pending(st', Key(q)) ensures Settled(c, st', q) {
      assert !LeavesOutdated(st, e, q);
      if Key(q) in KeysOf(e.attempt) {
        assert !Pending(st.(pending := st.pending - multiset{e.attempt}), Key(q));
        SettledAfterInvalidate(c, st, e, q);
      } else {
        StillNotPending(st, e.attempt, q);
        assert Settled(c, st, q);
      }
    }
  }

  lemma {:induction false} StillNotPending(st: State, a: Attempt, q: Query)
    requires Key(q) !in KeysOf(a) && !Pending(st.(pending := st.pending - multiset{a}), Key(q))
    ensures !Pending(st, Key(q))
  {
    var less := st.pending - multiset{a};
    assert forall b :: b in st.pending && b != a ==> b in less;
  }

  lemma {:induction false} StepKeepsFresh(c: Values, st: State, e: Event)
    requires Keyed(c) && Snapshots(c, st) && Fresh(c, st) && Enabled(st, e) && !Spoils(st, e)
    ensures Fresh(c, Take(c, st, e))
  {
    if e.Append? {
      AppendKeepsFresh(c, st, e.attempt);
    } else if e.Invalidate? {
      InvalidateKeepsFresh(c, st, e);
    } else {
      var st' := Take(c, st, e);
      forall q | Named(q) && !Pending(st', Key(q)) ensures Settled(c, st', q) {
        assert !Pending(st, Key(q));
        assert Settled(c, st, q);
        if e.LookUp? || e.List? || e.Finish? {
          SettledAfterReader(c, st, e, q);
        }
      }
    }
  }

  /** No step of the run spoils a key. */
  ghost predicate UndisturbedRun(c: Values, events: seq<Event>)
    decreases |events|
  {
    events == [] || (
      && UndisturbedRun(c, events[..|events| - 1])
      && !Spoils(After(c, events[..|events| - 1]), events[|events| - 1]))
  }

  /** In such a run, whatever fails, values are out of date only while an invalidation of their key is to be made. */
  lemma {:induction false} UndisturbedRunsStayFresh(c: Values, events: seq<Event>)
    requires Keyed(c) && UndisturbedRun(c, events)
    ensures Fresh(c, After(c, events))
    decreases |events|
  {
    if events != [] {
      var st, e := After(c, events[..|events| - 1]), events[|events| - 1];
      UndisturbedRunsStayFresh(c, events[..|events| - 1]);
      RunsOnlyHoldSnapshots(c, events[..|events| - 1]);
      if Enabled(st, e) { StepKeepsFresh(c, st, e); }
    }
  }

  // ---- And only then ----

  /** Every attempt of the log takes the values of its keys out of date for good. */
  ghost predicate Telling(c: Values, log: seq<Attempt>) {
    forall q, n, i, m, now, later :: 0 <= n <= i < m <= |log| && Named(q) && Key(q) in KeysOf(log[i]) ==>
      c(q, log[..n], now) != c(q, log[..m], later)
  }

  lemma {:induction false} TellingBefore(c: Values, log: seq<Attempt>, before: seq<Attempt>)
    requires Telling(c, log) && before <= log
    ensures Telling(c, before)
  {
    assert forall n :: 0 <= n <= |before| ==> before[..n] == log[..n];
  }

  lemma {:induction false} OutdatedIsStale(c: Values, h: Held, q: Query, log: seq<Attempt>)
    requires Telling(c, log) && Named(q) && HeldOK(c, h, q, log) && Outdated(h, q, log)
    ensures !IsValue(c, h.value, q, log)
  {
    var i :| h.listed <= i < |log| && Key(q) in KeysOf(log[i]);
    var now :| h.value == c(q, log[..h.listed], now);
    assert log[..|log|] == log;
    forall later ensures h.value != c(q, log, later) {
      assert c(q, log[..h.listed], now) != c(q, log[..|log|], later);
    }
  }

  lemma {:induction false} SpoiledIsStale(c: Values, st: State, e: Event)
    requires Snapshots(c, st) && Telling(c, st.log) && Spoils(st, e)
    ensures !Fresh(c, Take(c, st, e))
  {
    var q :| LeavesOutdated(st, e, q);
    if OutdatedReader(st, q) {
      var id :| id in st.readers && HoldsOutdated(st.readers[id], q, st.log);
      assert ReaderOK(c, st.readers[id], st.log);
      OutdatedIsStale(c, st.readers[id].held, q, st.log);
      assert !SettledReader(c, st.readers[id], q, st.log);
    } else {
      OutdatedIsStale(c, st.cache[Key(q)], q, st.log);
    }
    assert !Settled(c, Take(c, st, e), q);
  }

  ghost predicate AlwaysFresh(c: Values, events: seq<Event>)
    decreases |events|
  {
    Fresh(c, After(c, events)) && (events != [] ==> AlwaysFresh(c, events[..|events| - 1]))
  }

  /** When every attempt tells, a run is fresh at every moment exactly when it is undisturbed. */
  lemma {:induction false} FreshMeansUndisturbed(c: Values, events: seq<Event>)
    requires Keyed(c) && Telling(c, After(c, events).log)
    ensures AlwaysFresh(c, events) <==> UndisturbedRun(c, events)
    decreases |events|
  {
    if events != [] {
      var before, e := events[..|events| - 1], events[|events| - 1];
      TellingBefore(c, After(c, events).log, After(c, before).log);
      FreshMeansUndisturbed(c, before);
      RunsOnlyHoldSnapshots(c, before);
      if UndisturbedRun(c, events) {
        UndisturbedRunsStayFresh(c, events);
      } else if Spoils(After(c, before), e) {
        SpoiledIsStale(c, After(c, before), e);
      }
    }
  }

  // ---- The profiles and calibrations of the service ----

  ghost const SERVICE: Values := (q, log, now) => Compute(q, log, now)

  lemma {:induction false} ServiceIsKeyed()
    ensures Keyed(SERVICE)
  {
    forall q: Query, log: seq<Attempt>, a: Attempt, now: Time | Named(q) && Key(q) !in KeysOf(a)
      ensures SERVICE(q, log + [a], now) == SERVICE(q, log, now)
    {
      UntouchedByAppend(q, log, a, now);
    }
  }

  /** Being a value of the service means reflecting the log. */
  lemma {:induction false} ServiceValues(e: Entry, q: Query, log: seq<Attempt>)
    ensures IsValue(SERVICE, e, q, log) <==> Reflects(e, q, log)
  {
    if IsValue(SERVICE, e, q, log) {
      var now :| e == SERVICE(q, log, now);
      ComputedReflects(q, log, now);
    }
    if Reflects(e, q, log) {
      assert e == SERVICE(q, log, UpdatedAt(e));
    }
  }

  /** Each attempt names a task, and marks its user's profile: by a topic, or by a tag never weighed below zero. */
  ghost predicate AllMark(log: seq<Attempt>) {
    forall i :: 0 <= i < |log| ==> log[i].contentID != "" && Marks(log, i, ForProfile(log[i].userID))
  }

  lemma {:induction false} MarksBefore(log: seq<Attempt>, i: nat, m: nat, q: Query)
    requires i < m <= |log| && Marks(log, i, q)
    ensures Marks(log[..m], i, q)
  {
    if !Counts(q, log[i]) {
      var x :| TagWeight(log[i], x) > 0.0 && NeverNegative(log, x);
      assert NeverNegative(log[..m], x);
    }
  }

  lemma {:induction false} MarkedIsChanged(q: Query, log: seq<Attempt>, n: nat, i: nat, m: nat, now: Time, later: Time)
    requires AllMark(log) && n <= i < m <= |log| && Named(q) && Key(q) in KeysOf(log[i])
    ensures Compute(q, log[..n], now) != Compute(q, log[..m], later)
  {
    assert log[..m][..n] == log[..n] && log[..m][i] == log[i];
    KeysNameQueries(q, log[i]);
    MarksBefore(log, i, m, ForProfile(log[i].userID));
    ChangedSince(q, log[..m], n, i, now, later);
  }

  lemma {:induction false} MarkedLogsTell(log: seq<Attempt>)
    requires AllMark(log)
    ensures Telling(SERVICE, log)
  {
    forall q: Query, n: nat, i: nat, m: nat, now: Time, later: Time |
      n <= i < m <= |log| && Named(q) && Key(q) in KeysOf(log[i])
      ensures SERVICE(q, log[..n], now) != SERVICE(q, log[..m], later)
    {
      MarkedIsChanged(q, log, n, i, m, now, later);
    }
  }

  /**
   For the service: if no last invalidation overtakes a reader or fails over an outdated entry, profiles and
   calibrations are out of date only while an invalidation of their key is to be made; and only then, if the attempts
   logged mark what they change.
   */
  lemma {:induction false} ServiceStaysFresh(events: seq<Event>)
    ensures UndisturbedRun(SERVICE, events) ==> AlwaysFresh(SERVICE, events)
    ensures AllMark(After(SERVICE, events).log) ==> (AlwaysFresh(SERVICE, events) <==> UndisturbedRun(SERVICE, events))
  {
    ServiceIsKeyed();
    if UndisturbedRun(SERVICE, events) {
      UndisturbedIsAlwaysFresh(SERVICE, events);
    }
    if AllMark(After(SERVICE, events).log) {
      MarkedLogsTell(After(SERVICE, events).log);
      FreshMeansUndisturbed(SERVICE, events);
    }
  }

  lemma {:induction false} UndisturbedIsAlwaysFresh(c: Values, events: seq<Event>)
    requires Keyed(c) && UndisturbedRun(c, events)
    ensures AlwaysFresh(c, events)
    decreases |events|
  {
    UndisturbedRunsStayFresh(c, events);
    if events != [] {
      UndisturbedIsAlwaysFresh(c, events[..|events| - 1]);
    }
  }

  // ---- What a read does when nothing interferes ----

  /** A read that misses lists, answers and, if that works, stores the value of the log as it is. */
  lemma {:induction false} ReadCompletes(c: Values, st: State, id: ReaderID, q: Query, now: Time, stored: bool)
    requires Named(q) && id !in st.readers && Key(q) !in st.cache
    ensures var value := c(q, st.log, now);
      var after := Step(c, Step(c, Step(c, st, LookUp(id, q, true)), List(id, now)), Finish(id, stored));
      && after.answers == st.answers + [Answer(q, value, |st.log|, |st.log|)]
      && after.cache == (if stored then st.cache[Key(q) := Held(value, |st.log|)] else st.cache)
      && after.log == st.log && after.pending == st.pending && after.readers == st.readers
  {
    var missed := Step(c, st, LookUp(id, q, true));
    var holding := Step(c, missed, List(id, now));
    assert holding.readers == st.readers[id := Holding(q, |st.log|, Held(c(q, st.log, now), |st.log|))];
  }

  /** A read that hits answers what is cached and changes nothing else. */
  lemma {:induction false} HitAnswers(c: Values, st: State, id: ReaderID, q: Query)
    requires Named(q) && id !in st.readers && Key(q) in st.cache
    ensures var after := Step(c, st, LookUp(id, q, true));
      && |after.answers| == |st.answers| + 1 && after.answers[|st.answers|].value == st.cache[Key(q)].value
      && after == st.(answers := after.answers)
  {
  }

  // ---- Two runs that end stale with nothing left to invalidate ----

  lemma {:induction false} AfterOneMore(c: Values, events: seq<Event>, e: Event)
    ensures After(c, events + [e]) == Step(c, After(c, events), e)
  {
    assert (events + [e])[..|events|] == events;
  }

  /** A reader has listed the empty log, and holds what it computed. */
  function ListedEmpty(q: Query): seq<Event> {
    [] + [LookUp(0, q, true)] + [List(0, 0)]
  }

  lemma {:induction false} AfterListedEmpty(c: Values, q: Query)
    requires Named(q)
    ensures After(c, ListedEmpty(q)) == START.(readers := map[0 := Holding(q, 0, Held(c(q, [], 0), 0))])
  {
    AfterOneMore(c, [], LookUp(0, q, true));
    AfterOneMore(c, [] + [LookUp(0, q, true)], List(0, 0));
    assert After(c, [LookUp(0, q, true)]) == START.(readers := map[0 := Missed(q, 0)]) by {
      assert [] + [LookUp(0, q, true)] == [LookUp(0, q, true)];
    }
  }

  /** A reader lists, an attempt is logged and its keys invalidated, then the reader stores what it listed. */
  function RaceEvents(q: Query, a: Attempt): seq<Event> {
    ListedEmpty(q) + [Append(a)] + [Invalidate(a, true)] + [Finish(0, true)]
  }

  /** The same without a race, but the delete fails. */
  function FailedEvents(q: Query, a: Attempt): seq<Event> {
    ListedEmpty(q) + [Finish(0, true)] + [Append(a)] + [Invalidate(a, false)]
  }

  /** The value of the empty log stays in the cache, and nothing is pending. */
  ghost predicate StuckWith(c: Values, st: State, q: Query, a: Attempt) {
    && st.log == [a] && st.pending == multiset{}
    && Key(q) in st.cache && st.cache[Key(q)] == Held(c(q, [], 0), 0)
  }

  lemma {:induction false} RaceSticks(c: Values, q: Query, a: Attempt)
    requires Named(q)
    ensures StuckWith(c, After(c, RaceEvents(q, a)), q, a)
  {
    var e2 := ListedEmpty(q);
    AfterListedEmpty(c, q);
    AfterOneMore(c, e2, Append(a));
    AfterOneMore(c, e2 + [Append(a)], Invalidate(a, true));
    AfterOneMore(c, e2 + [Append(a)] + [Invalidate(a, true)], Finish(0, true));
  }

  lemma {:induction false} FailureSticks(c: Values, q: Query, a: Attempt)
    requires Named(q)
    ensures StuckWith(c, After(c, FailedEvents(q, a)), q, a)
  {
    var e2 := ListedEmpty(q);
    AfterListedEmpty(c, q);
    AfterOneMore(c, e2, Finish(0, true));
    AfterOneMore(c, e2 + [Finish(0, true)], Append(a));
    AfterOneMore(c, e2 + [Finish(0, true)] + [Append(a)], Invalidate(a, false));
  }

  /** Both leave the service with a stale profile and nothing left to invalidate it. */
  lemma {:induction false} TheRace(a: Attempt)
    requires a.userID != "" && Tells(ForProfile(a.userID), a)
    ensures var q := ForProfile(a.userID);
      && StuckWith(SERVICE, After(SERVICE, RaceEvents(q, a)), q, a)
      && StuckWith(SERVICE, After(SERVICE, FailedEvents(q, a)), q, a)
      && !Reflects(SERVICE(q, [], 0), q, [a])
  {
    var q := ForProfile(a.userID);
    RaceSticks(SERVICE, q, a);
    FailureSticks(SERVICE, q, a);
    EmptyIsNotOne(q, a);
  }

  lemma {:induction false} EmptyIsNotOne(q: Query, a: Attempt)
    requires Concerns(a, q)
    ensures !Reflects(Compute(q, [], 0), q, [a])
  {
    var e := Compute(q, [], 0);
    ChangedByAppend(q, [], a, 0, UpdatedAt(e));
    assert [] + [a] == [a];
  }
}
