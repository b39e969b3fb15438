/**
 The Kafka consumer that turns evaluated attempts into recorded ones: fetch the next message, hand it to the handler,
 commit its offset if the handler succeeded. A failed message is passed over; a failed fetch or commit ends the loop;
 a restart resumes at the committed offsets. The broker's answers are the script of a session.
 */
module AttemptConsumer {
  import opened StatDomain
  import Stats = StatService

  /** A message decodes to an event, or not at all. */
  datatype Message = Garbled | Evaluated(userID: string, courseID: string, contentID: string, answer: string,
                                         isCorrect: bool, source: string)

  /** The topic: the messages of each partition. */
  type Topic = seq<seq<Message>>

  /** A commit succeeds, fails without effect, or takes effect although it reports an error. */
  datatype Commit = Committed | CommitLost | CommitUnacknowledged

  datatype Turn =
    | FetchFails
    | Deliver(partition: nat, env: Stats.Environment, commit: Commit)

  datatype Outcome = Recorded(attempt: Attempt) | Failed

  datatype Delivery = Delivery(partition: nat, offset: nat, outcome: Outcome)

  datatype Progress = Progress(committed: seq<nat>, position: seq<nat>, deliveries: seq<Delivery>, store: Stats.Store)

  // ---- One turn and one session, as functions of the state ----

  function AttemptFrom(m: Message): Attempt
    requires m.Evaluated?
  {
    Attempt("", m.userID, m.courseID, m.contentID, [], [], 0, m.answer, m.isCorrect, m.source, 0)
  }

  function Handled(m: Message, env: Stats.Environment): Outcome {
    if m.Garbled? then Failed
    else match Stats.Creation(AttemptFrom(m), env)
      case Ok(attempt) => Recorded(attempt)
      case Err(_) => Failed
  }

  function StoreAfter(store: Stats.Store, m: Message, env: Stats.Environment): Stats.Store {
    if m.Garbled? then store else Stats.AfterCreate(store, AttemptFrom(m), env)
  }

  ghost predicate Fits(topic: Topic, pr: Progress) {
    && |pr.committed| == |pr.position| == |topic|
    && forall p :: 0 <= p < |topic| ==> pr.committed[p] <= pr.position[p] <= |topic[p]|
  }

  /** Whether the turn fetches a message at all. */
  predicate Fetches(topic: Topic, pr: Progress, turn: Turn)
    requires |pr.position| == |topic|
  {
    turn.Deliver? && turn.partition < |topic| && pr.position[turn.partition] < |topic[turn.partition]|
  }

  function AfterTurn(topic: Topic, pr: Progress, turn: Turn): Progress
    requires Fits(topic, pr)
  {
    if !Fetches(topic, pr, turn) then pr
    else
      var p := turn.partition;
      var offset := pr.position[p];
      var outcome := Handled(topic[p][offset], turn.env);
      Progress(if outcome.Failed? || turn.commit.CommitLost? then pr.committed else pr.committed[p := offset + 1],
               pr.position[p := offset + 1],
               pr.deliveries + [Delivery(p, offset, outcome)],
               StoreAfter(pr.store, topic[p][offset], turn.env))
  }

  /** Whether the loop returns after the turn. */
  predicate Stops(topic: Topic, pr: Progress, turn: Turn)
    requires Fits(topic, pr)
  {
    !Fetches(topic, pr, turn)
    || (Handled(topic[turn.partition][pr.position[turn.partition]], turn.env).Recorded? && turn.commit != Committed)
  }

  lemma {:induction false} TurnFits(topic: Topic, pr: Progress, turn: Turn)
    requires Fits(topic, pr)
    ensures Fits(topic, AfterTurn(topic, pr, turn))
  {
  }

  function Session(topic: Topic, pr: Progress, script: seq<Turn>): Progress
    requires Fits(topic, pr)
    decreases |script|
  {
    if script == [] then pr
    else
      TurnFits(topic, pr, script[0]);
      var next := AfterTurn(topic, pr, script[0]);
      if Stops(topic, pr, script[0]) then next else Session(topic, next, script[1..])
  }

  // ---- The consumer ----

  class Consumer {
    const topic: Topic
    const service: Stats.StatisticService
    var committed: seq<nat>
    var position: seq<nat>
    var deliveries: seq<Delivery>

    ghost function State(): Progress
      reads this, service
    {
      Progress(committed, position, deliveries, service.State())
    }

    ghost predicate Valid()
      reads this, service
    {
      Fits(topic, State()) && service.Valid()
    }

    constructor (topic: Topic, service: Stats.StatisticService)
      requires service.Valid()
      ensures Valid() && this.topic == topic && this.service == service
      ensures State() == Start(topic, service.State())
    {
      this.topic, this.service := topic, service;
      committed, position := seq(|topic|, _ => 0), seq(|topic|, _ => 0);
      deliveries := [];
    }

    method Handle(m: Message, env: Stats.Environment) returns (outcome: Outcome)
      requires service.Valid()
      modifies service
      ensures service.Valid()
      ensures outcome == Handled(m, env) && service.State() == StoreAfter(old(service.State()), m, env)
    {
      if m.Garbled? {
        return Failed;
      }
      var created := service.CreateAttempt(AttemptFrom(m), env);
      match created
      case Ok(attempt) => return Recorded(attempt);
      case Err(_) => return Failed;
    }

    method Consume(script: seq<Turn>)
      requires Valid()
      modifies this, service
      ensures Valid()
      ensures State() == Session(topic, old(State()), script)
    {
      for i := 0 to |script|
        invariant Valid()
        invariant Session(topic, old(State()), script) == Session(topic, State(), script[i..])
      {
        var turn := script[i];
        ghost var before := State();
        assert script[i..][0] == turn && script[i..][1..] == script[i + 1..];
        TurnFits(topic, before, turn);
        if turn.FetchFails? || turn.partition >= |topic| || position[turn.partition] >= |topic[turn.partition]| {
          return;
        }
        var p := turn.partition;
        var offset := position[p];
        position := position[p := offset + 1];
        var outcome := Handle(topic[p][offset], turn.env);
        deliveries := deliveries + [Delivery(p, offset, outcome)];
        if outcome.Failed? {
          assert State() == AfterTurn(topic, before, turn);
          continue;
        }
        if turn.commit != CommitLost {
          committed := committed[p := offset + 1];
        }
        assert State() == AfterTurn(topic, before, turn);
        if turn.commit != Committed {
          return;
        }
      }
    }

    /** A new process resumes where the broker says the group has got to. */
    method Restart()
      requires Valid()
      modifies `position
      ensures Valid() && State() == Resumed(old(State()))
    {
      position := committed;
    }

    /** One process after the other, each with its own script of answers. */
    method Run(scripts: seq<seq<Turn>>)
      requires Valid()
      modifies this, service
      ensures Valid()
      ensures State() == Sessions(topic, old(State()), scripts)
    {
      for i := 0 to |scripts|
        invariant Valid()
        invariant Sessions(topic, old(State()), scripts) == Sessions(topic, State(), scripts[i..])
      {
        assert scripts[i..][0] == scripts[i] && scripts[i..][1..] == scripts[i + 1..];
        Restart();
        Consume(scripts[i]);
      }
    }
  }

  // ---- Many sessions ----

  function Start(topic: Topic, store: Stats.Store): Progress {
    Progress(seq(|topic|, _ => 0), seq(|topic|, _ => 0), [], store)
  }

  function Resumed(pr: Progress): Progress {
    pr.(position := pr.committed)
  }

  /** What holds after any number of sessions, however each of them ended. */
  ghost predicate Sound(topic: Topic, pr: Progress) {
    && Fits(topic, pr)
    && EverythingDelivered(pr)
    && RecordingsOf(pr.deliveries) == pr.store.log
    && (forall d :: d in pr.deliveries ==> Faithful(topic, d))
  }

  /** Every offset below the position was handed to the handler. */
  ghost predicate EverythingDelivered(pr: Progress) {
    forall p, offset :: 0 <= p < |pr.position| && 0 <= offset < pr.position[p] ==>
      WasDelivered(pr.deliveries, p, offset)
  }

  ghost predicate WasDelivered(deliveries: seq<Delivery>, p: nat, offset: nat) {
    exists d :: d in deliveries && d.partition == p && d.offset == offset
  }

  /** The attempts recorded, in order of delivery. */
  function RecordingsOf(deliveries: seq<Delivery>): seq<Attempt> {
    if deliveries == [] then []
    else
      var before, last := RecordingsOf(deliveries[..|deliveries| - 1]), deliveries[|deliveries| - 1];
      match last.outcome
      case Recorded(attempt) => before + [attempt]
      case Failed => before
  }

  /** A recorded attempt carries what its message says; a garbled message records nothing. */
  ghost predicate Faithful(topic: Topic, d: Delivery) {
    && d.partition < |topic| && d.offset < |topic[d.partition]|
    && (d.outcome.Recorded? ==>
      var m, a := topic[d.partition][d.offset], d.outcome.attempt;
      && m.Evaluated? && m.userID != "" && m.contentID != ""
      && a.userID == m.userID && a.courseID == m.courseID && a.contentID == m.contentID
      && a.answer == m.answer && a.isCorrect == m.isCorrect
      && a.source == (if m.source == "" then "practice" else m.source))
  }

  lemma {:induction false} StartIsSound(topic: Topic, store: Stats.Store)
    requires store.log == []
    ensures Sound(topic, Start(topic, store))
  {
  }

  lemma {:induction false} TurnDelivers(topic: Topic, pr: Progress, turn: Turn)
    requires Fits(topic, pr) && EverythingDelivered(pr)
    ensures EverythingDelivered(AfterTurn(topic, pr, turn))
  {
    var next := AfterTurn(topic, pr, turn);
    if Fetches(topic, pr, turn) {
      var last := next.deliveries[|pr.deliveries|];
      forall p, offset | 0 <= p < |next.position| && 0 <= offset < next.position[p]
        ensures WasDelivered(next.deliveries, p, offset)
      {
        if p == turn.partition && offset == pr.position[p] {
          assert last in next.deliveries;
        } else {
          assert WasDelivered(pr.deliveries, p, offset);
          var d :| d in pr.deliveries && d.partition == p && d.offset == offset;
          assert d in next.deliveries;
        }
      }
    }
  }

  lemma {:induction false} TurnIsSound(topic: Topic, pr: Progress, turn: Turn)
    requires Sound(topic, pr)
    ensures Sound(topic, AfterTurn(topic, pr, turn))
  {
    var next := AfterTurn(topic, pr, turn);
    TurnFits(topic, pr, turn);
    TurnDelivers(topic, pr, turn);
    if Fetches(topic, pr, turn) {
      assert next.deliveries[..|pr.deliveries|] == pr.deliveries;
      var last := next.deliveries[|pr.deliveries|];
      assert Faithful(topic, last);
      assert forall d :: d in next.deliveries ==> d in pr.deliveries || d == last;
    }
  }

  lemma {:induction false} SessionIsSound(topic: Topic, pr: Progress, script: seq<Turn>)
    requires Sound(topic, pr)
    ensures Sound(topic, Session(topic, pr, script))
    decreases |script|
  {
    if script != [] {
      TurnIsSound(topic, pr, script[0]);
      if !Stops(topic, pr, script[0]) {
        SessionIsSound(topic, AfterTurn(topic, pr, script[0]), script[1..]);
      }
    }
  }

  lemma {:induction false} SessionFits(topic: Topic, pr: Progress, script: seq<Turn>)
    requires Fits(topic, pr)
    ensures Fits(topic, Session(topic, pr, script))
    decreases |script|
  {
    if script != [] {
      TurnFits(topic, pr, script[0]);
      if !Stops(topic, pr, script[0]) {
        SessionFits(topic, AfterTurn(topic, pr, script[0]), script[1..]);
      }
    }
  }

  function Sessions(topic: Topic, pr: Progress, scripts: seq<seq<Turn>>): Progress
    requires Fits(topic, pr)
    decreases |scripts|
  {
    if scripts == [] then pr
    else
      SessionFits(topic, Resumed(pr), scripts[0]);
      Sessions(topic, Session(topic, Resumed(pr), scripts[0]), scripts[1..])
  }

  lemma {:induction false} SessionsAreSound(topic: Topic, pr: Progress, scripts: seq<seq<Turn>>)
    requires Sound(topic, pr)
    ensures Sound(topic, Sessions(topic, pr, scripts))
    decreases |scripts|
  {
    if scripts != [] {
      assert Sound(topic, Resumed(pr));
      SessionIsSound(topic, Resumed(pr), scripts[0]);
      SessionsAreSound(topic, Session(topic, Resumed(pr), scripts[0]), scripts[1..]);
    }
  }

  /**
   Over any sessions, failures and restarts: every offset below the committed one was handed to the handler, which
   recorded it faithfully or failed; and the log is exactly the recordings, in order of delivery.
   */
  lemma {:induction false} CommittedWasHandled(topic: Topic, store: Stats.Store, scripts: seq<seq<Turn>>, p: nat,
                                               offset: nat)
    requires store.log == [] && p < |topic|
    ensures var pr := Sessions(topic, Start(topic, store), scripts);
      && RecordingsOf(pr.deliveries) == pr.store.log
      && p < |pr.committed|
      && (offset < pr.committed[p] ==>
        exists d :: d in pr.deliveries && d.partition == p && d.offset == offset && Faithful(topic, d))
  {
    var pr := Sessions(topic, Start(topic, store), scripts);
    StartIsSound(topic, store);
    SessionsAreSound(topic, Start(topic, store), scripts);
    if offset < pr.committed[p] {
      assert WasDelivered(pr.deliveries, p, offset);
      var d :| d in pr.deliveries && d.partition == p && d.offset == offset;
      assert Faithful(topic, d);
    }
  }

  // ---- One session without a restart: each message once, in order ----

  function OffsetsOf(deliveries: seq<Delivery>, p: nat): seq<nat> {
    if deliveries == [] then []
    else
      var before, last := OffsetsOf(deliveries[..|deliveries| - 1], p), deliveries[|deliveries| - 1];
      if last.partition == p then before + [last.offset] else before
  }

  function UpTo(n: nat): (s: seq<nat>)
    ensures |s| == n && forall i :: 0 <= i < n ==> s[i] == i
  {
    seq(n, i => i)
  }

  ghost predicate OnceInOrder(topic: Topic, pr: Progress) {
    Fits(topic, pr) && forall p :: 0 <= p < |topic| ==> OffsetsOf(pr.deliveries, p) == UpTo(pr.position[p])
  }

  lemma {:induction false} TurnOnceInOrder(topic: Topic, pr: Progress, turn: Turn)
    requires OnceInOrder(topic, pr)
    ensures OnceInOrder(topic, AfterTurn(topic, pr, turn))
  {
    var next := AfterTurn(topic, pr, turn);
    TurnFits(topic, pr, turn);
    if Fetches(topic, pr, turn) {
      assert next.deliveries[..|pr.deliveries|] == pr.deliveries;
      forall p | 0 <= p < |topic| ensures OffsetsOf(next.deliveries, p) == UpTo(next.position[p]) {
        if p == turn.partition {
          assert UpTo(pr.position[p] + 1) == UpTo(pr.position[p]) + [pr.position[p]];
        }
      }
    }
  }

  /** From the start and without a restart, each partition's messages are delivered once each, in order. */
  lemma {:induction false} SessionOnceInOrder(topic: Topic, pr: Progress, script: seq<Turn>)
    requires OnceInOrder(topic, pr)
    ensures OnceInOrder(topic, Session(topic, pr, script))
    decreases |script|
  {
    if script != [] {
      TurnOnceInOrder(topic, pr, script[0]);
      if !Stops(topic, pr, script[0]) {
        SessionOnceInOrder(topic, AfterTurn(topic, pr, script[0]), script[1..]);
      }
    }
  }

  lemma {:induction false} FirstSession(topic: Topic, store: Stats.Store, script: seq<Turn>, p: nat)
    requires store.log == [] && p < |topic|
    ensures var pr := Session(topic, Start(topic, store), script);
      && |pr.position| == |topic|
      && OffsetsOf(pr.deliveries, p) == UpTo(pr.position[p])
      && pr.store.log == RecordingsOf(pr.deliveries)
  {
    StartIsSound(topic, store);
    SessionIsSound(topic, Start(topic, store), script);
    assert OnceInOrder(topic, Start(topic, store));
    SessionOnceInOrder(topic, Start(topic, store), script);
  }

  // ---- What a commit passes over ----

  /** All deliveries after the first n are at or beyond the given offsets. */
  ghost predicate NoneBelow(deliveries: seq<Delivery>, n: nat, floor: seq<nat>) {
    forall i :: n <= i < |deliveries| ==>
      deliveries[i].partition < |floor| && deliveries[i].offset >= floor[deliveries[i].partition]
  }

  ghost predicate Above(topic: Topic, pr: Progress, n: nat, floor: seq<nat>) {
    && Fits(topic, pr) && |floor| == |topic| && n <= |pr.deliveries|
    && (forall p :: 0 <= p < |topic| ==> floor[p] <= pr.committed[p])
    && NoneBelow(pr.deliveries, n, floor)
  }

  lemma {:induction false} SessionStaysAbove(topic: Topic, pr: Progress, script: seq<Turn>, n: nat, floor: seq<nat>)
    requires Above(topic, pr, n, floor)
    ensures Above(topic, Session(topic, pr, script), n, floor)
    decreases |script|
  {
    if script != [] {
      TurnFits(topic, pr, script[0]);
      assert Above(topic, AfterTurn(topic, pr, script[0]), n, floor);
      if !Stops(topic, pr, script[0]) {
        SessionStaysAbove(topic, AfterTurn(topic, pr, script[0]), script[1..], n, floor);
      }
    }
  }

  /**
   No later session ever delivers an offset below the one committed now: a message that failed and was passed over
   by a later commit is not seen again.
   */
  lemma {:induction false} PassedOverForGood(topic: Topic, pr: Progress, scripts: seq<seq<Turn>>, n: nat,
                                             floor: seq<nat>)
    requires Above(topic, pr, n, floor)
    ensures Above(topic, Sessions(topic, pr, scripts), n, floor)
    decreases |scripts|
  {
    if scripts != [] {
      assert Above(topic, Resumed(pr), n, floor);
      SessionStaysAbove(topic, Resumed(pr), scripts[0], n, floor);
      PassedOverForGood(topic, Session(topic, Resumed(pr), scripts[0]), scripts[1..], n, floor);
    }
  }

  /** Across a restart a message can be recorded twice: its commit was lost. */
  lemma {:induction false} LostCommitRecordsTwice(m: Message, env: Stats.Environment, store: Stats.Store)
    requires store.log == [] && Handled(m, env).Recorded?
    ensures Fits([[m]], Start([[m]], store))
    ensures var script := [Deliver(0, env, CommitLost)];
      var a := Handled(m, env).attempt;
      Sessions([[m]], Start([[m]], store), [script, script]).store.log == [a, a]
  {
    var topic, script := [[m]], [Deliver(0, env, CommitLost)];
    var start := Start(topic, store);
    var once := Session(topic, Resumed(start), script);
    assert Resumed(once).position == [0];
    var twice := Session(topic, Resumed(once), script);
    assert [script, script][1..] == [script] && [script][1..] == [];
    assert Sessions(topic, start, [script, script]) == Sessions(topic, once, [script]);
    assert Sessions(topic, once, [script]) == Sessions(topic, twice, []);
  }

  // ---- When a restart redelivers ----

  /** A partition is delivered without gaps: all offsets before a delivered one were delivered too. */
  ghost predicate Gapless(deliveries: seq<Delivery>) {
    forall d, offset :: d in deliveries && 0 <= offset < d.offset ==> WasDelivered(deliveries, d.partition, offset)
  }

  lemma {:induction false} DeliveredBefore(deliveries: seq<Delivery>, more: seq<Delivery>, p: nat, offset: nat)
    requires WasDelivered(deliveries, p, offset)
    ensures WasDelivered(deliveries + more, p, offset)
  {
    var d :| d in deliveries && d.partition == p && d.offset == offset;
    assert d in deliveries + more;
  }

  lemma {:induction false} TurnIsGapless(topic: Topic, pr: Progress, turn: Turn)
    requires Sound(topic, pr) && Gapless(pr.deliveries)
    ensures Gapless(AfterTurn(topic, pr, turn).deliveries)
  {
    if Fetches(topic, pr, turn) {
      var next := AfterTurn(topic, pr, turn);
      var last := next.deliveries[|pr.deliveries|];
      assert next.deliveries == pr.deliveries + [last];
      forall d, offset | d in next.deliveries && 0 <= offset < d.offset
        ensures WasDelivered(next.deliveries, d.partition, offset)
      {
        DeliveredBefore(pr.deliveries, [last], d.partition, offset);
      }
    }
  }

  lemma {:induction false} SessionIsGapless(topic: Topic, pr: Progress, script: seq<Turn>)
    requires Sound(topic, pr) && Gapless(pr.deliveries)
    ensures Gapless(Session(topic, pr, script).deliveries)
    decreases |script|
  {
    if script != [] {
      TurnIsSound(topic, pr, script[0]);
      TurnIsGapless(topic, pr, script[0]);
      if !Stops(topic, pr, script[0]) {
        SessionIsGapless(topic, AfterTurn(topic, pr, script[0]), script[1..]);
      }
    }
  }

  lemma {:induction false} SessionsAreGapless(topic: Topic, pr: Progress, scripts: seq<seq<Turn>>)
    requires Sound(topic, pr) && Gapless(pr.deliveries)
    ensures Gapless(Sessions(topic, pr, scripts).deliveries)
    decreases |scripts|
  {
    if scripts != [] {
      assert Sound(topic, Resumed(pr));
      SessionIsSound(topic, Resumed(pr), scripts[0]);
      SessionIsGapless(topic, Resumed(pr), scripts[0]);
      SessionsAreGapless(topic, Session(topic, Resumed(pr), scripts[0]), scripts[1..]);
    }
  }

  /** Nothing that `next` delivers beyond `pr` had been delivered by then. */
  ghost predicate NothingAgain(pr: Progress, next: Progress) {
    forall i :: |pr.deliveries| <= i < |next.deliveries| ==>
      !WasDelivered(pr.deliveries, next.deliveries[i].partition, next.deliveries[i].offset)
  }

  /** Every delivered message lies below the committed offset of its partition. */
  ghost predicate AllCommitted(pr: Progress) {
    forall d :: d in pr.deliveries ==> d.partition < |pr.committed| && d.offset < pr.committed[d.partition]
  }

  lemma {:induction false} CommittedIsNotRepeated(topic: Topic, pr: Progress, script: seq<Turn>)
    requires Fits(topic, pr) && AllCommitted(pr)
    ensures NothingAgain(pr, Session(topic, Resumed(pr), script))
  {
    assert Above(topic, Resumed(pr), |pr.deliveries|, pr.committed);
    SessionStaysAbove(topic, Resumed(pr), script, |pr.deliveries|, pr.committed);
  }

  /** The first message a new process fetches from partition p. */
  lemma {:induction false} FirstFetch(topic: Topic, pr: Progress, p: nat, env: Stats.Environment)
    requires Fits(topic, pr) && p < |topic| && pr.committed[p] < |topic[p]|
    ensures var next := Session(topic, Resumed(pr), [Deliver(p, env, Committed)]);
      && |next.deliveries| == |pr.deliveries| + 1
      && next.deliveries[|pr.deliveries|].partition == p && next.deliveries[|pr.deliveries|].offset == pr.committed[p]
  {
    var script := [Deliver(p, env, Committed)];
    assert script[1..] == [];
  }

  /**
   A restart redelivers nothing, whatever happens then, exactly when every message delivered before it lies below the
   committed offset - failed messages too, if a later commit passed over them.
   */
  lemma {:induction false} RestartRedelivers(topic: Topic, pr: Progress, env: Stats.Environment)
    requires Sound(topic, pr) && Gapless(pr.deliveries)
    ensures (forall script: seq<Turn> :: NothingAgain(pr, Session(topic, Resumed(pr), script))) <==> AllCommitted(pr)
  {
    if AllCommitted(pr) {
      forall script: seq<Turn> ensures NothingAgain(pr, Session(topic, Resumed(pr), script)) {
        CommittedIsNotRepeated(topic, pr, script);
      }
    } else {
      var d :| d in pr.deliveries && !(d.partition < |pr.committed| && d.offset < pr.committed[d.partition]);
      assert Faithful(topic, d);
      var p, script := d.partition, [Deliver(d.partition, env, Committed)];
      assert WasDelivered(pr.deliveries, p, pr.committed[p]);
      FirstFetch(topic, pr, p, env);
      assert !NothingAgain(pr, Session(topic, Resumed(pr), script));
    }
  }

  /** So after any sessions, failures and restarts. */
  lemma {:induction false} RestartInAnyRun(topic: Topic, store: Stats.Store, scripts: seq<seq<Turn>>,
                                           env: Stats.Environment)
    requires store.log == []
    ensures var pr := Sessions(topic, Start(topic, store), scripts);
      && Fits(topic, pr)
      && ((forall script: seq<Turn> :: NothingAgain(pr, Session(topic, Resumed(pr), script))) <==> AllCommitted(pr))
  {
    StartIsSound(topic, store);
    SessionsAreSound(topic, Start(topic, store), scripts);
    SessionsAreGapless(topic, Start(topic, store), scripts);
    RestartRedelivers(topic, Sessions(topic, Start(topic, store), scripts), env);
  }

  // ---- What is committed, and when a session goes on ----

  /** A message is recorded exactly when it names a user and a task, and metadata and log do not fail. */
  lemma {:induction false} RecordedIff(m: Message, env: Stats.Environment)
    ensures Handled(m, env).Recorded? <==>
      m.Evaluated? && m.userID != "" && m.contentID != "" && !env.metadata.ResolveFailed? && env.repoError.None?
  {
  }

  ghost predicate WasRecorded(deliveries: seq<Delivery>, p: nat, offset: nat) {
    exists d :: d in deliveries && d.partition == p && d.offset == offset && d.outcome.Recorded?
  }

  /** The last message below each committed offset was recorded. */
  ghost predicate CommitsRecorded(pr: Progress) {
    forall p :: 0 <= p < |pr.committed| && pr.committed[p] > 0 ==> WasRecorded(pr.deliveries, p, pr.committed[p] - 1)
  }

  lemma {:induction false} RecordedBefore(deliveries: seq<Delivery>, more: seq<Delivery>, p: nat, offset: nat)
    requires WasRecorded(deliveries, p, offset)
    ensures WasRecorded(deliveries + more, p, offset)
  {
    var d :| d in deliveries && d.partition == p && d.offset == offset && d.outcome.Recorded?;
    assert d in deliveries + more;
  }

  lemma {:induction false} TurnCommitsRecorded(topic: Topic, pr: Progress, turn: Turn)
    requires Fits(topic, pr) && CommitsRecorded(pr)
    ensures CommitsRecorded(AfterTurn(topic, pr, turn))
  {
    if Fetches(topic, pr, turn) {
      var next := AfterTurn(topic, pr, turn);
      var last := next.deliveries[|pr.deliveries|];
      assert next.deliveries == pr.deliveries + [last];
      forall p | 0 <= p < |next.committed| && next.committed[p] > 0
        ensures WasRecorded(next.deliveries, p, next.committed[p] - 1)
      {
        if next.committed[p] == pr.committed[p] {
          RecordedBefore(pr.deliveries, [last], p, pr.committed[p] - 1);
        } else {
          assert last in next.deliveries;
        }
      }
    }
  }

  lemma {:induction false} SessionCommitsRecorded(topic: Topic, pr: Progress, script: seq<Turn>)
    requires Fits(topic, pr) && CommitsRecorded(pr)
    ensures CommitsRecorded(Session(topic, pr, script))
    decreases |script|
  {
    if script != [] {
      TurnFits(topic, pr, script[0]);
      TurnCommitsRecorded(topic, pr, script[0]);
      if !Stops(topic, pr, script[0]) {
        SessionCommitsRecorded(topic, AfterTurn(topic, pr, script[0]), script[1..]);
      }
    }
  }

  lemma {:induction false} SessionsCommitRecorded(topic: Topic, pr: Progress, scripts: seq<seq<Turn>>)
    requires Fits(topic, pr) && CommitsRecorded(pr)
    ensures CommitsRecorded(Sessions(topic, pr, scripts))
    decreases |scripts|
  {
    if scripts != [] {
      assert CommitsRecorded(Resumed(pr));
      SessionFits(topic, Resumed(pr), scripts[0]);
      SessionCommitsRecorded(topic, Resumed(pr), scripts[0]);
      SessionsCommitRecorded(topic, Session(topic, Resumed(pr), scripts[0]), scripts[1..]);
    }
  }

  /** Over any sessions, failures and restarts: only recorded messages move the committed offset. */
  lemma {:induction false} OnlyRecordedCommit(topic: Topic, store: Stats.Store, scripts: seq<seq<Turn>>, p: nat)
    requires p < |topic|
    ensures var pr := Sessions(topic, Start(topic, store), scripts);
      p < |pr.committed| && (pr.committed[p] > 0 ==> WasRecorded(pr.deliveries, p, pr.committed[p] - 1))
  {
    assert CommitsRecorded(Start(topic, store));
    SessionsCommitRecorded(topic, Start(topic, store), scripts);
    SessionsFit(topic, Start(topic, store), scripts);
  }

  lemma {:induction false} SessionsFit(topic: Topic, pr: Progress, scripts: seq<seq<Turn>>)
    requires Fits(topic, pr)
    ensures Fits(topic, Sessions(topic, pr, scripts))
    decreases |scripts|
  {
    if scripts != [] {
      SessionFits(topic, Resumed(pr), scripts[0]);
      SessionsFit(topic, Session(topic, Resumed(pr), scripts[0]), scripts[1..]);
    }
  }

  /** Every delivery of partition p after the first n failed. */
  ghost predicate AllFailed(deliveries: seq<Delivery>, n: nat, p: nat) {
    forall i :: n <= i < |deliveries| && deliveries[i].partition == p ==> deliveries[i].outcome.Failed?
  }

  lemma {:induction false} DeliveriesGrow(topic: Topic, pr: Progress, script: seq<Turn>)
    requires Fits(topic, pr)
    ensures pr.deliveries <= Session(topic, pr, script).deliveries
    decreases |script|
  {
    if script != [] {
      TurnFits(topic, pr, script[0]);
      if !Stops(topic, pr, script[0]) {
        DeliveriesGrow(topic, AfterTurn(topic, pr, script[0]), script[1..]);
      }
    }
  }

  /** A session in which all messages of a partition failed commits nothing of it. */
  lemma {:induction false} FailuresCommitNothing(topic: Topic, pr: Progress, script: seq<Turn>, p: nat)
    requires Fits(topic, pr) && p < |topic| && AllFailed(Session(topic, pr, script).deliveries, |pr.deliveries|, p)
    ensures p < |Session(topic, pr, script).committed| && Session(topic, pr, script).committed[p] == pr.committed[p]
    decreases |script|
  {
    if script != [] {
      var turn, next := script[0], AfterTurn(topic, pr, script[0]);
      TurnFits(topic, pr, turn);
      if Stops(topic, pr, turn) {
        FailedTurn(topic, pr, turn, p);
      } else {
        DeliveriesGrow(topic, next, script[1..]);
        assert AllFailed(next.deliveries, |pr.deliveries|, p);
        FailedTurn(topic, pr, turn, p);
        FailuresCommitNothing(topic, next, script[1..], p);
      }
    }
  }

  lemma {:induction false} FailedTurn(topic: Topic, pr: Progress, turn: Turn, p: nat)
    requires Fits(topic, pr) && p < |topic| && AllFailed(AfterTurn(topic, pr, turn).deliveries, |pr.deliveries|, p)
    ensures AfterTurn(topic, pr, turn).committed[p] == pr.committed[p]
  {
    if Fetches(topic, pr, turn) {
      var next := AfterTurn(topic, pr, turn);
      assert next.deliveries[|pr.deliveries|].partition == turn.partition;
    }
  }

  /** A recorded message whose commit is acknowledged moves the committed offset just behind it. */
  lemma {:induction false} AcknowledgedCommit(topic: Topic, pr: Progress, p: nat, env: Stats.Environment)
    requires Fits(topic, pr) && p < |topic| && pr.position[p] < |topic[p]|
    requires Handled(topic[p][pr.position[p]], env).Recorded?
    ensures var next := Session(topic, pr, [Deliver(p, env, Committed)]);
      next.committed == pr.committed[p := pr.position[p] + 1] && next.position == pr.position[p := pr.position[p] + 1]
  {
    assert [Deliver(p, env, Committed)][1..] == [];
  }

  function Deliveries(p: nat, envs: seq<Stats.Environment>): (script: seq<Turn>)
    ensures |script| == |envs|
  {
    seq(|envs|, i requires 0 <= i < |envs| => Deliver(p, envs[i], Committed))
  }

  /** As long as messages come and commits work, the session goes on, whatever the handler does with them. */
  lemma {:induction false} SessionGoesOn(topic: Topic, pr: Progress, p: nat, envs: seq<Stats.Environment>)
    requires Fits(topic, pr) && p < |topic| && pr.position[p] + |envs| <= |topic[p]|
    ensures var next := Session(topic, pr, Deliveries(p, envs));
      |next.deliveries| == |pr.deliveries| + |envs| && next.position == pr.position[p := pr.position[p] + |envs|]
    decreases |envs|
  {
    if envs != [] {
      var script := Deliveries(p, envs);
      var next := AfterTurn(topic, pr, script[0]);
      TurnFits(topic, pr, script[0]);
      TurnGoesOn(topic, pr, p, envs[0]);
      assert script[1..] == Deliveries(p, envs[1..]);
      SessionGoesOn(topic, next, p, envs[1..]);
      assert Session(topic, pr, script) == Session(topic, next, script[1..]);
    }
  }

  lemma {:induction false} TurnGoesOn(topic: Topic, pr: Progress, p: nat, env: Stats.Environment)
    requires Fits(topic, pr) && p < |topic| && pr.position[p] < |topic[p]|
    ensures !Stops(topic, pr, Deliver(p, env, Committed))
    ensures var next := AfterTurn(topic, pr, Deliver(p, env, Committed));
      next.position == pr.position[p := pr.position[p] + 1] && |next.deliveries| == |pr.deliveries| + 1
  {
  }

  /** A failed fetch ends it, and so does a commit that reports an error. */
  lemma {:induction false} ErrorsEndTheSession(topic: Topic, pr: Progress, turn: Turn, rest: seq<Turn>)
    requires Fits(topic, pr)
    requires turn.FetchFails? || (Fetches(topic, pr, turn) && turn.commit != Committed
      && Handled(topic[turn.partition][pr.position[turn.partition]], turn.env).Recorded?)
    ensures Session(topic, pr, [turn] + rest) == Session(topic, pr, [turn])
    ensures turn.FetchFails? ==> Session(topic, pr, [turn]) == pr
  {
    assert ([turn] + rest)[0] == turn;
  }
}
