/**
 Building a recommended workbook, from the request to the sections: collect the weak tags, rank, select tasks, select
 theory, arrange, number. The scores of tags and topics and the calibrations are inputs.
 */
module Recommendation {
  import opened Outcomes
  import opened Orders
  import opened Permutations
  import opened Cosine
  import opened Weakness
  import opened Positions
  import opened Ranking
  import opened TaskSelection
  import Theories = TheorySelection
  import opened Workbook

  datatype Request = Request(userID: string, maxTasks: int, maxTheoryItems: int, vectorSize: int)

  /** What the other services know: tasks, theory, and how weak the user is at tags and topics. */
  datatype Library = Library(tasks: seq<RawTask>, theory: seq<Theories.Theory>, tagScores: Weights,
                             topicWeakness: Weights, calibrations: map<string, CalibrationInfo>, sqrt: real -> real)

  datatype Response = Response(vector: seq<TagNeed>, tasks: seq<RankedTask>, theory: seq<Theories.RankedTheory>,
                               items: seq<Item>, sections: seq<Section>)

  predicate Acceptable(request: Request) {
    request.userID != "" && request.maxTasks > 0 && request.maxTheoryItems >= 0
  }

  function NeedsOf(lib: Library, vector: seq<TagNeed>): Needs {
    Needs(WeakMap(vector), lib.topicWeakness, lib.calibrations)
  }

  ghost function Candidates(lib: Library, vector: seq<TagNeed>): seq<RankedTask> {
    ScoredTasks(lib.sqrt, NeedsOf(lib, vector), lib.tasks)
  }

  ghost function Blocks(lib: Library, tasks: seq<RankedTask>): seq<Theories.RankedTheory> {
    Theories.Relevant(lib.theory, Theories.TopicScores(tasks, lib.calibrations))
  }

  /** A sorted arrangement of the candidates. */
  ghost predicate IsRanking(ranked: seq<RankedTask>, candidates: seq<RankedTask>) {
    Sorted(Ranking.Before, ranked) && multiset(ranked) == multiset(candidates)
  }

  ghost predicate IsTheoryRanking(ranked: seq<Theories.RankedTheory>, blocks: seq<Theories.RankedTheory>) {
    Sorted(Theories.Before, ranked) && multiset(ranked) == multiset(blocks)
  }

  ghost predicate TasksChosen(candidates: seq<RankedTask>, maxTasks: nat, tasks: seq<RankedTask>)
    requires maxTasks >= 1
  {
    exists ranked :: IsRanking(ranked, candidates) && tasks == At(ranked, Chosen(ranked, maxTasks))
  }

  /** The blocks taken greedily from the best down. */
  function Taken(ranked: seq<Theories.RankedTheory>, limit: nat): seq<Theories.RankedTheory> {
    if limit == 0 then [] else At(ranked, Theories.Greedy(ranked, |ranked|, limit))
  }

  ghost predicate TheoryChosen(blocks: seq<Theories.RankedTheory>, limit: nat, chosen: seq<Theories.RankedTheory>) {
    exists ranked :: IsTheoryRanking(ranked, blocks) && chosen == Taken(ranked, limit)
  }

  /** `theory` shows the blocks chosen; without tasks no block has a positive score. */
  ghost predicate TheoryShown(blocks: seq<Theories.RankedTheory>, limit: nat, theory: seq<Theories.RankedTheory>) {
    exists chosen :: TheoryChosen(blocks, limit, chosen) && theory == Theories.ShownAll(chosen)
  }

  ghost predicate Built(lib: Library, request: Request, r: Response)
    requires Acceptable(request)
  {
    && IsVector(lib.tagScores, request.vectorSize, r.vector)
    && TasksChosen(Candidates(lib, r.vector), request.maxTasks, r.tasks)
    && TheoryShown(Blocks(lib, r.tasks), request.maxTheoryItems, r.theory)
    && Arranged(r)
  }

  ghost predicate Arranged(r: Response) {
    && Shows(r.items, r.theory, r.tasks, Slots(r.theory, r.tasks))
    && TotalPreorder(ByOrder)
    && r.sections == SectionsFor(LayoutOf(r.theory, r.tasks), Sort(ByOrder, r.items))
  }

  method BuildWorkbook(lib: Library, request: Request) returns (r: Result<Response>)
    ensures r.Ok? <==> request.userID != "" && request.maxTasks > 0 && request.maxTheoryItems >= 0
    ensures r.Ok? ==> Built(lib, request, r.value)
  {
    if request.userID == "" {
      return Err("user_id is required");
    }
    if request.maxTasks <= 0 {
      return Err("max_tasks must be positive");
    }
    if request.maxTheoryItems < 0 {
      return Err("max_theory_items must be non-negative");
    }
    var vector := BuildVector(lib.tagScores, request.vectorSize);
    var tasks := ChooseTasks(lib, vector, request.maxTasks);
    var theory := ChooseTheory(lib, tasks, request.maxTheoryItems);
    var items := BuildItems(theory, tasks);
    var sections := BuildSections(items, theory, tasks);
    return Ok(Response(vector, tasks, theory, items, sections));
  }

  method ChooseTasks(lib: Library, vector: seq<TagNeed>, maxTasks: nat) returns (tasks: seq<RankedTask>)
    requires maxTasks >= 1
    ensures TasksChosen(Candidates(lib, vector), maxTasks, tasks)
  {
    var ranked := RankTasks(lib.sqrt, NeedsOf(lib, vector), lib.tasks);
    tasks := SelectTasks(ranked, maxTasks);
    assert IsRanking(ranked, Candidates(lib, vector));
  }

  method ChooseTheory(lib: Library, tasks: seq<RankedTask>, limit: nat) returns (theory: seq<Theories.RankedTheory>)
    ensures TheoryShown(Blocks(lib, tasks), limit, theory)
  {
    ghost var ranked;
    theory, ranked := Theories.SelectTheory(lib.theory, tasks, lib.calibrations, limit);
    if limit == 0 || tasks == [] {
      if tasks == [] { NoTasksNoBlocks(lib.theory); }
      ranked := SortBlocks(Blocks(lib, tasks));
    }
    assert IsTheoryRanking(ranked, Blocks(lib, tasks));
    assert TheoryChosen(Blocks(lib, tasks), limit, Taken(ranked, limit));
    assert theory == Theories.ShownAll(Taken(ranked, limit));
  }

  ghost function SortBlocks(blocks: seq<Theories.RankedTheory>): (ranked: seq<Theories.RankedTheory>)
    ensures IsTheoryRanking(ranked, blocks)
  {
    Theories.BeforeIsTotalPreorder();
    Sort(Theories.Before, blocks)
  }

  lemma {:induction false} NoScore(topicIDs: seq<string>)
    ensures Theories.ScoreOf(map[], topicIDs) == 0.0
  {
    if topicIDs != [] {
      NoScore(topicIDs[..|topicIDs| - 1]);
    }
  }

  lemma {:induction false} NoTasksNoBlocks(theory: seq<Theories.Theory>)
    ensures Theories.Relevant(theory, map[]) == []
  {
    if theory != [] {
      NoTasksNoBlocks(theory[..|theory| - 1]);
      NoScore(NamedTopics(theory[|theory| - 1].topicIDs));
    }
  }

  // ---- Distinct ids survive the whole way ----

  /** No id is given twice; tasks without an id are dropped and may be many. */
  ghost predicate DistinctInputs(lib: Library) {
    && (forall i, j :: 0 <= i < j < |lib.tasks| && lib.tasks[i].id != "" ==> lib.tasks[i].id != lib.tasks[j].id)
    && (forall i, j :: 0 <= i < j < |lib.theory| ==> lib.theory[i].id != lib.theory[j].id)
  }

  lemma {:induction false} ScoredHaveSource(sqrt: real -> real, needs: Needs, tasks: seq<RawTask>, k: nat)
    returns (i: nat)
    requires k < |ScoredTasks(sqrt, needs, tasks)|
    ensures i < |tasks| && tasks[i].id == ScoredTasks(sqrt, needs, tasks)[k].id != ""
  {
    var n := |tasks| - 1;
    if k < |ScoredTasks(sqrt, needs, tasks[..n])| {
      i := ScoredHaveSource(sqrt, needs, tasks[..n], k);
    } else {
      i := n;
    }
  }

  lemma {:induction false} CandidatesDistinct(sqrt: real -> real, needs: Needs, tasks: seq<RawTask>)
    requires forall i, j :: 0 <= i < j < |tasks| && tasks[i].id != "" ==> tasks[i].id != tasks[j].id
    ensures DistinctIDs(ScoredTasks(sqrt, needs, tasks))
  {
    if tasks != [] {
      var before := ScoredTasks(sqrt, needs, tasks[..|tasks| - 1]);
      CandidatesDistinct(sqrt, needs, tasks[..|tasks| - 1]);
      forall k | 0 <= k < |before| ensures before[k].id != tasks[|tasks| - 1].id {
        var i := ScoredHaveSource(sqrt, needs, tasks[..|tasks| - 1], k);
      }
    }
  }

  lemma {:induction false} RelevantHaveSource(theory: seq<Theories.Theory>, scores: map<string, real>, k: nat)
    returns (i: nat)
    requires k < |Theories.Relevant(theory, scores)|
    ensures i < |theory| && theory[i].id == Theories.Relevant(theory, scores)[k].id
  {
    var n := |theory| - 1;
    if k < |Theories.Relevant(theory[..n], scores)| {
      i := RelevantHaveSource(theory[..n], scores, k);
    } else {
      i := n;
    }
  }

  lemma {:induction false} RelevantDistinct(theory: seq<Theories.Theory>, scores: map<string, real>)
    requires forall i, j :: 0 <= i < j < |theory| ==> theory[i].id != theory[j].id
    ensures DistinctTheory(Theories.Relevant(theory, scores))
  {
    if theory != [] {
      var before := Theories.Relevant(theory[..|theory| - 1], scores);
      RelevantDistinct(theory[..|theory| - 1], scores);
      forall k | 0 <= k < |before| ensures before[k].id != theory[|theory| - 1].id {
        var i := RelevantHaveSource(theory[..|theory| - 1], scores, k);
      }
    }
  }

  /** Whatever two elements of a list without repetition satisfy, two elements of a reordering do. */
  lemma {:induction false} RankingDistinct(s: seq<RankedTask>, ranked: seq<RankedTask>)
    requires DistinctIDs(s) && multiset(ranked) == multiset(s)
    ensures DistinctIDs(ranked) && |ranked| == |s|
  {
    var p := EqualMultisetsArrange(ranked, s);
    forall i, j | 0 <= i < j < |ranked| ensures ranked[i].id != ranked[j].id {
      assert p[i] != p[j] && ranked[i] == s[p[i]] && ranked[j] == s[p[j]];
    }
  }

  lemma {:induction false} BlockRankingDistinct(s: seq<Theories.RankedTheory>, ranked: seq<Theories.RankedTheory>)
    requires DistinctTheory(s) && multiset(ranked) == multiset(s)
    ensures DistinctTheory(ranked)
  {
    var p := EqualMultisetsArrange(ranked, s);
    forall i, j | 0 <= i < j < |ranked| ensures ranked[i].id != ranked[j].id {
      assert p[i] != p[j] && ranked[i] == s[p[i]] && ranked[j] == s[p[j]];
    }
  }

  lemma {:induction false} CandidatesDistinctIn(lib: Library, vector: seq<TagNeed>)
    requires DistinctInputs(lib)
    ensures DistinctIDs(Candidates(lib, vector))
  {
    CandidatesDistinct(lib.sqrt, NeedsOf(lib, vector), lib.tasks);
  }

  lemma {:induction false} BlocksDistinct(lib: Library, tasks: seq<RankedTask>)
    requires DistinctInputs(lib)
    ensures DistinctTheory(Blocks(lib, tasks))
  {
    RelevantDistinct(lib.theory, Theories.TopicScores(tasks, lib.calibrations));
  }

  lemma {:induction false} ChosenTasksDistinct(candidates: seq<RankedTask>, maxTasks: nat, tasks: seq<RankedTask>)
    requires DistinctIDs(candidates) && maxTasks >= 1 && TasksChosen(candidates, maxTasks, tasks)
    ensures DistinctIDs(tasks) && |tasks| == Least(|candidates|, maxTasks)
    ensures forall t :: t in tasks ==> t in candidates
  {
    var ranked :| IsRanking(ranked, candidates) && tasks == At(ranked, Chosen(ranked, maxTasks));
    RankingDistinct(candidates, ranked);
    ChoiceSize(ranked, maxTasks);
    var chosen := Chosen(ranked, maxTasks);
    forall k, l | 0 <= k < l < |tasks| ensures tasks[k].id != tasks[l].id {
      assert chosen[k] != chosen[l] && tasks[k] == ranked[chosen[k]] && tasks[l] == ranked[chosen[l]];
    }
    forall t | t in tasks ensures t in candidates {
      assert t in multiset(ranked);
    }
  }

  /** In a ranking with distinct ids, the better-ranked task stands at the smaller position. */
  lemma {:induction false} BetterIsEarlier(ranked: seq<RankedTask>, i: nat, j: nat)
    requires Sorted(Ranking.Before, ranked) && DistinctIDs(ranked) && i < |ranked| && j < |ranked| && i != j
    ensures Better(ranked[i], ranked[j]) <==> i < j
  {
    StringLeTotal(ranked[i].id, ranked[j].id);
    if i < j {
      assert Ranking.Before(ranked[i], ranked[j]);
    } else {
      assert Ranking.Before(ranked[j], ranked[i]);
    }
  }

  /** A higher score, or the same score and a smaller id. */
  predicate Better(x: RankedTask, y: RankedTask) {
    x.score > y.score || (x.score == y.score && StringLe(x.id, y.id))
  }

  predicate BetterBlock(x: Theories.RankedTheory, y: Theories.RankedTheory) {
    x.score > y.score || (x.score == y.score && StringLe(x.id, y.id))
  }

  /** Two selected tasks with the primary topic of `t`, neither scored lower. */
  ghost predicate CrowdedOut(t: RankedTask, tasks: seq<RankedTask>) {
    exists a, b :: 0 <= a < |tasks| && 0 <= b < |tasks| && tasks[a].id != tasks[b].id
      && Better(tasks[a], t) && Better(tasks[b], t)
      && Primary(tasks[a]) == Primary(tasks[b]) == Primary(t) != ""
  }

  /** A candidate left out for a worse one was crowded out by its primary topic. */
  lemma {:induction false} LeftOutTask(candidates: seq<RankedTask>, maxTasks: nat, tasks: seq<RankedTask>,
                                       t: RankedTask, u: RankedTask)
    requires DistinctIDs(candidates) && maxTasks >= 1 && TasksChosen(candidates, maxTasks, tasks)
    requires t in candidates && t !in tasks && u in tasks && Better(t, u)
    ensures CrowdedOut(t, tasks)
  {
    var ranked :| IsRanking(ranked, candidates) && tasks == At(ranked, Chosen(ranked, maxTasks));
    RankingDistinct(candidates, ranked);
    assert t in multiset(ranked);
    var i :| 0 <= i < |ranked| && ranked[i] == t;
    var l :| 0 <= l < |tasks| && tasks[l] == u;
    AtMember(ranked, Chosen(ranked, maxTasks), i);
    LeftOutTaskAt(ranked, maxTasks, i, l);
  }

  lemma {:induction false} LeftOutTaskAt(ranked: seq<RankedTask>, maxTasks: nat, i: nat, l: nat)
    requires Sorted(Ranking.Before, ranked) && DistinctIDs(ranked) && maxTasks >= 1 && i < |ranked|
    requires i !in Chosen(ranked, maxTasks) && l < |Chosen(ranked, maxTasks)|
    requires Better(ranked[i], ranked[Chosen(ranked, maxTasks)[l]])
    ensures CrowdedOut(ranked[i], At(ranked, Chosen(ranked, maxTasks)))
  {
    var chosen := Chosen(ranked, maxTasks);
    var j := chosen[l];
    BetterIsEarlier(ranked, i, j);
    LeftOutForTopic(ranked, maxTasks, i, j);
    TwoCrowd(ranked, chosen, i);
  }

  lemma {:induction false} TwoCrowd(ranked: seq<RankedTask>, chosen: seq<nat>, i: nat)
    requires Sorted(Ranking.Before, ranked) && DistinctIDs(ranked) && Below(chosen, |ranked|) && i < |ranked|
    requires TwoBetter(ranked, chosen, i)
    ensures CrowdedOut(ranked[i], At(ranked, chosen))
  {
    var a, b :| 0 <= a < b < i && a in chosen && b in chosen
                && Primary(ranked[a]) == Primary(ranked[b]) == Primary(ranked[i]) != "";
    var k :| 0 <= k < |chosen| && chosen[k] == a;
    var m :| 0 <= m < |chosen| && chosen[m] == b;
    var tasks := At(ranked, chosen);
    assert tasks[k] == ranked[a] && tasks[m] == ranked[b];
    BetterIsEarlier(ranked, a, i);
    BetterIsEarlier(ranked, b, i);
  }

  // ---- Theory ----

  lemma {:induction false} GreedyAscends(ranked: seq<Theories.RankedTheory>, n: nat, limit: nat)
    requires n <= |ranked| && limit >= 1
    ensures Ascending(Theories.Greedy(ranked, n, limit))
  {
    if n > 0 {
      GreedyAscends(ranked, n - 1, limit);
    }
  }

  ghost predicate DisjointTopics(theory: seq<Theories.RankedTheory>) {
    forall k, l :: 0 <= k < l < |theory| ==> Theories.Topics(theory[k]) * Theories.Topics(theory[l]) == {}
  }

  lemma {:induction false} ChosenTheoryDistinct(blocks: seq<Theories.RankedTheory>, limit: nat,
                                                chosen: seq<Theories.RankedTheory>)
    requires DistinctTheory(blocks) && TheoryChosen(blocks, limit, chosen)
    ensures DistinctTheory(chosen) && |chosen| <= limit && DisjointTopics(chosen)
    ensures forall b :: b in chosen ==> b in blocks
  {
    var ranked :| IsTheoryRanking(ranked, blocks) && chosen == Taken(ranked, limit);
    if limit > 0 {
      BlockRankingDistinct(blocks, ranked);
      GreedyAscends(ranked, |ranked|, limit);
      Theories.ChosenAreDisjoint(ranked, |ranked|, limit);
      var positions := Theories.Greedy(ranked, |ranked|, limit);
      forall k, l | 0 <= k < l < |chosen| ensures chosen[k].id != chosen[l].id {
        assert positions[k] < positions[l] && chosen[k] == ranked[positions[k]] && chosen[l] == ranked[positions[l]];
      }
      forall b | b in chosen ensures b in blocks {
        assert b in multiset(ranked);
      }
    }
  }

  /** A chosen block, not scored lower than `b`, that shares a topic with it. */
  ghost predicate OverlappedBy(b: Theories.RankedTheory, chosen: seq<Theories.RankedTheory>) {
    exists k :: 0 <= k < |chosen| && BetterBlock(chosen[k], b)
      && Theories.Topics(chosen[k]) * Theories.Topics(b) != {}
  }

  /** All places are taken by blocks not scored lower than `b`. */
  ghost predicate TooLate(b: Theories.RankedTheory, limit: nat, chosen: seq<Theories.RankedTheory>) {
    |chosen| == limit && forall k :: 0 <= k < |chosen| ==> BetterBlock(chosen[k], b)
  }

  /** A block with a positive score that is left out overlaps a better one that was chosen, or came too late. */
  lemma {:induction false} LeftOutBlock(blocks: seq<Theories.RankedTheory>, limit: nat,
                                        chosen: seq<Theories.RankedTheory>, b: Theories.RankedTheory)
    requires TheoryChosen(blocks, limit, chosen) && b in blocks && b !in chosen
    ensures OverlappedBy(b, chosen) || TooLate(b, limit, chosen)
  {
    var ranked :| IsTheoryRanking(ranked, blocks) && chosen == Taken(ranked, limit);
    if limit > 0 {
      assert b in multiset(ranked);
      var i :| 0 <= i < |ranked| && ranked[i] == b;
      LeftOutAt(ranked, limit, i);
    }
  }

  lemma {:induction false} LeftOutAt(ranked: seq<Theories.RankedTheory>, limit: nat, i: nat)
    requires Sorted(Theories.Before, ranked) && limit > 0 && i < |ranked| && ranked[i] !in Taken(ranked, limit)
    ensures OverlappedBy(ranked[i], Taken(ranked, limit)) || TooLate(ranked[i], limit, Taken(ranked, limit))
  {
    var positions := Theories.Greedy(ranked, |ranked|, limit);
    var chosen := Taken(ranked, limit);
    AtMember(ranked, positions, i);
    Theories.LeftOutForOverlap(ranked, limit, i);
    if Theories.Overlapped(ranked, positions, i) {
      var a :| 0 <= a < i && a in positions && Theories.Topics(ranked[a]) * Theories.Topics(ranked[i]) != {};
      var k :| 0 <= k < |positions| && positions[k] == a;
      assert chosen[k] == ranked[a] && Theories.Before(ranked[a], ranked[i]);
      assert OverlappedBy(ranked[i], chosen);
    } else {
      Theories.FullStaysFull(ranked, i, |ranked|, limit);
      forall k | 0 <= k < |chosen| ensures BetterBlock(chosen[k], ranked[i]) {
        assert chosen[k] == ranked[positions[k]] && positions[k] < i;
        assert Theories.Before(ranked[positions[k]], ranked[i]);
      }
    }
  }

  // ---- The items, without talk of slots ----

  /** Some item shows the content: its kind, id, title and topics. */
  ghost predicate Mentions(items: seq<Item>, kind: Kind, id: string, title: string, topicIDs: seq<string>) {
    exists j :: 0 <= j < |items| && items[j].kind == kind && items[j].contentID == id
      && items[j].title == title && items[j].topicIDs == topicIDs
  }

  /** Orders run from 1; every selected task and block is listed; no content is listed twice. */
  ghost predicate ListsEachOnce(items: seq<Item>, theory: seq<Theories.RankedTheory>, tasks: seq<RankedTask>) {
    && (forall j :: 0 <= j < |items| ==> items[j].order == j + 1)
    && (forall k :: 0 <= k < |tasks| ==> Mentions(items, TaskKind, tasks[k].id, tasks[k].title, tasks[k].topicIDs))
    && (forall i :: 0 <= i < |theory| ==>
          Mentions(items, TheoryKind, theory[i].id, theory[i].title, theory[i].topicIDs))
    && (forall a, b :: 0 <= a < b < |items| && items[a].kind == items[b].kind ==>
      items[a].contentID != items[b].contentID)
  }

  lemma {:induction false} SlotIsListed(items: seq<Item>, theory: seq<Theories.RankedTheory>, tasks: seq<RankedTask>,
                                        slots: seq<Slot>, slot: Slot)
    requires Shows(items, theory, tasks, slots) && slot in slots && InRange(slot, |theory|, |tasks|)
    ensures match slot
      case TheorySlot(i) => Mentions(items, TheoryKind, theory[i].id, theory[i].title, theory[i].topicIDs)
      case TaskSlot(k) => Mentions(items, TaskKind, tasks[k].id, tasks[k].title, tasks[k].topicIDs)
  {
    var j :| 0 <= j < |slots| && slots[j] == slot;
    assert items[j] == ItemAt(theory, tasks, slots[j], j + 1);
  }

  lemma {:induction false} ItemsListEachOnce(items: seq<Item>, theory: seq<Theories.RankedTheory>,
                                             tasks: seq<RankedTask>)
    requires DistinctIDs(tasks) && DistinctTheory(theory) && Shows(items, theory, tasks, Slots(theory, tasks))
    ensures ListsEachOnce(items, theory, tasks)
  {
    var slots := Slots(theory, tasks);
    WorkbookIsComplete(theory, tasks);
    forall k | 0 <= k < |tasks| ensures Mentions(items, TaskKind, tasks[k].id, tasks[k].title, tasks[k].topicIDs) {
      SlotIsListed(items, theory, tasks, slots, TaskSlot(k));
    }
    forall i | 0 <= i < |theory|
      ensures Mentions(items, TheoryKind, theory[i].id, theory[i].title, theory[i].topicIDs)
    {
      SlotIsListed(items, theory, tasks, slots, TheorySlot(i));
    }
    forall a, b | 0 <= a < b < |items| && items[a].kind == items[b].kind
      ensures items[a].contentID != items[b].contentID
    {
      InOrderIsDistinct(|theory|, Homes(theory, tasks), slots, a, b);
      assert items[a] == ItemAt(theory, tasks, slots[a], a + 1) && items[b] == ItemAt(theory, tasks, slots[b], b + 1);
    }
  }

  /**
   Every task stands behind exactly the blocks up to its home, the first block it shares a topic with, and so in that
   block's group; a task that shares none stands behind all blocks.
   */
  ghost predicate Grouped(items: seq<Item>, theory: seq<Theories.RankedTheory>, tasks: seq<RankedTask>) {
    forall a, b, i, k ::
      && 0 <= a < |items| && 0 <= b < |items| && 0 <= i < |theory| && 0 <= k < |tasks|
      && items[a].kind == TheoryKind && items[a].contentID == theory[i].id
      && items[b].kind == TaskKind && items[b].contentID == tasks[k].id
      ==> (a < b <==> i <= Home(theory, tasks[k]))
  }

  lemma {:induction false} SlotOfItem(items: seq<Item>, theory: seq<Theories.RankedTheory>, tasks: seq<RankedTask>,
                                      slots: seq<Slot>, j: nat, slot: Slot)
    requires DistinctIDs(tasks) && DistinctTheory(theory) && Shows(items, theory, tasks, slots) && j < |items|
    requires InRange(slot, |theory|, |tasks|) && items[j].kind == ItemAt(theory, tasks, slot, 0).kind
    requires items[j].contentID == ItemAt(theory, tasks, slot, 0).contentID
    ensures slots[j] == slot
  {
    assert items[j] == ItemAt(theory, tasks, slots[j], j + 1);
  }

  lemma {:induction false} BehindItsHome(homes: seq<nat>, blocks: nat, slots: seq<Slot>, a: nat, b: nat)
    requires InOrder(blocks, homes, slots) && a < |slots| && b < |slots|
    requires slots[a].TheorySlot? && slots[b].TaskSlot? && slots[b].k < |homes|
    ensures a < b <==> slots[a].i <= homes[slots[b].k]
  {
    if a < b {
      assert Precedes(homes, slots[a], slots[b]);
    } else {
      assert Precedes(homes, slots[b], slots[a]);
    }
  }

  lemma {:induction false} ItemsAreGrouped(items: seq<Item>, theory: seq<Theories.RankedTheory>, tasks: seq<RankedTask>)
    requires DistinctIDs(tasks) && DistinctTheory(theory) && Shows(items, theory, tasks, Slots(theory, tasks))
    ensures Grouped(items, theory, tasks)
  {
    WorkbookIsComplete(theory, tasks);
    SlotsGroupItems(items, theory, tasks, Slots(theory, tasks));
  }

  lemma {:induction false} SlotsGroupItems(items: seq<Item>, theory: seq<Theories.RankedTheory>,
                                           tasks: seq<RankedTask>, slots: seq<Slot>)
    requires DistinctIDs(tasks) && DistinctTheory(theory) && Shows(items, theory, tasks, slots)
    requires InOrder(|theory|, Homes(theory, tasks), slots)
    ensures Grouped(items, theory, tasks)
  {
    forall a, b, i, k |
      && 0 <= a < |items| && 0 <= b < |items| && 0 <= i < |theory| && 0 <= k < |tasks|
      && items[a].kind == TheoryKind && items[a].contentID == theory[i].id
      && items[b].kind == TaskKind && items[b].contentID == tasks[k].id
      ensures a < b <==> i <= Home(theory, tasks[k])
    {
      SlotOfItem(items, theory, tasks, slots, a, TheorySlot(i));
      SlotOfItem(items, theory, tasks, slots, b, TaskSlot(k));
      BehindItsHome(Homes(theory, tasks), |theory|, slots, a, b);
    }
  }

  /** The layout of a response: every selection once, in its group, and the sections numbered through. */
  ghost predicate WellLaidOut(r: Response) {
    && ListsEachOnce(r.items, r.theory, r.tasks) && Grouped(r.items, r.theory, r.tasks)
    && Follow(r.sections, r.theory, r.tasks, Slots(r.theory, r.tasks)) && TaskSections(r.sections) == |r.tasks|
  }

  lemma {:induction false} ArrangedIsWellLaidOut(r: Response)
    requires DistinctIDs(r.tasks) && DistinctTheory(r.theory) && Arranged(r)
    ensures WellLaidOut(r)
  {
    ItemsListEachOnce(r.items, r.theory, r.tasks);
    ItemsAreGrouped(r.items, r.theory, r.tasks);
    LatexFollowsWorkbook(r.theory, r.tasks, r.items);
  }

  /** The selected tasks: as many as asked for or all there are, and a reason for each candidate passed over. */
  ghost predicate WellChosen(candidates: seq<RankedTask>, maxTasks: nat, tasks: seq<RankedTask>) {
    && DistinctIDs(tasks) && |tasks| == Least(|candidates|, maxTasks)
    && (forall t :: t in tasks ==> t in candidates && 0.0 <= t.score <= 1.0)
    && (forall t, u :: t in candidates && t !in tasks && u in tasks && Better(t, u) ==> CrowdedOut(t, tasks))
  }

  lemma {:induction false} TasksAreWellChosen(lib: Library, vector: seq<TagNeed>, maxTasks: nat, tasks: seq<RankedTask>)
    requires DistinctInputs(lib) && maxTasks >= 1 && TasksChosen(Candidates(lib, vector), maxTasks, tasks)
    ensures WellChosen(Candidates(lib, vector), maxTasks, tasks)
  {
    var candidates := Candidates(lib, vector);
    CandidatesDistinctIn(lib, vector);
    ChosenTasksDistinct(candidates, maxTasks, tasks);
    RankedScoresInUnit(lib.sqrt, NeedsOf(lib, vector), lib.tasks);
    forall t, u | t in candidates && t !in tasks && u in tasks && Better(t, u) ensures CrowdedOut(t, tasks) {
      LeftOutTask(candidates, maxTasks, tasks, t, u);
    }
  }

  /** The selected blocks: few enough, disjoint, of positive score, and a reason for each block passed over. */
  ghost predicate WellCovered(blocks: seq<Theories.RankedTheory>, limit: nat, chosen: seq<Theories.RankedTheory>) {
    && DistinctTheory(chosen) && |chosen| <= limit && DisjointTopics(chosen)
    && (forall b :: b in chosen ==> b in blocks && b.score > 0.0)
    && (forall b :: b in blocks && b !in chosen ==> OverlappedBy(b, chosen) || TooLate(b, limit, chosen))
  }

  lemma {:induction false} TheoryIsWellCovered(lib: Library, tasks: seq<RankedTask>, limit: nat,
                                               chosen: seq<Theories.RankedTheory>)
    requires DistinctInputs(lib) && TheoryChosen(Blocks(lib, tasks), limit, chosen)
    ensures WellCovered(Blocks(lib, tasks), limit, chosen)
  {
    var blocks := Blocks(lib, tasks);
    BlocksDistinct(lib, tasks);
    ChosenTheoryDistinct(blocks, limit, chosen);
    Theories.RelevantIsPositive(lib.theory, Theories.TopicScores(tasks, lib.calibrations));
    forall b | b in blocks && b !in chosen ensures OverlappedBy(b, chosen) || TooLate(b, limit, chosen) {
      LeftOutBlock(blocks, limit, chosen, b);
    }
  }

  lemma {:induction false} ShownStayDistinct(chosen: seq<Theories.RankedTheory>)
    requires DistinctTheory(chosen)
    ensures DistinctTheory(Theories.ShownAll(chosen))
  {
  }

  /** No clamp touches the similarity of any task: the vector holds only positive scores. */
  lemma {:induction false} SimilaritiesArePlain(lib: Library, limit: int, vector: seq<TagNeed>, task: RawTask)
    requires IsSqrt(lib.sqrt) && IsVector(lib.tagScores, limit, vector)
    ensures var weak, weights := WeakMap(vector), TaskTagWeights(task.tags, InfoOf(lib.calibrations, task.id));
      Similarity(lib.sqrt, NeedsOf(lib, vector), task)
        == PlainCosine(weak, weights, lib.sqrt(SquareSum(weak)), lib.sqrt(SquareSum(weights)))
  {
    WeaknessIsPositive(lib.tagScores, limit, vector);
    SimilarityIsUnclamped(lib.sqrt, NeedsOf(lib, vector), task);
  }

  /**
   Given tasks and theory with distinct ids, a built workbook has well-chosen tasks, shows well-chosen blocks, and is
   laid out well: each of them once, in its group, the task sections numbered 1 to the last.
   */
  lemma {:induction false} WorkbookDelivers(lib: Library, request: Request, r: Response)
    returns (chosen: seq<Theories.RankedTheory>)
    requires Acceptable(request) && Built(lib, request, r) && DistinctInputs(lib)
    ensures WellChosen(Candidates(lib, r.vector), request.maxTasks, r.tasks)
    ensures WellCovered(Blocks(lib, r.tasks), request.maxTheoryItems, chosen) && r.theory == Theories.ShownAll(chosen)
    ensures WellLaidOut(r)
  {
    TasksAreWellChosen(lib, r.vector, request.maxTasks, r.tasks);
    chosen :| TheoryChosen(Blocks(lib, r.tasks), request.maxTheoryItems, chosen)
      && r.theory == Theories.ShownAll(chosen);
    TheoryIsWellCovered(lib, r.tasks, request.maxTheoryItems, chosen);
    ShownStayDistinct(chosen);
    ArrangedIsWellLaidOut(r);
  }
}
