/**
 The workbook: each theory block is followed by the selected tasks that share a topic with it and have not been placed
 yet; tasks that share none come last. The LaTeX lists the items in order and numbers the tasks.
 */
module Workbook {
  import opened Outcomes
  import opened Orders
  import opened Sequences
  import opened Ranking
  import opened TheorySelection
  import opened LatexEscape

  datatype Kind = TheoryKind | TaskKind

  datatype Item = Item(order: nat, kind: Kind, contentID: string, title: string, topicIDs: seq<string>)

  // ---- The items in terms of positions in the two selections ----

  datatype Slot = TheorySlot(i: nat) | TaskSlot(k: nat)

  predicate Shares(task: RankedTask, block: RankedTheory) {
    (set t | t in task.topicIDs) * (set t | t in block.topicIDs) != {}
  }

  /** A task goes under a block exactly if some topic is listed by both. */
  lemma {:induction false} SharesIff(task: RankedTask, block: RankedTheory)
    ensures Shares(task, block) <==> exists t :: t in task.topicIDs && t in block.topicIDs
  {
    if t :| t in task.topicIDs && t in block.topicIDs {
      assert t in (set t | t in task.topicIDs) * (set t | t in block.topicIDs);
    }
  }

  ghost predicate Within(ks: seq<nat>, n: nat) {
    forall j :: 0 <= j < |ks| ==> ks[j] < n
  }

  function IDsAt(tasks: seq<RankedTask>, ks: seq<nat>): set<string>
    requires Within(ks, |tasks|)
  {
    if ks == [] then {} else IDsAt(tasks, ks[..|ks| - 1]) + {tasks[ks[|ks| - 1]].id}
  }

  /** Which tasks share a topic with which block: one row per block. */
  type FitTable = seq<seq<bool>>

  function Fits(tasks: seq<RankedTask>, block: RankedTheory): (row: seq<bool>)
    ensures |row| == |tasks|
  {
    seq(|tasks|, k requires 0 <= k < |tasks| => Shares(tasks[k], block))
  }

  function FitsAll(theory: seq<RankedTheory>, tasks: seq<RankedTask>): (fits: FitTable)
    ensures |fits| == |theory| && Covers(fits, |tasks|)
  {
    seq(|theory|, i requires 0 <= i < |theory| => Fits(tasks, theory[i]))
  }

  ghost predicate Covers(fits: FitTable, count: nat) {
    forall i :: 0 <= i < |fits| ==> |fits[i]| == count
  }

  /** The tasks among the first n that go under a block they fit, given the ids used before. */
  function Placed(tasks: seq<RankedTask>, fits: seq<bool>, used: set<string>, n: nat): (ks: seq<nat>)
    requires n <= |tasks| == |fits|
    ensures Within(ks, n)
  {
    if n == 0 then []
    else
      var before := Placed(tasks, fits, used, n - 1);
      if tasks[n - 1].id in used + IDsAt(tasks, before) || !fits[n - 1] then before
      else before + [n - 1]
  }

  function UsedAfter(tasks: seq<RankedTask>, fits: FitTable, i: nat): set<string>
    requires i <= |fits| && Covers(fits, |tasks|)
  {
    if i == 0 then {}
    else
      var used := UsedAfter(tasks, fits, i - 1);
      used + IDsAt(tasks, Placed(tasks, fits[i - 1], used, |tasks|))
  }

  function Unused(tasks: seq<RankedTask>, used: set<string>, n: nat): (ks: seq<nat>)
    requires n <= |tasks|
    ensures Within(ks, n)
  {
    if n == 0 then []
    else if tasks[n - 1].id in used then Unused(tasks, used, n - 1)
    else Unused(tasks, used, n - 1) + [n - 1]
  }

  function TaskSlots(ks: seq<nat>): (slots: seq<Slot>)
    ensures |slots| == |ks| && forall j :: 0 <= j < |ks| ==> slots[j] == TaskSlot(ks[j])
  {
    seq(|ks|, j requires 0 <= j < |ks| => TaskSlot(ks[j]))
  }

  function GroupSlots(tasks: seq<RankedTask>, fits: FitTable, i: nat): seq<Slot>
    requires i < |fits| && Covers(fits, |tasks|)
  {
    [TheorySlot(i)] + TaskSlots(Placed(tasks, fits[i], UsedAfter(tasks, fits, i), |tasks|))
  }

  function Groups(tasks: seq<RankedTask>, fits: FitTable): (groups: seq<seq<Slot>>)
    requires Covers(fits, |tasks|)
    ensures |groups| == |fits| && forall i :: 0 <= i < |fits| ==> groups[i] == GroupSlots(tasks, fits, i)
  {
    seq(|fits|, i requires 0 <= i < |fits| => GroupSlots(tasks, fits, i))
  }

  function Joined(groups: seq<seq<Slot>>, i: nat): seq<Slot>
    requires i <= |groups|
  {
    if i == 0 then [] else Joined(groups, i - 1) + groups[i - 1]
  }

  function RestSlots(tasks: seq<RankedTask>, fits: FitTable): seq<Slot>
    requires Covers(fits, |tasks|)
  {
    TaskSlots(Unused(tasks, UsedAfter(tasks, fits, |fits|), |tasks|))
  }

  function SlotsFor(tasks: seq<RankedTask>, fits: FitTable): seq<Slot>
    requires Covers(fits, |tasks|)
  {
    Joined(Groups(tasks, fits), |fits|) + RestSlots(tasks, fits)
  }

  function Slots(theory: seq<RankedTheory>, tasks: seq<RankedTask>): seq<Slot> {
    SlotsFor(tasks, FitsAll(theory, tasks))
  }

  /** The slots there are, for so many blocks and tasks. */
  ghost predicate InRange(slot: Slot, blocks: nat, count: nat) {
    match slot
    case TheorySlot(i) => i < blocks
    case TaskSlot(k) => k < count
  }

  function ItemAt(theory: seq<RankedTheory>, tasks: seq<RankedTask>, slot: Slot, order: nat): Item
    requires InRange(slot, |theory|, |tasks|)
  {
    match slot
    case TheorySlot(i) => Item(order, TheoryKind, theory[i].id, theory[i].title, theory[i].topicIDs)
    case TaskSlot(k) => Item(order, TaskKind, tasks[k].id, tasks[k].title, tasks[k].topicIDs)
  }

  /** `items` shows the slots in order, numbered from 1. */
  ghost predicate Shows(items: seq<Item>, theory: seq<RankedTheory>, tasks: seq<RankedTask>, slots: seq<Slot>) {
    && |items| == |slots|
    && forall j :: 0 <= j < |slots| ==>
      InRange(slots[j], |theory|, |tasks|) && items[j] == ItemAt(theory, tasks, slots[j], j + 1)
  }

  // ---- The code ----

  method PlaceTasks(theory: seq<RankedTheory>, tasks: seq<RankedTask>, block: RankedTheory, given: seq<Item>,
                    usedBefore: set<string>, ghost row: seq<bool>, ghost start: seq<Slot>)
    returns (items: seq<Item>, used: set<string>)
    requires Shows(given, theory, tasks, start) && row == Fits(tasks, block)
    ensures var placed := Placed(tasks, row, usedBefore, |tasks|);
      Shows(items, theory, tasks, start + TaskSlots(placed)) && used == usedBefore + IDsAt(tasks, placed)
  {
    items, used := given, usedBefore;
    ghost var placed: seq<nat> := [];
    assert start + TaskSlots(placed) == start;
    for k := 0 to |tasks|
      invariant PlacedSoFar(theory, tasks, row, usedBefore, start, k, placed, items, used)
    {
      var task := tasks[k];
      var shares := Shares(task, block);
      assert shares == row[k];
      PlaceTurn(theory, tasks, row, usedBefore, start, k, placed, items, used);
      if task.id in used || !shares {
        continue;
      }
      items := items + [Item(|items| + 1, TaskKind, task.id, task.title, task.topicIDs)];
      used := used + {task.id};
      placed := placed + [k];
    }
  }

  /** The state of the loop over the tasks, after k of them. */
  ghost predicate PlacedSoFar(theory: seq<RankedTheory>, tasks: seq<RankedTask>, row: seq<bool>, before: set<string>,
                              start: seq<Slot>, k: nat, placed: seq<nat>, items: seq<Item>, used: set<string>)
    requires k <= |tasks| == |row|
  {
    && placed == Placed(tasks, row, before, k)
    && used == before + IDsAt(tasks, placed)
    && Shows(items, theory, tasks, start + TaskSlots(placed))
  }

  lemma {:induction false} PlaceTurn(theory: seq<RankedTheory>, tasks: seq<RankedTask>, row: seq<bool>,
                                     before: set<string>, start: seq<Slot>, k: nat, placed: seq<nat>,
                                     items: seq<Item>, used: set<string>)
    requires k < |tasks| == |row| && PlacedSoFar(theory, tasks, row, before, start, k, placed, items, used)
    ensures
      if tasks[k].id in used || !row[k]
      then PlacedSoFar(theory, tasks, row, before, start, k + 1, placed, items, used)
      else PlacedSoFar(theory, tasks, row, before, start, k + 1, placed + [k],
                       items + [ItemAt(theory, tasks, TaskSlot(k), |items| + 1)], used + {tasks[k].id})
  {
    PlaceStep(items, theory, tasks, placed, k, start);
  }

  method PlaceUnder(theory: seq<RankedTheory>, tasks: seq<RankedTask>, i: nat, given: seq<Item>,
                    usedBefore: set<string>, ghost fits: FitTable, ghost slots: seq<Slot>)
    returns (items: seq<Item>, used: set<string>)
    requires i < |theory| && fits == FitsAll(theory, tasks)
    requires usedBefore == UsedAfter(tasks, fits, i) && Shows(given, theory, tasks, slots)
    ensures Shows(items, theory, tasks, slots + GroupSlots(tasks, fits, i))
    ensures used == UsedAfter(tasks, fits, i + 1)
  {
    var block := theory[i];
    var headed := given + [Item(|given| + 1, TheoryKind, block.id, block.title, block.topicIDs)];
    HeadStep(given, theory, tasks, slots, i);
    UnderStep(tasks, fits, i, slots);
    items, used := PlaceTasks(theory, tasks, block, headed, usedBefore, fits[i], slots + [TheorySlot(i)]);
  }

  lemma {:induction false} ShowsStep(items: seq<Item>, theory: seq<RankedTheory>, tasks: seq<RankedTask>,
                                     slots: seq<Slot>, k: nat)
    requires Shows(items, theory, tasks, slots) && k < |tasks|
    ensures Shows(items + [ItemAt(theory, tasks, TaskSlot(k), |items| + 1)], theory, tasks, slots + [TaskSlot(k)])
  {
  }

  lemma {:induction false} HeadStep(items: seq<Item>, theory: seq<RankedTheory>, tasks: seq<RankedTask>,
                                    slots: seq<Slot>, i: nat)
    requires Shows(items, theory, tasks, slots) && i < |theory|
    ensures Shows(items + [ItemAt(theory, tasks, TheorySlot(i), |items| + 1)], theory, tasks, slots + [TheorySlot(i)])
  {
  }

  lemma {:induction false} UnderStep(tasks: seq<RankedTask>, fits: FitTable, i: nat, slots: seq<Slot>)
    requires i < |fits| && Covers(fits, |tasks|)
    ensures var placed := Placed(tasks, fits[i], UsedAfter(tasks, fits, i), |tasks|);
      && slots + GroupSlots(tasks, fits, i) == slots + [TheorySlot(i)] + TaskSlots(placed)
      && UsedAfter(tasks, fits, i + 1) == UsedAfter(tasks, fits, i) + IDsAt(tasks, placed)
  {
    var placed := Placed(tasks, fits[i], UsedAfter(tasks, fits, i), |tasks|);
    AppendInTurn(slots, [TheorySlot(i)], TaskSlots(placed));
  }

  lemma {:induction false} PlaceStep(items: seq<Item>, theory: seq<RankedTheory>, tasks: seq<RankedTask>,
                                     ks: seq<nat>, k: nat, start: seq<Slot>)
    requires Within(ks, |tasks|) && k < |tasks| && Shows(items, theory, tasks, start + TaskSlots(ks))
    ensures IDsAt(tasks, ks + [k]) == IDsAt(tasks, ks) + {tasks[k].id}
    ensures Shows(items + [ItemAt(theory, tasks, TaskSlot(k), |items| + 1)], theory, tasks, start + TaskSlots(ks + [k]))
  {
    assert (ks + [k])[..|ks|] == ks;
    assert TaskSlots(ks + [k]) == TaskSlots(ks) + [TaskSlot(k)];
    AppendInTurn(start, TaskSlots(ks), [TaskSlot(k)]);
    ShowsStep(items, theory, tasks, start + TaskSlots(ks), k);
  }

  method PlaceRest(theory: seq<RankedTheory>, tasks: seq<RankedTask>, given: seq<Item>, used: set<string>,
                   ghost start: seq<Slot>) returns (items: seq<Item>)
    requires Shows(given, theory, tasks, start)
    ensures Shows(items, theory, tasks, start + TaskSlots(Unused(tasks, used, |tasks|)))
  {
    items := given;
    ghost var rest: seq<nat> := [];
    assert start + TaskSlots(rest) == start;
    for k := 0 to |tasks|
      invariant rest == Unused(tasks, used, k)
      invariant Shows(items, theory, tasks, start + TaskSlots(rest))
    {
      var task := tasks[k];
      if task.id in used {
        continue;
      }
      PlaceStep(items, theory, tasks, rest, k, start);
      items := items + [Item(|items| + 1, TaskKind, task.id, task.title, task.topicIDs)];
      rest := rest + [k];
    }
  }

  method BuildItems(theory: seq<RankedTheory>, tasks: seq<RankedTask>) returns (items: seq<Item>)
    ensures Shows(items, theory, tasks, Slots(theory, tasks))
  {
    ghost var fits := FitsAll(theory, tasks);
    ghost var groups := Groups(tasks, fits);
    items := [];
    var used: set<string> := {};
    for i := 0 to |theory|
      invariant Shows(items, theory, tasks, Joined(groups, i))
      invariant used == UsedAfter(tasks, fits, i)
    {
      items, used := PlaceUnder(theory, tasks, i, items, used, fits, Joined(groups, i));
    }
    items := PlaceRest(theory, tasks, items, used, Joined(groups, |theory|));
  }

  // ---- Where each task goes ----

  /** The first block a task shares a topic with; past the end if there is none. */
  function Home(theory: seq<RankedTheory>, task: RankedTask): (h: nat)
    ensures h <= |theory|
    ensures h < |theory| ==> Shares(task, theory[h])
    ensures forall i :: 0 <= i < h ==> !Shares(task, theory[i])
  {
    if theory == [] then 0
    else if Shares(task, theory[0]) then 0
    else
      var h := Home(theory[1..], task);
      assert forall i :: 0 < i < h + 1 ==> theory[i] == theory[1..][i - 1];
      h + 1
  }

  function Homes(theory: seq<RankedTheory>, tasks: seq<RankedTask>): (homes: seq<nat>)
    ensures |homes| == |tasks| && forall k :: 0 <= k < |tasks| ==> homes[k] == Home(theory, tasks[k])
  {
    seq(|tasks|, k requires 0 <= k < |tasks| => Home(theory, tasks[k]))
  }

  /** The first n tasks whose home is h, in selection order. */
  function Residents(homes: seq<nat>, h: nat, n: nat): (ks: seq<nat>)
    requires n <= |homes|
    ensures Within(ks, n)
  {
    if n == 0 then []
    else if homes[n - 1] == h then Residents(homes, h, n - 1) + [n - 1]
    else Residents(homes, h, n - 1)
  }

  lemma {:induction false} ResidentsAre(homes: seq<nat>, h: nat, n: nat)
    requires n <= |homes|
    ensures forall k :: k in Residents(homes, h, n) <==> 0 <= k < n && homes[k] == h
    ensures forall a, b :: 0 <= a < b < |Residents(homes, h, n)| ==>
      Residents(homes, h, n)[a] < Residents(homes, h, n)[b]
  {
    if n > 0 {
      ResidentsAre(homes, h, n - 1);
    }
  }

  lemma {:induction false} IDAmong(tasks: seq<RankedTask>, ks: seq<nat>, k: nat)
    requires DistinctIDs(tasks) && Within(ks, |tasks|) && k < |tasks|
    ensures tasks[k].id in IDsAt(tasks, ks) <==> k in ks
  {
    if ks != [] {
      var before, last := ks[..|ks| - 1], ks[|ks| - 1];
      assert ks == before + [last];
      IDAmong(tasks, before, k);
      assert tasks[k].id == tasks[last].id <==> k == last;
    }
  }

  /** The ids used are those of the tasks whose home lies before block i. */
  ghost predicate UsedBelow(tasks: seq<RankedTask>, homes: seq<nat>, used: set<string>, i: nat)
    requires |homes| == |tasks|
  {
    forall k :: 0 <= k < |tasks| ==> (tasks[k].id in used <==> homes[k] < i)
  }

  /** No task that fits block i lives later, and every task that lives there fits. */
  ghost predicate RowMatches(row: seq<bool>, homes: seq<nat>, i: nat) {
    |row| == |homes| && forall k :: 0 <= k < |homes| ==> (row[k] ==> homes[k] <= i) && (homes[k] == i ==> row[k])
  }

  /** Each task's home is the first block it fits, or past the end. */
  ghost predicate AreHomes(homes: seq<nat>, fits: FitTable) {
    && (forall i :: 0 <= i < |fits| ==> RowMatches(fits[i], homes, i))
    && (forall k :: 0 <= k < |homes| ==> homes[k] <= |fits|)
  }

  lemma {:induction false} HomesAreHomes(theory: seq<RankedTheory>, tasks: seq<RankedTask>)
    ensures AreHomes(Homes(theory, tasks), FitsAll(theory, tasks))
  {
    var homes, fits := Homes(theory, tasks), FitsAll(theory, tasks);
    forall i | 0 <= i < |theory| ensures RowMatches(fits[i], homes, i) {
      assert fits[i] == Fits(tasks, theory[i]);
    }
  }

  /** With distinct ids, the tasks placed under block i are exactly those whose first fitting block it is. */
  lemma {:induction false} PlacedAreResidents(tasks: seq<RankedTask>, row: seq<bool>, homes: seq<nat>,
                                              used: set<string>, i: nat, n: nat)
    requires DistinctIDs(tasks) && n <= |tasks| == |homes|
    requires UsedBelow(tasks, homes, used, i) && RowMatches(row, homes, i)
    ensures Placed(tasks, row, used, n) == Residents(homes, i, n)
  {
    if n > 0 {
      PlacedAreResidents(tasks, row, homes, used, i, n - 1);
      IDAmong(tasks, Placed(tasks, row, used, n - 1), n - 1);
    }
  }

  lemma {:induction false} UsedStep(tasks: seq<RankedTask>, homes: seq<nat>, used: set<string>, i: nat)
    requires DistinctIDs(tasks) && |homes| == |tasks| && UsedBelow(tasks, homes, used, i)
    ensures UsedBelow(tasks, homes, used + IDsAt(tasks, Residents(homes, i, |tasks|)), i + 1)
  {
    var residents := Residents(homes, i, |tasks|);
    ResidentsAre(homes, i, |tasks|);
    forall k | 0 <= k < |tasks| ensures tasks[k].id in used + IDsAt(tasks, residents) <==> homes[k] < i + 1 {
      IDAmong(tasks, residents, k);
    }
  }

  lemma {:induction false} UsedAfterStep(tasks: seq<RankedTask>, row: seq<bool>, homes: seq<nat>, used: set<string>,
                                         i: nat)
    requires DistinctIDs(tasks) && |homes| == |tasks|
    requires UsedBelow(tasks, homes, used, i) && RowMatches(row, homes, i)
    ensures UsedBelow(tasks, homes, used + IDsAt(tasks, Placed(tasks, row, used, |tasks|)), i + 1)
  {
    PlacedAreResidents(tasks, row, homes, used, i, |tasks|);
    UsedStep(tasks, homes, used, i);
  }

  lemma {:induction false} RowOf(fits: FitTable, homes: seq<nat>, i: nat)
    requires AreHomes(homes, fits) && i < |fits|
    ensures RowMatches(fits[i], homes, i)
  {
  }

  lemma {:induction false} NobodyHoused(tasks: seq<RankedTask>, fits: FitTable, homes: seq<nat>)
    requires |homes| == |tasks| && Covers(fits, |tasks|)
    ensures UsedBelow(tasks, homes, UsedAfter(tasks, fits, 0), 0)
  {
  }

  lemma {:induction false} UsedAfterIs(tasks: seq<RankedTask>, fits: FitTable, i: nat)
    requires 0 < i <= |fits| && Covers(fits, |tasks|)
    ensures var used := UsedAfter(tasks, fits, i - 1);
      UsedAfter(tasks, fits, i) == used + IDsAt(tasks, Placed(tasks, fits[i - 1], used, |tasks|))
  {
  }

  lemma {:induction false} HousedStep(tasks: seq<RankedTask>, fits: FitTable, homes: seq<nat>, i: nat)
    requires DistinctIDs(tasks) && |homes| == |tasks| && Covers(fits, |tasks|) && AreHomes(homes, fits)
    requires 0 < i <= |fits|
    requires UsedBelow(tasks, homes, UsedAfter(tasks, fits, i - 1), i - 1)
    ensures UsedBelow(tasks, homes, UsedAfter(tasks, fits, i), i)
  {
    RowOf(fits, homes, i - 1);
    UsedAfterStep(tasks, fits[i - 1], homes, UsedAfter(tasks, fits, i - 1), i - 1);
    UsedAfterIs(tasks, fits, i);
  }

  lemma {:induction false} UsedMeansHoused(tasks: seq<RankedTask>, fits: FitTable, homes: seq<nat>, i: nat)
    requires DistinctIDs(tasks) && |homes| == |tasks| && Covers(fits, |tasks|) && AreHomes(homes, fits) && i <= |fits|
    ensures UsedBelow(tasks, homes, UsedAfter(tasks, fits, i), i)
  {
    NobodyHoused(tasks, fits, homes);
    for j := 0 to i
      invariant UsedBelow(tasks, homes, UsedAfter(tasks, fits, j), j)
    {
      HousedStep(tasks, fits, homes, j + 1);
    }
  }

  lemma {:induction false} UnusedAreHomeless(tasks: seq<RankedTask>, homes: seq<nat>, used: set<string>, h: nat, n: nat)
    requires n <= |tasks| == |homes| && UsedBelow(tasks, homes, used, h)
    requires forall k :: 0 <= k < |homes| ==> homes[k] <= h
    ensures Unused(tasks, used, n) == Residents(homes, h, n)
  {
    if n > 0 {
      UnusedAreHomeless(tasks, homes, used, h, n - 1);
    }
  }

  // ---- The order of the workbook ----

  function GroupOf(homes: seq<nat>, slot: Slot): nat
    requires slot.TaskSlot? ==> slot.k < |homes|
  {
    match slot
    case TheorySlot(i) => i
    case TaskSlot(k) => homes[k]
  }

  /** Groups in order of the blocks; in a group the block first, then its tasks in order of selection. */
  ghost predicate Precedes(homes: seq<nat>, x: Slot, y: Slot)
    requires x.TaskSlot? ==> x.k < |homes|
    requires y.TaskSlot? ==> y.k < |homes|
  {
    var g, h := GroupOf(homes, x), GroupOf(homes, y);
    g < h || (g == h && y.TaskSlot? && (x.TheorySlot? || x.k < y.k))
  }

  ghost predicate InOrder(blocks: nat, homes: seq<nat>, slots: seq<Slot>) {
    && (forall a :: 0 <= a < |slots| ==> InRange(slots[a], blocks, |homes|))
    && (forall a, b :: 0 <= a < b < |slots| ==> Precedes(homes, slots[a], slots[b]))
  }

  /** The slots of the groups below `groups`: in order, and exactly those. */
  ghost predicate Complete(blocks: nat, homes: seq<nat>, slots: seq<Slot>, groups: nat) {
    && InOrder(blocks, homes, slots)
    && forall slot :: slot in slots <==> InRange(slot, blocks, |homes|) && GroupOf(homes, slot) < groups
  }

  /** One group, whole and in order. */
  ghost predicate WholeGroup(blocks: nat, homes: seq<nat>, group: seq<Slot>, h: nat) {
    && InOrder(blocks, homes, group)
    && forall slot :: slot in group <==> InRange(slot, blocks, |homes|) && GroupOf(homes, slot) == h
  }

  lemma {:induction false} GroupAppended(blocks: nat, homes: seq<nat>, slots: seq<Slot>, group: seq<Slot>, i: nat)
    requires Complete(blocks, homes, slots, i) && WholeGroup(blocks, homes, group, i)
    ensures Complete(blocks, homes, slots + group, i + 1)
  {
    var all := slots + group;
    forall a | 0 <= a < |all| ensures InRange(all[a], blocks, |homes|) {
      assert all[a] in slots || all[a] in group;
    }
    forall a, b | 0 <= a < b < |all| ensures Precedes(homes, all[a], all[b]) {
      if a < |slots| <= b {
        assert all[a] in slots && all[b] in group;
      }
    }
    assert forall slot :: slot in all <==> slot in slots || slot in group;
  }

  lemma {:induction false} ResidentSlots(blocks: nat, homes: seq<nat>, h: nat)
    ensures var slots := TaskSlots(Residents(homes, h, |homes|));
      && InOrder(blocks, homes, slots)
      && forall slot :: slot in slots <==> slot.TaskSlot? && slot.k < |homes| && homes[slot.k] == h
  {
    var ks := Residents(homes, h, |homes|);
    var slots := TaskSlots(ks);
    ResidentsAre(homes, h, |homes|);
    forall slot: Slot | slot.TaskSlot? && slot.k in ks ensures slot in slots {
      var j :| 0 <= j < |ks| && ks[j] == slot.k;
      assert slots[j] == slot;
    }
    forall a | 0 <= a < |slots| ensures slots[a] == TaskSlot(ks[a]) && slots[a].k in ks {
    }
  }

  lemma {:induction false} BlockFirst(blocks: nat, homes: seq<nat>, placed: seq<Slot>, i: nat)
    requires i < blocks && InOrder(blocks, homes, placed)
    requires forall a :: 0 <= a < |placed| ==> placed[a].TaskSlot? && GroupOf(homes, placed[a]) == i
    ensures InOrder(blocks, homes, [TheorySlot(i)] + placed)
  {
    var group := [TheorySlot(i)] + placed;
    forall a, b | 0 <= a < b < |group| ensures Precedes(homes, group[a], group[b]) {
      assert group[b] == placed[b - 1];
      if a > 0 {
        assert group[a] == placed[a - 1];
      }
    }
  }

  lemma {:induction false} BlockAndResidents(blocks: nat, homes: seq<nat>, i: nat)
    requires i < blocks
    ensures WholeGroup(blocks, homes, [TheorySlot(i)] + TaskSlots(Residents(homes, i, |homes|)), i)
  {
    ResidentSlots(blocks, homes, i);
    var placed := TaskSlots(Residents(homes, i, |homes|));
    forall a | 0 <= a < |placed| ensures placed[a].TaskSlot? && GroupOf(homes, placed[a]) == i {
      assert placed[a] in placed;
    }
    BlockFirst(blocks, homes, placed, i);
    assert forall slot :: slot in [TheorySlot(i)] + placed <==> slot == TheorySlot(i) || slot in placed;
  }

  lemma {:induction false} HomelessGroup(blocks: nat, homes: seq<nat>)
    ensures WholeGroup(blocks, homes, TaskSlots(Residents(homes, blocks, |homes|)), blocks)
  {
    ResidentSlots(blocks, homes, blocks);
  }

  lemma {:induction false} GroupIsWhole(tasks: seq<RankedTask>, fits: FitTable, homes: seq<nat>, i: nat)
    requires DistinctIDs(tasks) && |homes| == |tasks| && Covers(fits, |tasks|) && AreHomes(homes, fits) && i < |fits|
    ensures WholeGroup(|fits|, homes, GroupSlots(tasks, fits, i), i)
    ensures TasksAmong(GroupSlots(tasks, fits, i)) == |Residents(homes, i, |homes|)|
  {
    UsedMeansHoused(tasks, fits, homes, i);
    PlacedAreResidents(tasks, fits[i], homes, UsedAfter(tasks, fits, i), i, |tasks|);
    BlockAndResidents(|fits|, homes, i);
    TasksAmongTaskSlots(Residents(homes, i, |homes|));
    TasksAmongJoined([TheorySlot(i)], TaskSlots(Residents(homes, i, |homes|)));
  }

  lemma {:induction false} JoinedComplete(blocks: nat, homes: seq<nat>, groups: seq<seq<Slot>>, i: nat)
    requires i <= |groups| && forall j :: 0 <= j < i ==> WholeGroup(blocks, homes, groups[j], j)
    ensures Complete(blocks, homes, Joined(groups, i), i)
  {
    if i > 0 {
      JoinedComplete(blocks, homes, groups, i - 1);
      GroupAppended(blocks, homes, Joined(groups, i - 1), groups[i - 1], i - 1);
    }
  }

  lemma {:induction false} RestIsWhole(tasks: seq<RankedTask>, fits: FitTable, homes: seq<nat>)
    requires DistinctIDs(tasks) && |homes| == |tasks| && Covers(fits, |tasks|) && AreHomes(homes, fits)
    ensures WholeGroup(|fits|, homes, RestSlots(tasks, fits), |fits|)
    ensures TasksAmong(RestSlots(tasks, fits)) == |Residents(homes, |fits|, |homes|)|
  {
    UsedMeansHoused(tasks, fits, homes, |fits|);
    UnusedAreHomeless(tasks, homes, UsedAfter(tasks, fits, |fits|), |fits|, |tasks|);
    HomelessGroup(|fits|, homes);
    TasksAmongTaskSlots(Residents(homes, |fits|, |homes|));
  }

  lemma {:induction false} SlotsAreComplete(tasks: seq<RankedTask>, fits: FitTable, homes: seq<nat>)
    requires DistinctIDs(tasks) && |homes| == |tasks| && Covers(fits, |tasks|) && AreHomes(homes, fits)
    ensures InOrder(|fits|, homes, SlotsFor(tasks, fits))
    ensures forall slot :: slot in SlotsFor(tasks, fits) <==> InRange(slot, |fits|, |homes|)
  {
    var groups := Groups(tasks, fits);
    forall i | 0 <= i < |fits| ensures WholeGroup(|fits|, homes, groups[i], i) {
      GroupIsWhole(tasks, fits, homes, i);
    }
    JoinedComplete(|fits|, homes, groups, |fits|);
    RestIsWhole(tasks, fits, homes);
    GroupAppended(|fits|, homes, Joined(groups, |fits|), RestSlots(tasks, fits), |fits|);
    GroupsEnd(|fits|, homes);
  }

  lemma {:induction false} GroupsEnd(blocks: nat, homes: seq<nat>)
    requires forall k :: 0 <= k < |homes| ==> homes[k] <= blocks
    ensures forall slot :: InRange(slot, blocks, |homes|) ==> GroupOf(homes, slot) < blocks + 1
  {
  }

  /**
   With distinct task ids, the workbook holds every selected block and every selected task, and nothing else, in
   order: each task in the group of the first block it shares a topic with, tasks that share none after all groups.
   */
  lemma {:induction false} WorkbookIsComplete(theory: seq<RankedTheory>, tasks: seq<RankedTask>)
    requires DistinctIDs(tasks)
    ensures InOrder(|theory|, Homes(theory, tasks), Slots(theory, tasks))
    ensures forall slot :: slot in Slots(theory, tasks) <==> InRange(slot, |theory|, |tasks|)
  {
    HomesAreHomes(theory, tasks);
    SlotsAreComplete(tasks, FitsAll(theory, tasks), Homes(theory, tasks));
  }

  /** Being in order, no slot occurs twice. */
  lemma {:induction false} InOrderIsDistinct(blocks: nat, homes: seq<nat>, slots: seq<Slot>, a: nat, b: nat)
    requires InOrder(blocks, homes, slots) && a < b < |slots|
    ensures slots[a] != slots[b]
  {
    assert Precedes(homes, slots[a], slots[b]);
  }

  // ---- The LaTeX sections ----

  datatype Section =
    | TheorySection(title: string, body: string)
    | TaskSection(number: nat, title: string, body: string)

  predicate ByOrder(x: Item, y: Item) { x.order <= y.order }

  /** Dictionaries by id, as the code builds them: a later entry with the same id overwrites. */
  function TheoryByID(theory: seq<RankedTheory>): map<string, RankedTheory> {
    if theory == [] then map[]
    else
      var last := theory[|theory| - 1];
      TheoryByID(theory[..|theory| - 1])[last.id := last]
  }

  function TaskByID(tasks: seq<RankedTask>): map<string, RankedTask> {
    if tasks == [] then map[]
    else
      var last := tasks[|tasks| - 1];
      TaskByID(tasks[..|tasks| - 1])[last.id := last]
  }

  function TaskSections(sections: seq<Section>): nat {
    if sections == [] then 0
    else TaskSections(sections[..|sections| - 1]) + if sections[|sections| - 1].TaskSection? then 1 else 0
  }

  /** How an item becomes a section, if its id is known; the number is the one it gets if it is a task. */
  type Layout = (Item, nat) -> Option<Section>

  function LayoutOf(theory: seq<RankedTheory>, tasks: seq<RankedTask>): Layout {
    var blocks, exercises := TheoryByID(theory), TaskByID(tasks);
    (item: Item, number: nat) =>
      match item.kind
      case TheoryKind =>
        if item.contentID !in blocks then None
        else Some(TheorySection(EscapeChained(blocks[item.contentID].title), blocks[item.contentID].latexBody))
      case TaskKind =>
        if item.contentID !in exercises then None
        else
          var task := exercises[item.contentID];
          Some(TaskSection(number, EscapeChained(task.title), task.latexBody))
  }

  /**
   The sections for the first n of items already in order, and how many of them are tasks; items whose id is unknown
   are skipped.
   */
  function Laid(layout: Layout, items: seq<Item>, n: nat): (seq<Section>, nat)
    requires n <= |items|
  {
    if n == 0 then ([], 0)
    else
      var (before, number) := Laid(layout, items, n - 1);
      WithSection(before, number, layout(items[n - 1], number + 1))
  }

  function SectionsUpTo(layout: Layout, items: seq<Item>, n: nat): seq<Section>
    requires n <= |items|
  {
    Laid(layout, items, n).0
  }

  lemma {:induction false} LaidNumber(layout: Layout, items: seq<Item>, n: nat)
    requires n <= |items|
    ensures Laid(layout, items, n).1 == TaskSections(SectionsUpTo(layout, items, n))
  {
    if n > 0 {
      var (before, number) := Laid(layout, items, n - 1);
      LaidNumber(layout, items, n - 1);
      var section := layout(items[n - 1], number + 1);
      if section.Some? { SectionsStep(before, section.value); }
    }
  }

  function SectionsFor(layout: Layout, items: seq<Item>): seq<Section> {
    SectionsUpTo(layout, items, |items|)
  }

  function WithSection(before: seq<Section>, number: nat, section: Option<Section>): (seq<Section>, nat) {
    match section
    case None => (before, number)
    case Some(s) => (before + [s], if s.TaskSection? then number + 1 else number)
  }

  lemma {:induction false} ByOrderIsTotalPreorder()
    ensures TotalPreorder(ByOrder)
  {
  }

  method BuildSections(items: seq<Item>, theory: seq<RankedTheory>, tasks: seq<RankedTask>)
    returns (sections: seq<Section>)
    ensures TotalPreorder(ByOrder)
    ensures sections == SectionsFor(LayoutOf(theory, tasks), Sort(ByOrder, items))
  {
    ByOrderIsTotalPreorder();
    sections := SectionsInOrder(LayoutOf(theory, tasks), Sort(ByOrder, items));
  }

  method SectionsInOrder(layout: Layout, ordered: seq<Item>) returns (sections: seq<Section>)
    ensures sections == SectionsFor(layout, ordered)
  {
    sections := [];
    var taskNumber := 0;
    for j := 0 to |ordered|
      invariant (sections, taskNumber) == Laid(layout, ordered, j)
    {
      var section := layout(ordered[j], taskNumber + 1);
      if section.None? {
        continue;
      }
      if section.value.TaskSection? {
        taskNumber := taskNumber + 1;
      }
      sections := sections + [section.value];
    }
  }

  lemma {:induction false} SectionsStep(sections: seq<Section>, section: Section)
    ensures TaskSections(sections + [section]) == TaskSections(sections) + if section.TaskSection? then 1 else 0
  {
    assert (sections + [section])[..|sections|] == sections;
  }

  ghost predicate DistinctTheory(theory: seq<RankedTheory>) {
    forall k, l :: 0 <= k < l < |theory| ==> theory[k].id != theory[l].id
  }

  lemma {:induction false} FindsTheory(theory: seq<RankedTheory>, i: nat)
    requires DistinctTheory(theory) && i < |theory|
    ensures theory[i].id in TheoryByID(theory) && TheoryByID(theory)[theory[i].id] == theory[i]
  {
    if i < |theory| - 1 {
      FindsTheory(theory[..|theory| - 1], i);
    }
  }

  lemma {:induction false} FindsTask(tasks: seq<RankedTask>, k: nat)
    requires DistinctIDs(tasks) && k < |tasks|
    ensures tasks[k].id in TaskByID(tasks) && TaskByID(tasks)[tasks[k].id] == tasks[k]
  {
    if k < |tasks| - 1 {
      FindsTask(tasks[..|tasks| - 1], k);
    }
  }

  function TasksAmong(slots: seq<Slot>): nat {
    if slots == [] then 0 else TasksAmong(slots[..|slots| - 1]) + if slots[|slots| - 1].TaskSlot? then 1 else 0
  }

  /** The section that belongs to a slot with so many task slots before it. */
  function SectionAt(theory: seq<RankedTheory>, tasks: seq<RankedTask>, slot: Slot, tasksBefore: nat): Section
    requires InRange(slot, |theory|, |tasks|)
  {
    match slot
    case TheorySlot(i) => TheorySection(Escape(theory[i].title), theory[i].latexBody)
    case TaskSlot(k) => TaskSection(tasksBefore + 1, Escape(tasks[k].title), tasks[k].latexBody)
  }

  lemma {:induction false} LayoutShows(theory: seq<RankedTheory>, tasks: seq<RankedTask>, slot: Slot, order: nat,
                                       tasksBefore: nat)
    requires DistinctTheory(theory) && DistinctIDs(tasks) && InRange(slot, |theory|, |tasks|)
    ensures LayoutOf(theory, tasks)(ItemAt(theory, tasks, slot, order), tasksBefore + 1)
         == Some(SectionAt(theory, tasks, slot, tasksBefore))
  {
    match slot
    case TheorySlot(i) =>
      FindsTheory(theory, i);
      ChainedIsSinglePass(theory[i].title);
    case TaskSlot(k) =>
      FindsTask(tasks, k);
      ChainedIsSinglePass(tasks[k].title);
  }

  lemma {:induction false} OneMoreSection(layout: Layout, items: seq<Item>, n: nat, section: Section)
    requires n < |items|
    requires layout(items[n], TaskSections(SectionsUpTo(layout, items, n)) + 1) == Some(section)
    ensures SectionsUpTo(layout, items, n + 1) == SectionsUpTo(layout, items, n) + [section]
  {
    LaidNumber(layout, items, n);
  }

  lemma {:induction false} NextSection(theory: seq<RankedTheory>, tasks: seq<RankedTask>, slot: Slot, items: seq<Item>,
                                       n: nat)
    requires DistinctTheory(theory) && DistinctIDs(tasks) && InRange(slot, |theory|, |tasks|)
    requires n < |items| && items[n] == ItemAt(theory, tasks, slot, n + 1)
    ensures var before := SectionsUpTo(LayoutOf(theory, tasks), items, n);
      SectionsUpTo(LayoutOf(theory, tasks), items, n + 1) ==
        before + [SectionAt(theory, tasks, slot, TaskSections(before))]
  {
    var before := SectionsUpTo(LayoutOf(theory, tasks), items, n);
    LayoutShows(theory, tasks, slot, n + 1, TaskSections(before));
    OneMoreSection(LayoutOf(theory, tasks), items, n, SectionAt(theory, tasks, slot, TaskSections(before)));
  }

  /** One section per slot, in order, tasks numbered 1, 2, 3, ... */
  ghost predicate Follow(sections: seq<Section>, theory: seq<RankedTheory>, tasks: seq<RankedTask>, slots: seq<Slot>) {
    && |sections| == |slots| && TaskSections(sections) == TasksAmong(slots)
    && forall j :: 0 <= j < |slots| ==>
      InRange(slots[j], |theory|, |tasks|) && sections[j] == SectionAt(theory, tasks, slots[j], TasksAmong(slots[..j]))
  }

  lemma {:induction false} PrefixOfMore(slots: seq<Slot>, slot: Slot, j: nat)
    requires j <= |slots|
    ensures (slots + [slot])[..j] == slots[..j]
  {
  }

  lemma {:induction false} OneMoreSlot(slots: seq<Slot>, slot: Slot)
    ensures TasksAmong(slots + [slot]) == TasksAmong(slots) + if slot.TaskSlot? then 1 else 0
  {
    LastOf(slots, slot);
  }

  lemma {:induction false} FollowStep(sections: seq<Section>, theory: seq<RankedTheory>, tasks: seq<RankedTask>,
                                      slots: seq<Slot>, slot: Slot)
    requires Follow(sections, theory, tasks, slots) && InRange(slot, |theory|, |tasks|)
    ensures Follow(sections + [SectionAt(theory, tasks, slot, TaskSections(sections))], theory, tasks, slots + [slot])
  {
    var section, n := SectionAt(theory, tasks, slot, TaskSections(sections)), |slots|;
    SectionsStep(sections, section);
    OneMoreSlot(slots, slot);
    forall j | 0 <= j < n + 1
      ensures InRange((slots + [slot])[j], |theory|, |tasks|)
      ensures (sections + [section])[j] ==
        SectionAt(theory, tasks, (slots + [slot])[j], TasksAmong((slots + [slot])[..j]))
    {
      PrefixOfMore(slots, slot, j);
      assert j == n ==> slots[..j] == slots;
    }
  }

  ghost predicate FollowFirst(layout: Layout, items: seq<Item>, theory: seq<RankedTheory>, tasks: seq<RankedTask>,
                              slots: seq<Slot>, n: nat)
    requires n <= |items| == |slots|
  {
    Follow(SectionsUpTo(layout, items, n), theory, tasks, slots[..n])
  }

  lemma {:induction false} FollowNone(layout: Layout, items: seq<Item>, theory: seq<RankedTheory>,
                                      tasks: seq<RankedTask>, slots: seq<Slot>)
    requires |items| == |slots|
    ensures FollowFirst(layout, items, theory, tasks, slots, 0)
  {
  }

  lemma {:induction false} FollowNext(theory: seq<RankedTheory>, tasks: seq<RankedTask>, slots: seq<Slot>,
                                      items: seq<Item>, n: nat)
    requires DistinctTheory(theory) && DistinctIDs(tasks) && Shows(items, theory, tasks, slots) && n < |items|
    requires FollowFirst(LayoutOf(theory, tasks), items, theory, tasks, slots, n)
    ensures FollowFirst(LayoutOf(theory, tasks), items, theory, tasks, slots, n + 1)
  {
    var before := SectionsUpTo(LayoutOf(theory, tasks), items, n);
    NextSection(theory, tasks, slots[n], items, n);
    FollowStep(before, theory, tasks, slots[..n], slots[n]);
    PrefixPlusOne(slots, n);
  }

  lemma {:induction false} SectionsFollowSlots(theory: seq<RankedTheory>, tasks: seq<RankedTask>, slots: seq<Slot>,
                                               items: seq<Item>)
    requires DistinctTheory(theory) && DistinctIDs(tasks) && Shows(items, theory, tasks, slots)
    ensures Follow(SectionsFor(LayoutOf(theory, tasks), items), theory, tasks, slots)
  {
    FollowNone(LayoutOf(theory, tasks), items, theory, tasks, slots);
    for n := 0 to |items|
      invariant FollowFirst(LayoutOf(theory, tasks), items, theory, tasks, slots, n)
    {
      FollowNext(theory, tasks, slots, items, n);
    }
    assert slots[..|items|] == slots;
  }

  // ---- The numbers run from 1 to the number of tasks ----

  lemma {:induction false} TasksAmongJoined(x: seq<Slot>, y: seq<Slot>)
    ensures TasksAmong(x + y) == TasksAmong(x) + TasksAmong(y)
  {
    if y == [] {
      assert x + y == x;
    } else {
      TasksAmongJoined(x, y[..|y| - 1]);
      assert (x + y)[..|x + y| - 1] == x + y[..|y| - 1];
    }
  }

  lemma {:induction false} TasksAmongTaskSlots(ks: seq<nat>)
    ensures TasksAmong(TaskSlots(ks)) == |ks|
  {
    if ks != [] {
      TasksAmongTaskSlots(ks[..|ks| - 1]);
      assert TaskSlots(ks)[..|ks| - 1] == TaskSlots(ks[..|ks| - 1]);
    }
  }

  /** How many of the first n homes lie below h. */
  function HomesBelow(homes: seq<nat>, h: nat, n: nat): nat
    requires n <= |homes|
  {
    if n == 0 then 0 else HomesBelow(homes, h, n - 1) + if homes[n - 1] < h then 1 else 0
  }

  lemma {:induction false} OneMoreHome(homes: seq<nat>, h: nat, n: nat)
    requires n <= |homes|
    ensures HomesBelow(homes, h + 1, n) == HomesBelow(homes, h, n) + |Residents(homes, h, n)|
  {
    if n > 0 {
      OneMoreHome(homes, h, n - 1);
    }
  }

  lemma {:induction false} HomesAtEnds(homes: seq<nat>, h: nat, n: nat)
    requires n <= |homes|
    ensures HomesBelow(homes, 0, n) == 0
    ensures (forall k :: 0 <= k < |homes| ==> homes[k] < h) ==> HomesBelow(homes, h, n) == n
  {
    if n > 0 {
      HomesAtEnds(homes, h, n - 1);
    }
  }

  lemma {:induction false} TasksJoined(groups: seq<seq<Slot>>, homes: seq<nat>, i: nat)
    requires i <= |groups| && forall j :: 0 <= j < i ==> TasksAmong(groups[j]) == |Residents(homes, j, |homes|)|
    ensures TasksAmong(Joined(groups, i)) == HomesBelow(homes, i, |homes|)
  {
    if i == 0 {
      HomesAtEnds(homes, 0, |homes|);
    } else {
      TasksJoined(groups, homes, i - 1);
      OneMoreGroup(Joined(groups, i - 1), groups[i - 1], homes, i - 1);
    }
  }

  lemma {:induction false} OneMoreGroup(before: seq<Slot>, group: seq<Slot>, homes: seq<nat>, h: nat)
    requires TasksAmong(before) == HomesBelow(homes, h, |homes|) && TasksAmong(group) == |Residents(homes, h, |homes|)|
    ensures TasksAmong(before + group) == HomesBelow(homes, h + 1, |homes|)
  {
    TasksAmongJoined(before, group);
    OneMoreHome(homes, h, |homes|);
  }

  lemma {:induction false} SlotsNumberAllTasks(tasks: seq<RankedTask>, fits: FitTable, homes: seq<nat>)
    requires DistinctIDs(tasks) && |homes| == |tasks| && Covers(fits, |tasks|) && AreHomes(homes, fits)
    ensures TasksAmong(SlotsFor(tasks, fits)) == |tasks|
  {
    var groups := Groups(tasks, fits);
    forall i | 0 <= i < |fits| ensures TasksAmong(groups[i]) == |Residents(homes, i, |homes|)| {
      GroupIsWhole(tasks, fits, homes, i);
    }
    TasksJoined(groups, homes, |fits|);
    RestIsWhole(tasks, fits, homes);
    TasksAmongJoined(Joined(groups, |fits|), RestSlots(tasks, fits));
    OneMoreHome(homes, |fits|, |homes|);
    HomesAtEnds(homes, |fits| + 1, |homes|);
  }

  /** The workbook has as many task slots as tasks were selected. */
  lemma {:induction false} AllTasksNumbered(theory: seq<RankedTheory>, tasks: seq<RankedTask>)
    requires DistinctIDs(tasks)
    ensures TasksAmong(Slots(theory, tasks)) == |tasks|
  {
    HomesAreHomes(theory, tasks);
    SlotsNumberAllTasks(tasks, FitsAll(theory, tasks), Homes(theory, tasks));
  }

  /** The whole way: the sections of the LaTeX are the slots of the workbook, in order, tasks numbered 1 to |tasks|. */
  lemma {:induction false} LatexFollowsWorkbook(theory: seq<RankedTheory>, tasks: seq<RankedTask>, items: seq<Item>)
    requires DistinctTheory(theory) && DistinctIDs(tasks) && TotalPreorder(ByOrder)
    requires Shows(items, theory, tasks, Slots(theory, tasks))
    ensures var sections := SectionsFor(LayoutOf(theory, tasks), Sort(ByOrder, items));
      Follow(sections, theory, tasks, Slots(theory, tasks)) && TaskSections(sections) == |tasks|
  {
    SortOfSorted(ByOrder, items);
    SectionsFollowSlots(theory, tasks, Slots(theory, tasks), items);
    AllTasksNumbered(theory, tasks);
  }
}
