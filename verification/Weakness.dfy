/**
 The vector of a user's weak tags: the tags with a positive score, best first, cut to the size asked for. How a score
 is computed from mastery, recent attempts and the clock is not modelled; scores are given.
 */
module Weakness {
  import opened Orders
  import opened Permutations
  import opened Cosine

  datatype TagNeed = TagNeed(tagID: string, score: real)

  /** Higher scores first, ties by id. */
  predicate Before(x: TagNeed, y: TagNeed) {
    RankLe(x.score, x.tagID, y.score, y.tagID)
  }

  lemma {:induction false} BeforeIsTotalOrder()
    ensures TotalPreorder(Before) && Antisymmetric(Before)
  {
    RankLeIsTotalPreorder();
    StringLeIsTotalOrder();
  }

  /** Python's `items[:limit]`: a negative limit counts from the end. */
  function Stop(limit: int, length: nat): (n: nat)
    ensures n <= length
  {
    if limit >= 0 then (if limit <= length then limit else length)
    else if length + limit >= 0 then length + limit else 0
  }

  ghost predicate IsNeed(scores: Weights, t: TagNeed) {
    t.tagID in scores && t.score == scores[t.tagID] && t.score > 0.0
  }

  /** Each tag with a positive score, once, in order. */
  ghost predicate AllNeeds(scores: Weights, all: seq<TagNeed>) {
    Sorted(Before, all) && Distinct(all) && forall t :: t in all <==> IsNeed(scores, t)
  }

  ghost predicate IsVector(scores: Weights, limit: int, vector: seq<TagNeed>) {
    exists all :: AllNeeds(scores, all) && vector == all[..Stop(limit, |all|)]
  }

  /** The entries collected when the keys in `rest` are still to come. */
  ghost predicate Collected(scores: Weights, rest: set<string>, items: seq<TagNeed>) {
    Distinct(items) && forall t :: t in items <==> IsNeed(scores, t) && t.tagID !in rest
  }

  lemma {:induction false} CollectStep(scores: Weights, rest: set<string>, items: seq<TagNeed>, id: string)
    requires Collected(scores, rest, items) && id in rest && id in scores
    ensures Collected(scores, rest - {id}, if scores[id] <= 0.0 then items else items + [TagNeed(id, scores[id])])
  {
    var next := TagNeed(id, scores[id]);
    assert next !in items;
    assert forall t :: t in items + [next] <==> t in items || t == next;
  }

  method BuildVector(scores: Weights, limit: int) returns (vector: seq<TagNeed>)
    ensures IsVector(scores, limit, vector)
    ensures forall i, j :: 0 <= i < j < |vector| ==>
      vector[i].score > vector[j].score
      || (vector[i].score == vector[j].score && StringLe(vector[i].tagID, vector[j].tagID))
  {
    var items: seq<TagNeed> := [];
    var rest := scores.Keys;
    while rest != {}
      invariant rest <= scores.Keys
      invariant Collected(scores, rest, items)
      decreases rest
    {
      var id :| id in rest;
      CollectStep(scores, rest, items, id);
      rest := rest - {id};
      if scores[id] <= 0.0 {
        continue;
      }
      items := items + [TagNeed(id, scores[id])];
    }
    BeforeIsTotalOrder();
    var all := Sort(Before, items);
    DistinctSurvivesReordering(items, all);
    assert AllNeeds(scores, all);
    return all[..Stop(limit, |all|)];
  }

  /** The dictionary the ranking uses; no tag occurs twice in a vector. */
  function WeakMap(vector: seq<TagNeed>): Weights {
    map id | id in (set t | t in vector :: t.tagID) :: ScoreIn(vector, id)
  }

  function ScoreIn(vector: seq<TagNeed>, id: string): real {
    if vector == [] then 0.0
    else if vector[|vector| - 1].tagID == id then vector[|vector| - 1].score
    else ScoreIn(vector[..|vector| - 1], id)
  }

  // ---- Laws ----

  /** Whatever order the tags are visited in, the vector is the same. */
  lemma {:induction false} VectorIsUnique(scores: Weights, limit: int, v: seq<TagNeed>, w: seq<TagNeed>)
    requires IsVector(scores, limit, v) && IsVector(scores, limit, w)
    ensures v == w
  {
    var all :| AllNeeds(scores, all) && v == all[..Stop(limit, |all|)];
    var all' :| AllNeeds(scores, all') && w == all'[..Stop(limit, |all'|)];
    BeforeIsTotalOrder();
    SameElementsReorder(all, all');
    SortedRearrangementIsUnique(Before, all, all');
  }

  /** A tag with a positive score that is left out ranks behind every tag that is kept, and the vector is full. */
  lemma {:induction false} VectorKeepsBest(scores: Weights, limit: nat, vector: seq<TagNeed>, t: TagNeed)
    requires IsVector(scores, limit, vector) && IsNeed(scores, t) && t !in vector
    ensures |vector| == limit
    ensures forall u :: u in vector ==>
      u.score > t.score || (u.score == t.score && StringLe(u.tagID, t.tagID))
  {
    var all :| AllNeeds(scores, all) && vector == all[..Stop(limit, |all|)];
    var i :| 0 <= i < |all| && all[i] == t;
    assert forall k :: 0 <= k < |vector| ==> all[k] == vector[k] && all[k] in vector;
    forall u | u in vector ensures u.score > t.score || (u.score == t.score && StringLe(u.tagID, t.tagID)) {
      var j :| 0 <= j < |vector| && vector[j] == u;
      assert all[j] == u && Before(all[j], all[i]);
    }
  }

  lemma {:induction false} ScoreFound(scores: Weights, vector: seq<TagNeed>, id: string)
    requires forall t :: t in vector ==> IsNeed(scores, t)
    requires exists t :: t in vector && t.tagID == id
    ensures id in scores && ScoreIn(vector, id) == scores[id] > 0.0
  {
    var before, last := vector[..|vector| - 1], vector[|vector| - 1];
    assert vector == before + [last] && IsNeed(scores, last);
    if last.tagID != id {
      ScoreFound(scores, before, id);
    }
  }

  /** The ranking's weak tags carry their scores, all of them positive. */
  lemma {:induction false} WeaknessIsPositive(scores: Weights, limit: int, vector: seq<TagNeed>)
    requires IsVector(scores, limit, vector)
    ensures forall id :: id in WeakMap(vector) ==> id in scores && WeakMap(vector)[id] == scores[id] > 0.0
    ensures NoNegative(WeakMap(vector))
  {
    var all :| AllNeeds(scores, all) && vector == all[..Stop(limit, |all|)];
    forall t | t in vector ensures IsNeed(scores, t) {
      assert t in all;
    }
    forall id | id in WeakMap(vector) ensures id in scores && WeakMap(vector)[id] == scores[id] > 0.0 {
      var t :| t in vector && t.tagID == id;
      ScoreFound(scores, vector, id);
    }
  }

  /** A vector is as long as asked for, or as there are tags; a negative limit leaves that many out. */
  lemma {:induction false} VectorSize(scores: Weights, limit: int, vector: seq<TagNeed>) returns (all: seq<TagNeed>)
    requires IsVector(scores, limit, vector)
    ensures AllNeeds(scores, all) && vector <= all
    ensures limit >= 0 ==> |vector| <= limit && (|vector| == limit || vector == all)
    ensures limit < 0 ==> |vector| == (if |all| + limit >= 0 then |all| + limit else 0)
  {
    all :| AllNeeds(scores, all) && vector == all[..Stop(limit, |all|)];
  }
}
