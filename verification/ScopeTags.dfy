/** Dropping repeated ids, and merging a scope's tags with a task's own: the input side of scoped task creation. */
module ScopeTags {
  import opened Outcomes
  import opened Permutations

  datatype TaskTag = TaskTag(tagID: string, code: string, name: string, kind: string, weight: real)

  function TagIDs(tags: seq<TaskTag>): (ids: seq<string>)
    ensures |ids| == |tags|
  {
    seq(|tags|, i requires 0 <= i < |tags| => tags[i].tagID)
  }

  // ---- uniqueStrings ----

  /** The non-empty values, each kept where it first occurs. */
  function Unique(values: seq<string>): seq<string> {
    if values == [] then []
    else
      var last, before := values[|values| - 1], values[..|values| - 1];
      if last == "" || last in before then Unique(before) else Unique(before) + [last]
  }

  function FirstIndex<T(==)>(s: seq<T>, x: T): (i: nat)
    ensures i <= |s| && x !in s[..i] && (i < |s| ==> s[i] == x)
  {
    if s == [] || s[0] == x then 0 else
      var i := 1 + FirstIndex(s[1..], x);
      assert s[..i] == [s[0]] + s[1..][..i - 1];
      i
  }

  lemma {:induction false} FirstIndexFound<T>(s: seq<T>, x: T)
    ensures FirstIndex(s, x) < |s| <==> x in s
  {
    assert s[..|s|] == s;
  }

  lemma {:induction false} FirstIndexAppend<T>(s: seq<T>, y: T, x: T)
    ensures x in s ==> FirstIndex(s + [y], x) == FirstIndex(s, x)
    ensures x !in s && x == y ==> FirstIndex(s + [y], x) == |s|
  {
    if s != [] && s[0] != x {
      assert (s + [y])[1..] == s[1..] + [y];
      FirstIndexAppend(s[1..], y, x);
    }
  }

  /** No id twice, exactly the non-empty values, in the order of their first occurrences. */
  lemma {:induction false} UniqueKeepsFirstOccurrences(values: seq<string>)
    ensures Distinct(Unique(values))
    ensures forall v :: v in Unique(values) <==> v in values && v != ""
    ensures forall i, j :: 0 <= i < j < |Unique(values)| ==>
      FirstIndex(values, Unique(values)[i]) < FirstIndex(values, Unique(values)[j])
  {
    if values != [] {
      var last, before := values[|values| - 1], values[..|values| - 1];
      assert values == before + [last];
      UniqueKeepsFirstOccurrences(before);
      var u := Unique(values);
      forall i | 0 <= i < |u|
        ensures u[i] in before ==> FirstIndex(values, u[i]) == FirstIndex(before, u[i]) < |before|
        ensures u[i] !in before ==> FirstIndex(values, u[i]) == |before|
      {
        FirstIndexAppend(before, last, u[i]);
        FirstIndexFound(before, u[i]);
      }
    }
  }

  method UniqueStrings(values: seq<string>) returns (out: seq<string>)
    ensures out == Unique(values)
  {
    var seen: set<string> := {};
    out := [];
    for i := 0 to |values|
      invariant out == Unique(values[..i])
      invariant forall v :: v in seen <==> v in values[..i] && v != ""
    {
      var value := values[i];
      assert values[..i + 1][..i] == values[..i];
      assert values[..i + 1] == values[..i] + [value];
      if value == "" || value in seen {
        continue;
      }
      seen := seen + {value};
      out := out + [value];
    }
    assert values[..|values|] == values;
  }

  // ---- mergeScopeTags ----

  /** The last positive weight the explicit tags give to `id`. */
  function LastPositive(tags: seq<TaskTag>, id: string): Option<real> {
    if tags == [] then None
    else
      var last, before := tags[|tags| - 1], tags[..|tags| - 1];
      if last.tagID == id && last.weight > 0.0 then Some(last.weight) else LastPositive(before, id)
  }

  function Plain(id: string): TaskTag {
    TaskTag(id, "", "", "", 0.0)
  }

  /**
   What the merged list holds for `id`: a bare tag if the scope or the task lists the id, else the first
   explicit tag with it; and on it the last positive explicit weight, if there is one.
   */
  function MergedTag(listed: seq<string>, explicit: seq<TaskTag>, id: string): (tag: TaskTag)
    requires id in listed || id in TagIDs(explicit)
  {
    var base :=
      if id in listed then Plain(id)
      else
        (FirstIndexFound(TagIDs(explicit), id);
         explicit[FirstIndex(TagIDs(explicit), id)]);
    match LastPositive(explicit, id)
    case None => base
    case Some(weight) => base.(weight := weight)
  }

  /** The merged list: the distinct ids of the three sources in order of first mention, each with its merged tag. */
  ghost predicate IsMerge(listed: seq<string>, explicit: seq<TaskTag>, out: seq<TaskTag>) {
    && TagIDs(out) == Unique(listed + TagIDs(explicit))
    && forall i :: 0 <= i < |out| ==>
      && (out[i].tagID in listed || out[i].tagID in TagIDs(explicit))
      && out[i] == MergedTag(listed, explicit, out[i].tagID)
  }

  /** The merged list as a function; `IsMerge` says it is the only one. */
  function Merge(listed: seq<string>, explicit: seq<TaskTag>): (out: seq<TaskTag>)
    ensures IsMerge(listed, explicit, out)
  {
    var ids := Unique(listed + TagIDs(explicit));
    UniqueKeepsFirstOccurrences(listed + TagIDs(explicit));
    MergedIDs(listed, explicit, ids);
    seq(|ids|, i requires 0 <= i < |ids| =>
      assert ids[i] in listed || ids[i] in TagIDs(explicit); MergedTag(listed, explicit, ids[i]))
  }

  lemma {:induction false} MergedIDs(listed: seq<string>, explicit: seq<TaskTag>, ids: seq<string>)
    requires forall id :: id in ids ==> id in listed + TagIDs(explicit)
    ensures forall i :: 0 <= i < |ids| ==>
      (ids[i] in listed || ids[i] in TagIDs(explicit)) && MergedTag(listed, explicit, ids[i]).tagID == ids[i]
  {
    forall i | 0 <= i < |ids| ensures ids[i] in listed || ids[i] in TagIDs(explicit)
      ensures MergedTag(listed, explicit, ids[i]).tagID == ids[i]
    {
      assert ids[i] in listed + TagIDs(explicit);
      FirstIndexFound(TagIDs(explicit), ids[i]);
    }
  }

  lemma {:induction false} MergeIsUnique(listed: seq<string>, explicit: seq<TaskTag>, out: seq<TaskTag>)
    requires IsMerge(listed, explicit, out)
    ensures out == Merge(listed, explicit)
  {
    var other := Merge(listed, explicit);
    forall i | 0 <= i < |out| ensures out[i] == other[i] {
      assert TagIDs(out)[i] == TagIDs(other)[i];
    }
  }

  /** How one more explicit tag changes the merged tag of an id that was there already. */
  lemma {:induction false} MergedTagStep(listed: seq<string>, explicit: seq<TaskTag>, tag: TaskTag, id: string)
    requires id in listed || id in TagIDs(explicit)
    ensures id in listed || id in TagIDs(explicit + [tag])
    ensures MergedTag(listed, explicit + [tag], id) ==
      var before := MergedTag(listed, explicit, id);
      if tag.tagID == id && tag.weight > 0.0 then before.(weight := tag.weight) else before
  {
    assert TagIDs(explicit + [tag]) == TagIDs(explicit) + [tag.tagID];
    assert (explicit + [tag])[..|explicit|] == explicit;
    FirstIndexAppend(TagIDs(explicit), tag.tagID, id);
    FirstIndexFound(TagIDs(explicit), id);
  }

  lemma {:induction false} NoLastPositive(explicit: seq<TaskTag>, id: string)
    requires id !in TagIDs(explicit)
    ensures LastPositive(explicit, id) == None
  {
    if explicit != [] {
      var before := explicit[..|explicit| - 1];
      assert TagIDs(explicit) == TagIDs(before) + [explicit[|explicit| - 1].tagID];
      NoLastPositive(before, id);
    }
  }

  /** A tag whose id is new is taken over as it is. */
  lemma {:induction false} MergedTagNew(listed: seq<string>, explicit: seq<TaskTag>, tag: TaskTag)
    requires tag.tagID !in listed && tag.tagID !in TagIDs(explicit)
    ensures tag.tagID in TagIDs(explicit + [tag])
    ensures MergedTag(listed, explicit + [tag], tag.tagID) == tag
  {
    assert TagIDs(explicit + [tag]) == TagIDs(explicit) + [tag.tagID];
    assert TagIDs(explicit + [tag])[|explicit|] == tag.tagID;
    assert (explicit + [tag])[..|explicit|] == explicit;
    FirstIndexAppend(TagIDs(explicit), tag.tagID, tag.tagID);
    NoLastPositive(explicit, tag.tagID);
  }

  /** A listed id starts as a bare tag when no explicit tag has been merged yet. */
  lemma {:induction false} MergeStart(listed: seq<string>, out: seq<TaskTag>)
    requires TagIDs(out) == Unique(listed) && forall i :: 0 <= i < |out| ==> out[i] == Plain(out[i].tagID)
    ensures IsMerge(listed, [], out)
  {
    UniqueKeepsFirstOccurrences(listed);
    assert listed + TagIDs([]) == listed;
    forall i | 0 <= i < |out| ensures out[i].tagID in listed {
      assert TagIDs(out)[i] in Unique(listed);
    }
  }

  /** The merge of one explicit tag into a merged list. */
  lemma {:induction false} MergeStep(listed: seq<string>, explicit: seq<TaskTag>, tag: TaskTag, out: seq<TaskTag>,
                                     out': seq<TaskTag>)
    requires IsMerge(listed, explicit, out)
    requires
      if tag.tagID == "" then out' == out
      else if tag.tagID in TagIDs(out) then
        && |out'| == |out|
        && forall i :: 0 <= i < |out| ==>
          out'[i] == if out[i].tagID == tag.tagID && tag.weight > 0.0 then out[i].(weight := tag.weight) else out[i]
      else out' == out + [tag]
    ensures IsMerge(listed, explicit + [tag], out')
  {
    var all := listed + TagIDs(explicit);
    assert listed + TagIDs(explicit + [tag]) == all + [tag.tagID];
    assert (all + [tag.tagID])[..|all|] == all;
    UniqueKeepsFirstOccurrences(all);
    assert TagIDs(out') == Unique(all + [tag.tagID]) by {
      assert tag.tagID in TagIDs(out) <==> tag.tagID in all && tag.tagID != "";
      if tag.tagID != "" && tag.tagID !in TagIDs(out) {
        assert TagIDs(out') == TagIDs(out) + [tag.tagID];
      } else {
        assert TagIDs(out') == TagIDs(out);
      }
    }
    forall i | 0 <= i < |out'|
      ensures out'[i].tagID in listed || out'[i].tagID in TagIDs(explicit + [tag])
      ensures out'[i] == MergedTag(listed, explicit + [tag], out'[i].tagID)
    {
      if i < |out| {
        assert TagIDs(out)[i] == out[i].tagID && TagIDs(out)[i] in Unique(all);
        MergedTagStep(listed, explicit, tag, out[i].tagID);
      } else {
        assert tag.tagID !in Unique(all);
        MergedTagNew(listed, explicit, tag);
      }
    }
  }

  method MergeScopeTags(scopeTagIDs: seq<string>, itemTagIDs: seq<string>, explicit: seq<TaskTag>)
    returns (out: seq<TaskTag>)
    ensures IsMerge(scopeTagIDs + itemTagIDs, explicit, out)
  {
    var listed := scopeTagIDs + itemTagIDs;
    var added: set<string> := {};
    out := [];
    for i := 0 to |listed|
      invariant TagIDs(out) == Unique(listed[..i])
      invariant forall k :: 0 <= k < |out| ==> out[k] == Plain(out[k].tagID)
      invariant forall id :: id in added <==> id in TagIDs(out)
    {
      var tagID := listed[i];
      assert listed[..i + 1][..i] == listed[..i];
      UniqueKeepsFirstOccurrences(listed[..i]);
      if tagID == "" || tagID in added {
        continue;
      }
      added := added + {tagID};
      assert TagIDs(out + [Plain(tagID)]) == TagIDs(out) + [tagID];
      out := out + [Plain(tagID)];
    }
    assert listed[..|listed|] == listed;
    MergeStart(listed, out);
    for i := 0 to |explicit|
      invariant IsMerge(listed, explicit[..i], out)
      invariant forall id :: id in added <==> id in TagIDs(out)
    {
      var tag := explicit[i];
      ghost var before := out;
      assert explicit[..i + 1] == explicit[..i] + [tag];
      if tag.tagID != "" && tag.tagID in added {
        out := SetWeight(out, tag, listed, explicit[..i]);
        assert TagIDs(out) == TagIDs(before);
      } else if tag.tagID != "" {
        added := added + {tag.tagID};
        out := out + [tag];
        assert TagIDs(out) == TagIDs(before) + [tag.tagID];
      }
      MergeStep(listed, explicit[..i], tag, before, out);
    }
    assert explicit[..|explicit|] == explicit;
  }

  /**
   The scan for the entry with the tag's id, which stops at the first hit; ids are distinct, so it is the only one.
   */
  method SetWeight(out: seq<TaskTag>, tag: TaskTag, ghost listed: seq<string>, ghost explicit: seq<TaskTag>)
    returns (r: seq<TaskTag>)
    requires IsMerge(listed, explicit, out)
    ensures |r| == |out|
    ensures forall i :: 0 <= i < |out| ==>
      r[i] == if out[i].tagID == tag.tagID && tag.weight > 0.0 then out[i].(weight := tag.weight) else out[i]
  {
    UniqueKeepsFirstOccurrences(listed + TagIDs(explicit));
    forall i, j | 0 <= i < j < |out| ensures out[i].tagID != out[j].tagID {
      assert TagIDs(out)[i] != TagIDs(out)[j];
    }
    r := out;
    for i := 0 to |out|
      invariant r == out
      invariant forall k :: 0 <= k < i ==> out[k].tagID != tag.tagID
    {
      if out[i].tagID == tag.tagID {
        if tag.weight > 0.0 {
          r := r[i := r[i].(weight := tag.weight)];
        }
        break;
      }
    }
  }

  /** The merged ids are distinct, non-empty and exactly the non-empty ids of the three sources. */
  lemma {:induction false} MergeIsUnion(scopeTagIDs: seq<string>, itemTagIDs: seq<string>, explicit: seq<TaskTag>,
                                        out: seq<TaskTag>)
    requires IsMerge(scopeTagIDs + itemTagIDs, explicit, out)
    ensures Distinct(TagIDs(out))
    ensures forall id ::
      id in TagIDs(out) <==> id != "" && (id in scopeTagIDs || id in itemTagIDs || id in TagIDs(explicit))
  {
    UniqueKeepsFirstOccurrences(scopeTagIDs + itemTagIDs + TagIDs(explicit));
  }

  /**
   The merged weight is positive exactly when some explicit tag gives the id a positive weight: the last such one
   wins.
   */
  lemma {:induction false} LastPositiveWins(listed: seq<string>, explicit: seq<TaskTag>, k: nat)
    requires k < |explicit| && explicit[k].weight > 0.0
    requires forall j :: k < j < |explicit| ==> explicit[j].tagID != explicit[k].tagID || explicit[j].weight <= 0.0
    ensures explicit[k].tagID in TagIDs(explicit)
    ensures MergedTag(listed, explicit, explicit[k].tagID).weight == explicit[k].weight
  {
    assert TagIDs(explicit)[k] == explicit[k].tagID;
    LastPositiveAt(explicit, k);
  }

  lemma {:induction false} LastPositiveAt(explicit: seq<TaskTag>, k: nat)
    requires k < |explicit| && explicit[k].weight > 0.0
    requires forall j :: k < j < |explicit| ==> explicit[j].tagID != explicit[k].tagID || explicit[j].weight <= 0.0
    ensures LastPositive(explicit, explicit[k].tagID) == Some(explicit[k].weight)
    decreases |explicit|
  {
    if k < |explicit| - 1 {
      assert explicit[..|explicit| - 1][k] == explicit[k];
      LastPositiveAt(explicit[..|explicit| - 1], k);
    }
  }

  lemma {:induction false} NoPositiveWeight(listed: seq<string>, explicit: seq<TaskTag>, id: string)
    requires id in listed || id in TagIDs(explicit)
    requires forall j :: 0 <= j < |explicit| && explicit[j].tagID == id ==> explicit[j].weight <= 0.0
    ensures MergedTag(listed, explicit, id).weight <= 0.0
    ensures id in listed ==> MergedTag(listed, explicit, id) == Plain(id)
  {
    NonePositive(explicit, id);
    FirstIndexFound(TagIDs(explicit), id);
  }

  lemma {:induction false} NonePositive(explicit: seq<TaskTag>, id: string)
    requires forall j :: 0 <= j < |explicit| && explicit[j].tagID == id ==> explicit[j].weight <= 0.0
    ensures LastPositive(explicit, id) == None
  {
    if explicit != [] {
      NonePositive(explicit[..|explicit| - 1], id);
    }
  }
}
