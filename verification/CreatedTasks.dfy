/** What a created task is made of and when creating it succeeds, said of the request and the environment's answers. */
module CreatedTasks {
  import opened Outcomes
  import opened Reals
  import opened Text
  import opened ScopeTags
  import opened TaskCreation

  /** The evaluator is asked when the difficulty or a weight is missing. */
  ghost predicate SomethingMissing(draft: Draft, tags: seq<TaskTag>) {
    draft.difficulty <= 0 || exists i :: 0 <= i < |tags| && tags[i].weight <= 0.0
  }

  ghost predicate AllKnown(env: Environment, tags: seq<TaskTag>) {
    forall i :: 0 <= i < |tags| ==> tags[i].tagID != "" && env.lookup(tags[i].tagID).Found?
  }

  lemma {:induction false} KnownMeansNoError(env: Environment, tags: seq<TaskTag>)
    ensures FirstTagError(env, tags).None? <==> AllKnown(env, tags)
  {
    var n := FirstBad(env, tags);
    assert forall i :: 0 <= i < |tags| ==>
      (TagError(env, tags[i]).None? <==> tags[i].tagID != "" && env.lookup(tags[i].tagID).Found?);
  }

  /** Creating a task succeeds exactly when it has a title and a body, its tags are known and nothing it needs fails. */
  lemma {:induction false} CreationSucceedsIff(env: Environment, draft: Draft, tags: seq<TaskTag>)
    ensures Creation(env, draft, tags).Ok? <==>
      && !AllOf(IsSpace, draft.title) && !AllOf(IsSpace, draft.latexBody)
      && AllKnown(env, tags)
      && (draft.topicIDs == [] || env.topicsError.None?)
      && !(SomethingMissing(draft, tags) && env.evaluation.EvaluationFailed?)
      && env.storeError.None?
  {
    BlankMeansAllSpaces(draft.title);
    BlankMeansAllSpaces(draft.latexBody);
    KnownMeansNoError(env, tags);
  }

  /** The first tag that is unnamed or unknown decides the error. */
  lemma {:induction false} UnknownTagFails(env: Environment, draft: Draft, tags: seq<TaskTag>, i: nat)
    requires !AllOf(IsSpace, draft.title) && !AllOf(IsSpace, draft.latexBody)
    requires i < |tags| && AllKnown(env, tags[..i])
    ensures tags[i].tagID == "" ==> Creation(env, draft, tags) == Err("tag_id is required")
    ensures tags[i].tagID != "" && env.lookup(tags[i].tagID).Unknown? ==>
      Creation(env, draft, tags) == Err("unknown tag_id: " + tags[i].tagID)
  {
    BlankMeansAllSpaces(draft.title);
    BlankMeansAllSpaces(draft.latexBody);
    assert forall j :: 0 <= j < i ==> tags[..i][j] == tags[j];
    assert forall j :: 0 <= j < i ==> TagError(env, tags[j]).None?;
  }

  /**
   A created task keeps what it was given. A missing difficulty is the evaluator's if that is positive, else 1; a blank
   status becomes "published".
   */
  lemma {:induction false} CreatedDraft(env: Environment, draft: Draft, tags: seq<TaskTag>)
    requires Creation(env, draft, tags).Ok?
    ensures var task := Creation(env, draft, tags).value;
      var final := task.draft;
      && task.id == env.newID && task.createdAt == env.now
      && final.title == draft.title && final.latexBody == draft.latexBody && final.correctAnswer == draft.correctAnswer
      && final.topicIDs == draft.topicIDs && final.authorID == draft.authorID
      && final.status == (if AllOf(IsSpace, draft.status) then "published" else draft.status)
      && final.difficulty ==
           if draft.difficulty > 0 then draft.difficulty
           else if env.evaluation.Evaluated? && env.evaluation.difficulty > 0 then env.evaluation.difficulty
           else 1
  {
    BlankMeansAllSpaces(draft.status);
  }

  /** The weight a tag goes in with: its own if positive, else the evaluator's if there is one that is, else its own. */
  function GivenWeight(env: Environment, tag: TaskTag): real {
    if tag.weight > 0.0 then tag.weight
    else if env.evaluation.Evaluated? && tag.tagID in env.evaluation.weights && env.evaluation.weights[tag.tagID] > 0.0
    then env.evaluation.weights[tag.tagID]
    else tag.weight
  }

  lemma {:induction false} PreparedTag(env: Environment, difficulty: int, tags: seq<TaskTag>, i: nat)
    requires i < |tags| && env.lookup(tags[i].tagID).Found?
    ensures var known, tag := env.lookup(tags[i].tagID).tag, Prepared(env, difficulty, tags)[i];
      tag == TaskTag(tags[i].tagID, known.code, known.name, known.kind, GivenWeight(env, tags[i]))
  {
  }

  lemma {:induction false} RescaledTag(tags: seq<TaskTag>, i: nat)
    requires i < |tags|
    ensures Rescaled(tags)[i] == tags[i].(weight := Rescaled(tags)[i].weight)
  {
  }

  /**
   Each tag of a created task carries the labels of the tag table, and a weight that is the given one divided by the
   sum of the positive given ones (the same share for all if none is positive).
   */
  lemma {:induction false} CreatedTag(env: Environment, draft: Draft, tags: seq<TaskTag>, i: nat)
    requires Creation(env, draft, tags).Ok? && i < |tags|
    ensures |Creation(env, draft, tags).value.tags| == |tags| && env.lookup(tags[i].tagID).Found?
    ensures var tag, known := Creation(env, draft, tags).value.tags[i], env.lookup(tags[i].tagID).tag;
      var given := Prepared(env, draft.difficulty, tags);
      && tag.tagID == tags[i].tagID && tag.code == known.code && tag.name == known.name && tag.kind == known.kind
      && given[i].weight == GivenWeight(env, tags[i])
      && ShareOf(tag.weight, if HasPositive(given) then PositiveTotal(given) else |tags| as real,
                 if HasPositive(given) then given[i].weight else 1.0)
  {
    KnownMeansNoError(env, tags);
    PreparedTag(env, draft.difficulty, tags, i);
    var given := Prepared(env, draft.difficulty, tags);
    RescaledTag(given, i);
    RescaledKeepsRatios(given, i);
  }

  lemma {:induction false} PositiveTotalGrows(tags: seq<TaskTag>, tag: TaskTag)
    ensures PositiveTotal([]) == 0.0
    ensures PositiveTotal(tags + [tag]) == PositiveTotal(tags) + (if tag.weight > 0.0 then tag.weight else 0.0)
  {
    assert (tags + [tag])[..|tags|] == tags;
  }

  /** A task created in a scope has the item's own content, the scope's status and author, and both lists of topics. */
  lemma {:induction false} ScopedTaskFields(env: Environment, scope: Scope, item: ScopedTask)
    requires ScopedCreation(env, scope, item).Ok?
    ensures var final := ScopedCreation(env, scope, item).value.draft;
      && final.title == item.title && final.latexBody == item.latexBody && final.correctAnswer == item.correctAnswer
      && final.topicIDs == Unique(scope.topicIDs + item.topicIDs)
      && final.authorID == TrimSpace(scope.authorID)
      && final.status == (if AllOf(IsSpace, scope.status) then "published" else scope.status)
      && (item.difficulty > 0 ==> final.difficulty == item.difficulty)
  {
    BlankMeansAllSpaces(scope.status);
    TrimTwiceIsOnce(scope.authorID);
  }

  lemma {:induction false} TrimTwiceIsOnce(s: string)
    ensures TrimSpace(TrimSpace(s)) == TrimSpace(s)
  {
    var lead, trail := TrimSpaceDropsSpaces(s);
  }

  /** With known tags the first of topics, evaluation and store that fails decides the error. */
  lemma {:induction false} LaterErrors(env: Environment, draft: Draft, tags: seq<TaskTag>)
    requires !AllOf(IsSpace, draft.title) && !AllOf(IsSpace, draft.latexBody) && AllKnown(env, tags)
    ensures var topicsFail := draft.topicIDs != [] && env.topicsError.Some?;
      var evaluationFails := SomethingMissing(draft, tags) && env.evaluation.EvaluationFailed?;
      && (topicsFail ==> Creation(env, draft, tags) == Err(env.topicsError.value))
      && (!topicsFail && evaluationFails ==> Creation(env, draft, tags) == Err(env.evaluation.message))
      && (!topicsFail && !evaluationFails && env.storeError.Some? ==>
            Creation(env, draft, tags) == Err(env.storeError.value))
  {
    BlankMeansAllSpaces(draft.title);
    BlankMeansAllSpaces(draft.latexBody);
    KnownMeansNoError(env, tags);
  }
}
