/**
 Creating a task: its tags are looked up, missing weights are asked of the evaluator, and the weights are
 rescaled in place. What the evaluator, the tag table and the store answer is part of the `Environment`.
 */
module TaskCreation {
  import opened Outcomes
  import opened Permutations
  import opened Reals
  import opened Text
  import opened ScopeTags

  datatype Tag = Tag(id: string, code: string, name: string, kind: string)

  datatype TagLookup = Found(tag: Tag) | Unknown | LookupFailed(message: string)

  datatype Evaluation =
    | NotConfigured
    | EvaluationFailed(message: string)
    | Evaluated(difficulty: int, weights: map<string, real>)

  datatype Environment = Environment(lookup: string -> TagLookup, topicsError: Option<string>, evaluation: Evaluation,
                                     storeError: Option<string>, newID: string, now: nat)

  /** A task apart from its tags. */
  datatype Draft = Draft(title: string, latexBody: string, correctAnswer: string, topicIDs: seq<string>,
                         difficulty: int, status: string, authorID: string)

  datatype Task = Task(id: string, draft: Draft, tags: seq<TaskTag>, createdAt: nat)

  datatype ScopedTask = ScopedTask(title: string, latexBody: string, correctAnswer: string, difficulty: int,
                                   topicIDs: seq<string>, tagIDs: seq<string>, tags: seq<TaskTag>)

  datatype Scope = Scope(topicIDs: seq<string>, tagIDs: seq<string>, tasks: seq<ScopedTask>,
                         authorID: string, status: string)

  function ValueOr(value: string, fallback: string): string {
    if Blank(value) then fallback else value
  }

  // ---- The tags, step by step ----

  function TagError(env: Environment, tag: TaskTag): Option<string> {
    if tag.tagID == "" then Some("tag_id is required")
    else match env.lookup(tag.tagID)
      case LookupFailed(message) => Some(message)
      case Unknown => Some("unknown tag_id: " + tag.tagID)
      case Found(_) => None
  }

  /** The position of the first tag that cannot be resolved. */
  function FirstBad(env: Environment, tags: seq<TaskTag>): (n: nat)
    ensures n <= |tags| && forall i :: 0 <= i < n ==> TagError(env, tags[i]).None?
    ensures n < |tags| ==> TagError(env, tags[n]).Some?
  {
    if tags == [] || TagError(env, tags[0]).Some? then 0 else 1 + FirstBad(env, tags[1..])
  }

  /** It decides the error. */
  function FirstTagError(env: Environment, tags: seq<TaskTag>): Option<string> {
    var n := FirstBad(env, tags);
    if n < |tags| then TagError(env, tags[n]) else None
  }

  function Labelled(env: Environment, tag: TaskTag): TaskTag {
    match env.lookup(tag.tagID)
    case Found(known) => tag.(code := known.code, name := known.name, kind := known.kind)
    case _ => tag
  }

  function Filled(weights: map<string, real>, tag: TaskTag): TaskTag {
    if tag.weight <= 0.0 && tag.tagID in weights && weights[tag.tagID] > 0.0
    then tag.(weight := weights[tag.tagID])
    else tag
  }

  function NeedsWeights(tags: seq<TaskTag>): bool {
    exists i :: 0 <= i < |tags| && tags[i].weight <= 0.0
  }

  function PositiveTotal(tags: seq<TaskTag>): (total: real)
    ensures total >= 0.0
  {
    if tags == [] then 0.0 else PositiveTotal(tags[..|tags| - 1]) + Positive(tags[|tags| - 1].weight)
  }

  function Each(f: TaskTag -> TaskTag, tags: seq<TaskTag>): (r: seq<TaskTag>)
    ensures |r| == |tags| && forall i :: 0 <= i < |tags| ==> r[i] == f(tags[i])
  {
    seq(|tags|, i requires 0 <= i < |tags| => f(tags[i]))
  }

  /** Whether the evaluator is asked, and so consulted for difficulty and weights. */
  function Asks(env: Environment, difficulty: int, tags: seq<TaskTag>): bool {
    (difficulty <= 0 || NeedsWeights(tags)) && env.evaluation != NotConfigured
  }

  /** Tags with labels from the tag table and the evaluator's weights where they had none. */
  function Prepared(env: Environment, difficulty: int, tags: seq<TaskTag>): (r: seq<TaskTag>)
    ensures |r| == |tags|
  {
    var labelled := Each((tag: TaskTag) => Labelled(env, tag), tags);
    if Asks(env, difficulty, tags) && env.evaluation.Evaluated?
    then Each((tag: TaskTag) => Filled(env.evaluation.weights, tag), labelled)
    else labelled
  }

  /** Weights rescaled by the sum of the positive ones; equal shares when no weight is positive. */
  function Rescaled(tags: seq<TaskTag>): (r: seq<TaskTag>)
    ensures |r| == |tags|
  {
    var total := PositiveTotal(tags);
    if total > 0.0
    then Each((tag: TaskTag) => tag.(weight := tag.weight / total), tags)
    else if tags == [] then []
    else Each((tag: TaskTag) => tag.(weight := 1.0 / |tags| as real), tags)
  }

  function FinalDifficulty(env: Environment, difficulty: int, tags: seq<TaskTag>): (d: int)
    ensures d >= 1
  {
    var rated :=
      if Asks(env, difficulty, tags) && env.evaluation.Evaluated? && difficulty <= 0 && env.evaluation.difficulty > 0
      then env.evaluation.difficulty else difficulty;
    if rated <= 0 then 1 else rated
  }

  /** What creating a task answers, for the given draft, tags and answers of the environment. */
  function Creation(env: Environment, draft: Draft, tags: seq<TaskTag>): Result<Task> {
    if Blank(draft.title) || Blank(draft.latexBody) then Err("title and latex_body are required")
    else if FirstTagError(env, tags).Some? then Err(FirstTagError(env, tags).value)
    else if draft.topicIDs != [] && env.topicsError.Some? then Err(env.topicsError.value)
    else if Asks(env, draft.difficulty, tags) && env.evaluation.EvaluationFailed? then Err(env.evaluation.message)
    else if env.storeError.Some? then Err(env.storeError.value)
    else
      var final := draft.(difficulty := FinalDifficulty(env, draft.difficulty, tags),
                          status := ValueOr(draft.status, "published"));
      Ok(Task(env.newID, final, Rescaled(Prepared(env, draft.difficulty, tags)), env.now))
  }

  /** The first n tags with their labels, the others as they were. */
  function LabelledUpTo(env: Environment, tags: seq<TaskTag>, n: nat): (r: seq<TaskTag>)
    ensures |r| == |tags|
  {
    seq(|tags|, i requires 0 <= i < |tags| => if i < n then Labelled(env, tags[i]) else tags[i])
  }

  /** What the call leaves in the caller's tags, whether it succeeds or fails. */
  function TagsAfter(env: Environment, draft: Draft, tags: seq<TaskTag>): seq<TaskTag> {
    if Blank(draft.title) || Blank(draft.latexBody) then tags
    else if FirstTagError(env, tags).Some? then LabelledUpTo(env, tags, FirstBad(env, tags))
    else if (draft.topicIDs != [] && env.topicsError.Some?)
         || (Asks(env, draft.difficulty, tags) && env.evaluation.EvaluationFailed?) then LabelledUpTo(env, tags, |tags|)
    else Rescaled(Prepared(env, draft.difficulty, tags))
  }

  // ---- The service ----

  class ContentService {
    var tasks: seq<Task>

    constructor ()
      ensures tasks == []
    {
      tasks := [];
    }

    method CreateTask(env: Environment, draft: Draft, tags: array<TaskTag>) returns (r: Result<Task>)
      modifies this, tags
      ensures r == Creation(env, draft, old(tags[..]))
      ensures tags[..] == TagsAfter(env, draft, old(tags[..])) && (r.Ok? ==> tags[..] == r.value.tags)
      ensures tasks == if r.Ok? then old(tasks) + [r.value] else old(tasks)
    {
      ghost var given := tags[..];
      if Blank(draft.title) || Blank(draft.latexBody) {
        return Err("title and latex_body are required");
      }
      var needsWeights := false;
      for i := 0 to tags.Length
        modifies tags
        invariant forall k :: 0 <= k < i ==> TagError(env, given[k]).None?
        invariant forall k :: 0 <= k < i ==> tags[k] == Labelled(env, given[k])
        invariant forall k :: i <= k < tags.Length ==> tags[k] == given[k]
        invariant needsWeights <==> NeedsWeights(given[..i])
      {
        if TagError(env, given[i]).Some? {
          assert FirstBad(env, given) == i && tags[..] == LabelledUpTo(env, given, i);
        }
        if tags[i].tagID == "" {
          return Err("tag_id is required");
        }
        var found := env.lookup(tags[i].tagID);
        if found.LookupFailed? {
          return Err(found.message);
        }
        if found.Unknown? {
          return Err("unknown tag_id: " + tags[i].tagID);
        }
        tags[i] := tags[i].(code := found.tag.code, name := found.tag.name, kind := found.tag.kind);
        NeedsWeightsStep(given, i);
        if tags[i].weight <= 0.0 {
          needsWeights := true;
        }
      }
      assert given[..tags.Length] == given;
      assert tags[..] == Each((tag: TaskTag) => Labelled(env, tag), given);
      assert tags[..] == LabelledUpTo(env, given, |given|);
      if draft.topicIDs != [] && env.topicsError.Some? {
        return Err(env.topicsError.value);
      }
      var difficulty := draft.difficulty;
      if (difficulty <= 0 || needsWeights) && env.evaluation != NotConfigured {
        if env.evaluation.EvaluationFailed? {
          return Err(env.evaluation.message);
        }
        if difficulty <= 0 && env.evaluation.difficulty > 0 {
          difficulty := env.evaluation.difficulty;
        }
        FillWeights(tags, env.evaluation.weights);
      }
      if difficulty <= 0 {
        difficulty := 1;
      }
      assert tags[..] == Prepared(env, draft.difficulty, given);
      Rescale(tags);
      if env.storeError.Some? {
        return Err(env.storeError.value);
      }
      var task := Task(env.newID, draft.(difficulty := difficulty, status := ValueOr(draft.status, "published")),
                       tags[..], env.now);
      tasks := tasks + [task];
      return Ok(task);
    }

    method CreateScoped(env: Environment, scope: Scope, item: ScopedTask) returns (r: Result<Task>)
      modifies this
      ensures r == ScopedCreation(env, scope, item)
      ensures tasks == if r.Ok? then old(tasks) + [r.value] else old(tasks)
    {
      var topicIDs := UniqueStrings(scope.topicIDs + item.topicIDs);
      var merged := MergeScopeTags(scope.tagIDs, item.tagIDs, item.tags);
      MergeIsUnique(scope.tagIDs + item.tagIDs, item.tags, merged);
      var tags := new TaskTag[|merged|](k requires 0 <= k < |merged| => merged[k]);
      assert tags[..] == merged;
      r := CreateTask(env, ScopedDraft(scope, item, topicIDs), tags);
    }

    /** Tasks are created one by one; the first failure ends the call, and the tasks made before it stay stored. */
    method CreateTasksInScope(envs: seq<Environment>, scope: Scope) returns (r: Result<seq<Task>>)
      requires |envs| == |scope.tasks|
      modifies this
      ensures tasks == old(tasks) + Made(envs, scope)
      ensures r == ScopeAnswer(envs, scope)
    {
      if |scope.tasks| == 0 {
        return Err("tasks are required");
      }
      var created: seq<Task> := [];
      ghost var rs := ScopedCreations(envs, scope);
      for i := 0 to |scope.tasks|
        modifies this
        invariant created == Leading(rs, i) && |created| == i
        invariant tasks == old(tasks) + created
      {
        var task := CreateScoped(envs[i], scope, scope.tasks[i]);
        assert task == rs[i];
        if task.Err? {
          LeadingStops(rs, i + 1, |rs|);
          return Err(task.message);
        }
        created := created + [task.value];
      }
      return Ok(created);
    }
  }

  function ScopedDraft(scope: Scope, item: ScopedTask, topicIDs: seq<string>): Draft {
    Draft(item.title, item.latexBody, item.correctAnswer, topicIDs, item.difficulty, scope.status,
          ValueOr(TrimSpace(scope.authorID), ""))
  }

  /** What creating one item of the scope answers, from the merged tags and the merged topics. */
  function ScopedCreation(env: Environment, scope: Scope, item: ScopedTask): Result<Task> {
    Creation(env, ScopedDraft(scope, item, Unique(scope.topicIDs + item.topicIDs)),
             Merge(scope.tagIDs + item.tagIDs, item.tags))
  }

  /** What creating each item of the scope would answer. */
  function ScopedCreations(envs: seq<Environment>, scope: Scope): (rs: seq<Result<Task>>)
    requires |envs| == |scope.tasks|
    ensures |rs| == |envs| && forall i :: 0 <= i < |rs| ==> rs[i] == ScopedCreation(envs[i], scope, scope.tasks[i])
  {
    seq(|envs|, i requires 0 <= i < |envs| => ScopedCreation(envs[i], scope, scope.tasks[i]))
  }

  /** The tasks made: those of the items before the first that fails. */
  function Made(envs: seq<Environment>, scope: Scope): seq<Task>
    requires |envs| == |scope.tasks|
  {
    Leading(ScopedCreations(envs, scope), |envs|)
  }

  function ScopeAnswer(envs: seq<Environment>, scope: Scope): Result<seq<Task>>
    requires |envs| == |scope.tasks|
  {
    if scope.tasks == [] then Err("tasks are required") else Collected(ScopedCreations(envs, scope))
  }

  /** A failed call leaves no task behind exactly when there was no item or the first one failed. */
  lemma {:induction false} FailureLeavesNothing(envs: seq<Environment>, scope: Scope)
    requires |envs| == |scope.tasks| && ScopeAnswer(envs, scope).Err?
    ensures Made(envs, scope) == [] <==> scope.tasks == [] || ScopedCreation(envs[0], scope, scope.tasks[0]).Err?
  {
    if scope.tasks != [] {
      NothingLeads(ScopedCreations(envs, scope));
    }
  }

  const GOOD_ITEM: ScopedTask := ScopedTask("t", "b", "", 1, [], [], [])
  const HALF_GOOD: Scope := Scope([], [], [GOOD_ITEM, GOOD_ITEM.(title := "")], "", "")

  lemma {:induction false} HalfGoodItems(env: Environment)
    requires env.evaluation.NotConfigured? && env.storeError.None?
    ensures ScopedCreation(env, HALF_GOOD, GOOD_ITEM).Ok?
    ensures ScopedCreation(env, HALF_GOOD, GOOD_ITEM.(title := "")) == Err("title and latex_body are required")
  {
    assert Unique([] + []) == [] && Merge([] + [], []) == [];
    assert !Blank("t") && !Blank("b");
  }

  /** Two items, the second without a title: the call fails and the first task stays. */
  lemma {:induction false} SecondItemFails(env: Environment)
    requires env.evaluation.NotConfigured? && env.storeError.None?
    ensures ScopeAnswer([env, env], HALF_GOOD) == Err("title and latex_body are required")
    ensures |Made([env, env], HALF_GOOD)| == 1
  {
    var rs := ScopedCreations([env, env], HALF_GOOD);
    HalfGoodItems(env);
    assert rs[0] == ScopedCreation(env, HALF_GOOD, GOOD_ITEM);
    assert rs[1] == ScopedCreation(env, HALF_GOOD, GOOD_ITEM.(title := ""));
    OneOfTwo(rs);
  }

  lemma {:induction false} OneOfTwo(rs: seq<Result<Task>>)
    requires |rs| == 2 && rs[0].Ok? && rs[1].Err?
    ensures |Leading(rs, 2)| == 1 && Collected(rs) == Err(rs[1].message)
  {
    assert Leading(rs, 0) == [];
    assert |Leading(rs, 1)| == 1;
  }

  lemma {:induction false} NeedsWeightsStep(tags: seq<TaskTag>, i: nat)
    requires i < |tags|
    ensures NeedsWeights(tags[..i + 1]) <==> NeedsWeights(tags[..i]) || tags[i].weight <= 0.0
  {
    var longer := tags[..i + 1];
    assert longer[i] == tags[i];
    assert forall k :: 0 <= k < i ==> longer[k] == tags[..i][k];
  }

  method FillWeights(tags: array<TaskTag>, weights: map<string, real>)
    modifies tags
    ensures tags[..] == Each((tag: TaskTag) => Filled(weights, tag), old(tags[..]))
  {
    ghost var given := tags[..];
    for i := 0 to tags.Length
      invariant forall k :: 0 <= k < i ==> tags[k] == Filled(weights, given[k])
      invariant forall k :: i <= k < tags.Length ==> tags[k] == given[k]
    {
      if tags[i].weight <= 0.0 && tags[i].tagID in weights && weights[tags[i].tagID] > 0.0 {
        tags[i] := tags[i].(weight := weights[tags[i].tagID]);
      }
    }
    assert tags[..] == Each((tag: TaskTag) => Filled(weights, tag), given);
  }

  method SumPositive(tags: array<TaskTag>) returns (total: real)
    ensures total == PositiveTotal(tags[..])
  {
    total := 0.0;
    for i := 0 to tags.Length
      invariant total == PositiveTotal(tags[..i])
    {
      assert tags[..i + 1][..i] == tags[..i];
      if tags[i].weight > 0.0 {
        total := total + tags[i].weight;
      }
    }
    assert tags[..tags.Length] == tags[..];
  }

  method Equalize(tags: array<TaskTag>)
    requires tags.Length > 0
    modifies tags
    ensures tags[..] == Each((tag: TaskTag) => tag.(weight := 1.0 / tags.Length as real), old(tags[..]))
  {
    ghost var given := tags[..];
    var equal := 1.0 / tags.Length as real;
    for i := 0 to tags.Length
      invariant forall k :: 0 <= k < i ==> tags[k] == given[k].(weight := equal)
      invariant forall k :: i <= k < tags.Length ==> tags[k] == given[k]
    {
      tags[i] := tags[i].(weight := equal);
    }
    assert tags[..] == Each((tag: TaskTag) => tag.(weight := equal), given);
  }

  method Divide(tags: array<TaskTag>, total: real)
    requires total > 0.0
    modifies tags
    ensures tags[..] == Each((tag: TaskTag) => tag.(weight := tag.weight / total), old(tags[..]))
  {
    ghost var given := tags[..];
    for i := 0 to tags.Length
      invariant forall k :: 0 <= k < i ==> tags[k] == given[k].(weight := given[k].weight / total)
      invariant forall k :: i <= k < tags.Length ==> tags[k] == given[k]
    {
      tags[i] := tags[i].(weight := tags[i].weight / total);
    }
    assert tags[..] == Each((tag: TaskTag) => tag.(weight := tag.weight / total), given);
  }

  method Rescale(tags: array<TaskTag>)
    modifies tags
    ensures tags[..] == Rescaled(old(tags[..]))
  {
    ghost var given := tags[..];
    var totalWeight := SumPositive(tags);
    if tags.Length > 0 && totalWeight <= 0.0 {
      Equalize(tags);
      totalWeight := 1.0;
    }
    if totalWeight > 0.0 {
      Divide(tags, totalWeight);
    }
    assert tags[..] == Rescaled(given);
  }

  // ---- What the weights add up to ----

  function WeightSum(tags: seq<TaskTag>): real {
    if tags == [] then 0.0 else WeightSum(tags[..|tags| - 1]) + tags[|tags| - 1].weight
  }

  ghost predicate HasPositive(tags: seq<TaskTag>) {
    exists i :: 0 <= i < |tags| && tags[i].weight > 0.0
  }

  ghost predicate HasNegative(tags: seq<TaskTag>) {
    exists i :: 0 <= i < |tags| && tags[i].weight < 0.0
  }

  lemma {:induction false} ScaledTotals(tags: seq<TaskTag>, scaled: seq<TaskTag>, total: real)
    requires total > 0.0 && |scaled| == |tags|
    requires forall i :: 0 <= i < |tags| ==> scaled[i].weight == tags[i].weight / total
    ensures PositiveTotal(scaled) == PositiveTotal(tags) / total
    ensures WeightSum(scaled) == WeightSum(tags) / total
  {
    if tags != [] {
      var before, weight := tags[..|tags| - 1], tags[|tags| - 1].weight;
      ScaledTotals(before, scaled[..|tags| - 1], total);
      QuotientSign(weight, total);
      QuotientOfSum(PositiveTotal(before), Positive(weight), total);
      QuotientOfSum(WeightSum(before), weight, total);
    }
  }

  lemma {:induction false} EqualTotals(tags: seq<TaskTag>, weight: real)
    requires weight > 0.0 && forall i :: 0 <= i < |tags| ==> tags[i].weight == weight
    ensures PositiveTotal(tags) == WeightSum(tags) == weight * |tags| as real
  {
    if tags != [] {
      EqualTotals(tags[..|tags| - 1], weight);
    }
  }

  /** The positive weights add up to no less than all weights, and to the same exactly when none is negative. */
  lemma {:induction false} NegativesCost(tags: seq<TaskTag>)
    ensures WeightSum(tags) <= PositiveTotal(tags)
    ensures WeightSum(tags) == PositiveTotal(tags) <==> !HasNegative(tags)
    ensures PositiveTotal(tags) > 0.0 <==> HasPositive(tags)
  {
    if tags != [] {
      var before, last := tags[..|tags| - 1], tags[|tags| - 1];
      NegativesCost(before);
      assert forall i :: 0 <= i < |before| ==> before[i] == tags[i];
      assert HasNegative(tags) <==> HasNegative(before) || last.weight < 0.0;
      assert HasPositive(tags) <==> HasPositive(before) || last.weight > 0.0;
    }
  }

  lemma {:induction false} RescaledAt(tags: seq<TaskTag>, i: nat) returns (whole: real, part: real)
    requires i < |tags|
    ensures whole > 0.0 && Rescaled(tags)[i] == tags[i].(weight := part / whole)
    ensures if HasPositive(tags) then whole == PositiveTotal(tags) && part == tags[i].weight
            else whole == |tags| as real && part == 1.0
  {
    NegativesCost(tags);
    if HasPositive(tags) {
      whole, part := PositiveTotal(tags), tags[i].weight;
    } else {
      whole, part := |tags| as real, 1.0;
    }
  }

  /** The share times the whole gives the part back. */
  predicate ShareOf(share: real, whole: real, part: real) {
    share * whole == part
  }

  lemma {:induction false} QuotientIsShare(share: real, whole: real, part: real)
    requires whole > 0.0 && share == part / whole
    ensures ShareOf(share, whole, part)
  {
    QuotientTimes(part, whole);
  }

  /** Rescaling divides every weight by the same positive total, or gives every tag the same share. */
  lemma {:induction false} RescaledKeepsRatios(tags: seq<TaskTag>, i: nat)
    requires i < |tags|
    ensures Rescaled(tags)[i].tagID == tags[i].tagID
    ensures ShareOf(Rescaled(tags)[i].weight, if HasPositive(tags) then PositiveTotal(tags) else |tags| as real,
                    if HasPositive(tags) then tags[i].weight else 1.0)
  {
    var whole, part := RescaledAt(tags, i);
    QuotientIsShare(Rescaled(tags)[i].weight, whole, part);
  }

  lemma {:induction false} RescaledByTotal(tags: seq<TaskTag>)
    requires PositiveTotal(tags) > 0.0
    ensures PositiveTotal(Rescaled(tags)) == 1.0
    ensures WeightSum(Rescaled(tags)) == 1.0 <==> WeightSum(tags) == PositiveTotal(tags)
  {
    var total := PositiveTotal(tags);
    ScaledTotals(tags, Rescaled(tags), total);
    QuotientUnique(total, total, 1.0);
    QuotientTimes(WeightSum(tags), total);
  }

  lemma {:induction false} RescaledEqually(tags: seq<TaskTag>)
    requires PositiveTotal(tags) <= 0.0 && tags != []
    ensures PositiveTotal(Rescaled(tags)) == WeightSum(Rescaled(tags)) == 1.0
  {
    QuotientSign(1.0, |tags| as real);
    QuotientTimes(1.0, |tags| as real);
    EqualTotals(Rescaled(tags), 1.0 / |tags| as real);
  }

  /**
   After rescaling the positive weights add up to exactly 1; all weights add up to 1 exactly when there is a tag
   and the weights before were not of both signs.
   */
  lemma {:induction false} RescaledWeights(tags: seq<TaskTag>)
    ensures tags != [] ==> PositiveTotal(Rescaled(tags)) == 1.0
    ensures WeightSum(Rescaled(tags)) == 1.0 <==> tags != [] && !(HasPositive(tags) && HasNegative(tags))
  {
    NegativesCost(tags);
    if HasPositive(tags) {
      RescaledByTotal(tags);
    } else if tags != [] {
      RescaledEqually(tags);
    }
  }

  /** Creating a task keeps the tag ids, gives a difficulty of at least 1, and weights whose positive part is 1. */
  lemma {:induction false} CreatedTask(env: Environment, draft: Draft, tags: seq<TaskTag>)
    requires Creation(env, draft, tags).Ok?
    ensures var task := Creation(env, draft, tags).value;
      && TagIDs(task.tags) == TagIDs(tags)
      && task.draft.difficulty >= 1
      && (draft.difficulty >= 1 ==> task.draft.difficulty == draft.difficulty)
      && (tags != [] ==> PositiveTotal(task.tags) == 1.0)
      && (!HasNegative(Prepared(env, draft.difficulty, tags)) && tags != [] ==> WeightSum(task.tags) == 1.0)
  {
    RescaledWeights(Prepared(env, draft.difficulty, tags));
    IDsAreKept(env, draft.difficulty, tags);
  }

  lemma {:induction false} IDsAreKept(env: Environment, difficulty: int, tags: seq<TaskTag>)
    ensures TagIDs(Rescaled(Prepared(env, difficulty, tags))) == TagIDs(tags)
  {
    var prepared := Prepared(env, difficulty, tags);
    forall i | 0 <= i < |tags| ensures Rescaled(prepared)[i].tagID == prepared[i].tagID == tags[i].tagID {
    }
  }

  /** Tags without negative weights stay so while they are prepared. */
  lemma {:induction false} PreparedNotNegative(env: Environment, difficulty: int, tags: seq<TaskTag>)
    requires !HasNegative(tags)
    ensures !HasNegative(Prepared(env, difficulty, tags))
  {
  }

  lemma {:induction false} MergeNotNegative(listed: seq<string>, explicit: seq<TaskTag>, merged: seq<TaskTag>)
    requires IsMerge(listed, explicit, merged) && !HasNegative(explicit)
    ensures !HasNegative(merged)
  {
    forall i | 0 <= i < |merged| ensures merged[i].weight >= 0.0 {
      MergedNotNegative(listed, explicit, merged[i].tagID);
    }
  }

  /**
   A task created in a scope carries each non-empty tag id of the scope, of its own list and of its explicit tags,
   exactly once; its positive weights add up to 1 when there is any, and all do when no explicit weight is negative.
   */
  lemma {:induction false} ScopedTaskTags(env: Environment, scope: Scope, item: ScopedTask, task: Task)
    requires ScopedCreation(env, scope, item) == Ok(task)
    ensures Distinct(TagIDs(task.tags))
    ensures forall id ::
      id in TagIDs(task.tags) <==> id != "" && (id in scope.tagIDs || id in item.tagIDs || id in TagIDs(item.tags))
    ensures task.tags != [] ==> PositiveTotal(task.tags) == 1.0
    ensures !HasNegative(item.tags) && task.tags != [] ==> WeightSum(task.tags) == 1.0
  {
    var draft := ScopedDraft(scope, item, Unique(scope.topicIDs + item.topicIDs));
    var merged := Merge(scope.tagIDs + item.tagIDs, item.tags);
    MergeIsUnion(scope.tagIDs, item.tagIDs, item.tags, merged);
    CreatedTask(env, draft, merged);
    if !HasNegative(item.tags) {
      MergeNotNegative(scope.tagIDs + item.tagIDs, item.tags, merged);
      PreparedNotNegative(env, draft.difficulty, merged);
    }
  }

  lemma {:induction false} MergedNotNegative(listed: seq<string>, explicit: seq<TaskTag>, id: string)
    requires id in listed || id in TagIDs(explicit)
    requires !HasNegative(explicit)
    ensures MergedTag(listed, explicit, id).weight >= 0.0
  {
    FirstIndexFound(TagIDs(explicit), id);
    LastPositiveIsPositive(explicit, id);
  }

  lemma {:induction false} LastPositiveIsPositive(explicit: seq<TaskTag>, id: string)
    ensures LastPositive(explicit, id).Some? ==> LastPositive(explicit, id).value > 0.0
  {
    if explicit != [] {
      LastPositiveIsPositive(explicit[..|explicit| - 1], id);
    }
  }
}
