/**
 The migration runner: it applies the `.sql` files of a service in the order of their names, each with its row in
 `schema_migrations` in one transaction, and skips those that have a row. Every step may fail or be the last of a
 crashed process; a commit may take effect although it reports an error. Runs do not overlap.
 */
module Migrations {
  import opened Orders
  import opened Permutations

  datatype DirEntry = DirEntry(name: string, isDir: bool)

  /** Where the handling of one migration goes wrong, if it does. */
  datatype Fault =
    | Fine
    | QueryFails
    | ReadFails
    | BeginFails
    | BodyFails
    | InsertFails
    | CommitLost
    | CommitUnacknowledged

  /** The rows of `schema_migrations` and the bodies applied so far, each as (service, name). */
  datatype Schema = Schema(rows: set<(string, string)>, applied: seq<(string, string)>)

  // ---- File names ----

  const SUFFIX: string := ".sql"

  predicate IsMigration(entry: DirEntry) {
    !entry.isDir && |entry.name| >= |SUFFIX| && entry.name[|entry.name| - |SUFFIX|..] == SUFFIX
  }

  function MigrationNames(entries: seq<DirEntry>): seq<string> {
    if entries == [] then []
    else
      var before, last := MigrationNames(entries[..|entries| - 1]), entries[|entries| - 1];
      if IsMigration(last) then before + [last.name] else before
  }

  function SortedNames(entries: seq<DirEntry>): seq<string> {
    StringLeIsTotalOrder();
    Sort(StringLe, MigrationNames(entries))
  }

  // ---- One run as a function of the state ----

  function Applying(st: Schema, service: string, name: string): Schema {
    Schema(st.rows + {(service, name)}, st.applied + [(service, name)])
  }

  function AfterOne(st: Schema, service: string, name: string, fault: Fault): Schema {
    if fault == QueryFails || (service, name) in st.rows then st
    else if fault == Fine || fault == CommitUnacknowledged then Applying(st, service, name)
    else st
  }

  predicate Succeeds(st: Schema, service: string, name: string, fault: Fault) {
    fault == Fine || (fault != QueryFails && (service, name) in st.rows)
  }

  /** The loop over the names: it ends at the first failure. */
  function AfterAll(st: Schema, service: string, names: seq<string>, faults: string -> Fault): (Schema, bool)
    decreases |names|
  {
    if names == [] then (st, true)
    else
      var next := AfterOne(st, service, names[0], faults(names[0]));
      if Succeeds(st, service, names[0], faults(names[0]))
      then AfterAll(next, service, names[1..], faults)
      else (next, false)
  }

  // ---- The runner ----

  class Database {
    var rows: set<(string, string)>
    var applied: seq<(string, string)>

    ghost function State(): Schema
      reads this
    {
      Schema(rows, applied)
    }

    constructor ()
      ensures State() == Schema({}, [])
    {
      rows, applied := {}, [];
    }

    /** `prepared` says whether the table could be created and the directory read. */
    method RunMigrations(service: string, entries: seq<DirEntry>, prepared: bool, faults: string -> Fault)
      returns (ok: bool)
      modifies this
      ensures if prepared then (State(), ok) == AfterAll(old(State()), service, SortedNames(entries), faults)
              else State() == old(State()) && !ok
    {
      if !prepared {
        return false;
      }
      var names: seq<string> := [];
      for i := 0 to |entries|
        invariant names == MigrationNames(entries[..i])
        invariant State() == old(State())
      {
        assert entries[..i + 1][..i] == entries[..i];
        if IsMigration(entries[i]) {
          names := names + [entries[i].name];
        }
      }
      assert entries[..|entries|] == entries;
      names := SortNames(names);
      for i := 0 to |names|
        invariant AfterAll(old(State()), service, names, faults) == AfterAll(State(), service, names[i..], faults)
      {
        assert names[i..][0] == names[i] && names[i..][1..] == names[i + 1..];
        ok := Migrate(service, names[i], faults(names[i]));
        if !ok {
          return;
        }
      }
      return true;
    }

    method Migrate(service: string, name: string, fault: Fault) returns (ok: bool)
      modifies this
      ensures State() == AfterOne(old(State()), service, name, fault)
      ensures ok == Succeeds(old(State()), service, name, fault)
    {
      if fault == QueryFails {
        return false;
      }
      if (service, name) in rows {
        return true;
      }
      if fault == ReadFails || fault == BeginFails {
        return false;
      }
      // The transaction's own view, which a rollback throws away.
      var txRows, txApplied := rows, applied;
      if fault == BodyFails {
        return false;
      }
      txApplied := txApplied + [(service, name)];
      if fault == InsertFails {
        return false;
      }
      txRows := txRows + {(service, name)};
      if fault == CommitLost {
        return false;
      }
      rows, applied := txRows, txApplied;
      return fault != CommitUnacknowledged;
    }
  }

  method SortNames(names: seq<string>) returns (sorted: seq<string>)
    ensures TotalPreorder(StringLe) && sorted == Sort(StringLe, names)
  {
    StringLeIsTotalOrder();
    sorted := Sort(StringLe, names);
  }

  // ---- What every run keeps ----

  /** The bodies applied for a service, in order. */
  function AppliedFor(applied: seq<(string, string)>, service: string): seq<string> {
    if applied == [] then []
    else
      var before, last := AppliedFor(applied[..|applied| - 1], service), applied[|applied| - 1];
      if last.0 == service then before + [last.1] else before
  }

  /** The first k names have been applied, each once, in order, and exactly they have rows. */
  ghost predicate UpTo(st: Schema, service: string, names: seq<string>, k: nat) {
    && k <= |names|
    && AppliedFor(st.applied, service) == names[..k]
    && forall name :: (service, name) in st.rows <==> name in names[..k]
  }

  ghost predicate Consistent(st: Schema, service: string, names: seq<string>) {
    exists k :: UpTo(st, service, names, k)
  }

  /** Other services' rows and bodies. */
  ghost predicate SameFor(st: Schema, st': Schema, service: string) {
    && AppliedFor(st.applied, service) == AppliedFor(st'.applied, service)
    && forall name :: (service, name) in st.rows <==> (service, name) in st'.rows
  }

  lemma {:induction false} ApplyingAppends(st: Schema, service: string, name: string, other: string)
    ensures AppliedFor(Applying(st, service, name).applied, other) ==
      if other == service then AppliedFor(st.applied, other) + [name] else AppliedFor(st.applied, other)
  {
    assert Applying(st, service, name).applied[..|st.applied|] == st.applied;
  }

  lemma {:induction false} NextIsNew(names: seq<string>, i: nat, k: nat)
    requires Distinct(names) && i < |names| && k <= |names|
    ensures names[i] in names[..k] <==> i < k
  {
    if i < k {
      assert names[..k][i] == names[i];
    }
  }

  /** One name: applied before, or the next to be applied, or the run ends. */
  lemma {:induction false} OneKeeps(st: Schema, service: string, names: seq<string>, i: nat, k: nat, fault: Fault)
    returns (k': nat)
    requires Distinct(names) && i < |names| && i <= k && UpTo(st, service, names, k)
    ensures k <= k' && UpTo(AfterOne(st, service, names[i], fault), service, names, k')
    ensures Succeeds(st, service, names[i], fault) ==> i < k'
    ensures k == |names| ==> AfterOne(st, service, names[i], fault) == st
  {
    NextIsNew(names, i, k);
    var next := AfterOne(st, service, names[i], fault);
    k' := k;
    if next != st {
      k' := k + 1;
      ApplyingAppends(st, service, names[i], service);
      assert names[..k + 1] == names[..k] + [names[i]];
    }
  }

  /**
   A run, cut short anywhere, leaves a longer prefix applied; if it succeeds, everything is; and if everything was,
   nothing changes.
   */
  lemma {:induction false} RunKeeps(st: Schema, service: string, names: seq<string>, i: nat, k: nat,
                                    faults: string -> Fault)
    returns (k': nat)
    requires Distinct(names) && i <= k && i <= |names| && UpTo(st, service, names, k)
    ensures var (after, ok) := AfterAll(st, service, names[i..], faults);
      && k <= k' && UpTo(after, service, names, k')
      && (ok ==> k' == |names|)
      && (k == |names| ==> after == st)
    decreases |names| - i
  {
    if i == |names| {
      k' := k;
    } else {
      assert names[i..][0] == names[i] && names[i..][1..] == names[i + 1..];
      k' := OneKeeps(st, service, names, i, k, faults(names[i]));
      if Succeeds(st, service, names[i], faults(names[i])) {
        k' := RunKeeps(AfterOne(st, service, names[i], faults(names[i])), service, names, i + 1, k', faults);
      }
    }
  }

  lemma {:induction false} RunSparesOthers(st: Schema, service: string, names: seq<string>, faults: string -> Fault,
                                           other: string)
    requires other != service
    ensures SameFor(st, AfterAll(st, service, names, faults).0, other)
    decreases |names|
  {
    if names != [] {
      ApplyingAppends(st, service, names[0], other);
      if Succeeds(st, service, names[0], faults(names[0])) {
        RunSparesOthers(AfterOne(st, service, names[0], faults(names[0])), service, names[1..], faults, other);
      }
    }
  }

  // ---- Any number of runs ----

  datatype Launch = Launch(service: string, prepared: bool, faults: string -> Fault)

  ghost predicate AllDistinct(files: string -> seq<string>) {
    forall service :: Distinct(files(service))
  }

  function AfterLaunch(st: Schema, files: string -> seq<string>, launch: Launch): (Schema, bool) {
    if launch.prepared then AfterAll(st, launch.service, files(launch.service), launch.faults) else (st, false)
  }

  function AfterLaunches(st: Schema, files: string -> seq<string>, launches: seq<Launch>): Schema
    decreases |launches|
  {
    if launches == [] then st
    else AfterLaunch(AfterLaunches(st, files, launches[..|launches| - 1]), files, launches[|launches| - 1]).0
  }

  lemma {:induction false} LaunchKeeps(st: Schema, files: string -> seq<string>, launch: Launch, service: string)
    requires AllDistinct(files) && Consistent(st, service, files(service))
    ensures Consistent(AfterLaunch(st, files, launch).0, service, files(service))
    ensures launch.service == service && AfterLaunch(st, files, launch).1 ==>
      UpTo(AfterLaunch(st, files, launch).0, service, files(service), |files(service)|)
    ensures launch.service == service && UpTo(st, service, files(service), |files(service)|) ==>
      AfterLaunch(st, files, launch).0 == st
  {
    var names := files(service);
    var k :| UpTo(st, service, names, k);
    if launch.prepared {
      if launch.service == service {
        assert names[0..] == names;
        var k' := RunKeeps(st, service, names, 0, k, launch.faults);
        if UpTo(st, service, names, |names|) {
          var _ := RunKeeps(st, service, names, 0, |names|, launch.faults);
        }
      } else {
        RunSparesOthers(st, launch.service, files(launch.service), launch.faults, service);
        assert UpTo(AfterLaunch(st, files, launch).0, service, names, k);
      }
    }
  }

  /**
   After any number of runs from an empty database, each cut short anywhere: for every service the bodies applied are
   a prefix of its sorted files, each applied once, and exactly they are recorded.
   */
  lemma {:induction false} LaunchesKeep(files: string -> seq<string>, launches: seq<Launch>, service: string)
    requires AllDistinct(files)
    ensures Consistent(AfterLaunches(Schema({}, []), files, launches), service, files(service))
    decreases |launches|
  {
    if launches == [] {
      assert UpTo(Schema({}, []), service, files(service), 0);
    } else {
      LaunchesKeep(files, launches[..|launches| - 1], service);
      var st := AfterLaunches(Schema({}, []), files, launches[..|launches| - 1]);
      LaunchKeeps(st, files, launches[|launches| - 1], service);
    }
  }

  /** A run that reports success has left everything applied, and no later run of the service changes anything. */
  lemma {:induction false} SuccessIsFinal(files: string -> seq<string>, launches: seq<Launch>, last: Launch,
                                          again: Launch)
    requires AllDistinct(files) && last.service == again.service
    requires AfterLaunch(AfterLaunches(Schema({}, []), files, launches), files, last).1
    ensures var done := AfterLaunch(AfterLaunches(Schema({}, []), files, launches), files, last).0;
      && AppliedFor(done.applied, last.service) == files(last.service)
      && AfterLaunch(done, files, again).0 == done
  {
    var st, service := AfterLaunches(Schema({}, []), files, launches), last.service;
    LaunchesKeep(files, launches, service);
    LaunchKeeps(st, files, last, service);
    LaunchKeeps(AfterLaunch(st, files, last).0, files, again, service);
    assert files(service)[..|files(service)|] == files(service);
  }

  lemma {:induction false} MigrationNamesAre(entries: seq<DirEntry>)
    requires DistinctNames(entries)
    ensures Distinct(MigrationNames(entries))
    ensures forall name :: name in MigrationNames(entries) <==>
      exists e :: e in entries && IsMigration(e) && e.name == name
  {
    if entries != [] {
      var before, last := entries[..|entries| - 1], entries[|entries| - 1];
      assert entries == before + [last];
      MigrationNamesAre(before);
      assert last.name !in MigrationNames(before);
    }
  }

  /** The names run through are the directory's `.sql` files, each once, in ascending order. */
  lemma {:induction false} SortedNamesAre(entries: seq<DirEntry>)
    requires DistinctNames(entries)
    ensures Distinct(SortedNames(entries)) && Sorted(StringLe, SortedNames(entries))
    ensures forall name :: name in SortedNames(entries) <==>
      exists e :: e in entries && IsMigration(e) && e.name == name
  {
    StringLeIsTotalOrder();
    MigrationNamesAre(entries);
    DistinctSurvivesReordering(MigrationNames(entries), SortedNames(entries));
  }

  // ---- For the directories of the services ----

  ghost predicate DistinctNames(entries: seq<DirEntry>) {
    forall i, j :: 0 <= i < j < |entries| ==> entries[i].name != entries[j].name
  }

  function FilesOf(dir: string -> seq<DirEntry>): string -> seq<string> {
    service => SortedNames(dir(service))
  }

  lemma {:induction false} DirectoriesAreDistinct(dir: string -> seq<DirEntry>)
    requires forall s :: DistinctNames(dir(s))
    ensures AllDistinct(FilesOf(dir))
  {
    forall service: string ensures Distinct(FilesOf(dir)(service)) {
      SortedNamesAre(dir(service));
    }
  }

  /** What any number of interrupted runs have applied for a service is a prefix of its directory's sorted files. */
  lemma {:induction false} DirectoryRunsKeep(dir: string -> seq<DirEntry>, launches: seq<Launch>, service: string)
    requires forall s :: DistinctNames(dir(s))
    ensures Consistent(AfterLaunches(Schema({}, []), FilesOf(dir), launches), service, SortedNames(dir(service)))
  {
    DirectoriesAreDistinct(dir);
    LaunchesKeep(FilesOf(dir), launches, service);
  }

  /** A run that reports success has applied each `.sql` file of the directory, once, in order; a further run none. */
  lemma {:induction false} DirectorySuccessIsFinal(dir: string -> seq<DirEntry>, launches: seq<Launch>, last: Launch,
                                                   again: Launch)
    requires (forall s :: DistinctNames(dir(s))) && last.service == again.service
    requires AfterLaunch(AfterLaunches(Schema({}, []), FilesOf(dir), launches), FilesOf(dir), last).1
    ensures var done := AfterLaunch(AfterLaunches(Schema({}, []), FilesOf(dir), launches), FilesOf(dir), last).0;
      && AppliedFor(done.applied, last.service) == SortedNames(dir(last.service))
      && AfterLaunch(done, FilesOf(dir), again).0 == done
  {
    DirectoriesAreDistinct(dir);
    SuccessIsFinal(FilesOf(dir), launches, last, again);
  }

  // ---- How far a run gets ----

  /** What a run needs of a name: no failing query if it has a row, no fault at all if it has none. */
  predicate Passes(applied: bool, fault: Fault) {
    if applied then fault != QueryFails else fault == Fine
  }

  lemma {:induction false} RowsOfOthers(st: Schema, service: string, name: string, fault: Fault, other: string)
    requires other != name
    ensures (service, other) in AfterOne(st, service, name, fault).rows <==> (service, other) in st.rows
  {
  }

  /** A run succeeds exactly when each name passes: it has a row and its query works, or nothing goes wrong with it. */
  lemma {:induction false} SucceedsIff(st: Schema, service: string, names: seq<string>, faults: string -> Fault)
    requires Distinct(names)
    ensures AfterAll(st, service, names, faults).1 <==>
      forall i :: 0 <= i < |names| ==> Passes((service, names[i]) in st.rows, faults(names[i]))
    decreases |names|
  {
    if names != [] {
      var first, rest := names[0], names[1..];
      var next := AfterOne(st, service, first, faults(first));
      forall i | 0 <= i < |rest|
        ensures rest[i] == names[i + 1] && ((service, rest[i]) in next.rows <==> (service, rest[i]) in st.rows)
      {
        RowsOfOthers(st, service, first, faults(first), rest[i]);
      }
      assert Succeeds(st, service, first, faults(first)) <==> Passes((service, first) in st.rows, faults(first));
      SucceedsIff(next, service, rest, faults);
      assert forall i :: 0 < i < |names| ==> names[i] == rest[i - 1];
    }
  }

  /** The first name from i on that does not pass, when the first k have been applied. */
  function FirstObstacle(names: seq<string>, faults: string -> Fault, i: nat, k: nat): (b: nat)
    requires i <= |names|
    ensures i <= b <= |names|
    ensures forall j :: i <= j < b ==> Passes(j < k, faults(names[j]))
    ensures b < |names| ==> !Passes(b < k, faults(names[b]))
    decreases |names| - i
  {
    if i == |names| || !Passes(i < k, faults(names[i])) then i else FirstObstacle(names, faults, i + 1, k)
  }

  /** How many are applied after the run: up to the obstacle, and past it if its commit took effect after all. */
  function Reached(names: seq<string>, faults: string -> Fault, i: nat, k: nat): nat
    requires i <= |names|
  {
    var b := FirstObstacle(names, faults, i, k);
    if b < k then k
    else if b < |names| && faults(names[b]) == CommitUnacknowledged then b + 1
    else b
  }

  lemma {:induction false} ObstacleAhead(names: seq<string>, faults: string -> Fault, i: nat, k: nat)
    requires i < |names| && i <= k && Passes(i < k, faults(names[i]))
    ensures FirstObstacle(names, faults, i, k) == FirstObstacle(names, faults, i + 1, if i == k then k + 1 else k)
    ensures Reached(names, faults, i, k) == Reached(names, faults, i + 1, if i == k then k + 1 else k)
  {
    var k' := if i == k then k + 1 else k;
    var b, b' := FirstObstacle(names, faults, i, k), FirstObstacle(names, faults, i + 1, k');
    assert b >= i + 1;
    assert !(b < b') && !(b' < b);
  }

  /** From a state with the first k applied a run gets exactly so far, and succeeds exactly if nothing is in its way. */
  lemma {:induction false} RunReaches(st: Schema, service: string, names: seq<string>, i: nat, k: nat,
                                      faults: string -> Fault)
    requires Distinct(names) && i <= k && i <= |names| && UpTo(st, service, names, k)
    ensures var (after, ok) := AfterAll(st, service, names[i..], faults);
      && (ok <==> FirstObstacle(names, faults, i, k) == |names|)
      && UpTo(after, service, names, Reached(names, faults, i, k))
    decreases |names| - i
  {
    if i < |names| {
      var fault := faults(names[i]);
      assert names[i..][0] == names[i] && names[i..][1..] == names[i + 1..];
      OneReaches(st, service, names, i, k, fault);
      if Passes(i < k, fault) {
        ObstacleAhead(names, faults, i, k);
        RunReaches(AfterOne(st, service, names[i], fault), service, names, i + 1, if i == k then k + 1 else k, faults);
      }
    }
  }

  lemma {:induction false} OneReaches(st: Schema, service: string, names: seq<string>, i: nat, k: nat, fault: Fault)
    requires Distinct(names) && i < |names| && i <= k && UpTo(st, service, names, k)
    ensures Succeeds(st, service, names[i], fault) <==> Passes(i < k, fault)
    ensures UpTo(AfterOne(st, service, names[i], fault), service, names,
                 if i == k && (fault == Fine || fault == CommitUnacknowledged) then k + 1 else k)
  {
    NextIsNew(names, i, k);
    if i == k && (fault == Fine || fault == CommitUnacknowledged) {
      ApplyingAppends(st, service, names[i], service);
      assert names[..k + 1] == names[..k] + [names[i]];
    }
  }

  /** After any runs, a prepared run without faults succeeds and leaves every file of the directory applied. */
  lemma {:induction false} FaultlessRunCompletes(dir: string -> seq<DirEntry>, launches: seq<Launch>, service: string)
    requires forall s :: DistinctNames(dir(s))
    ensures var st := AfterLaunches(Schema({}, []), FilesOf(dir), launches);
      var (after, ok) := AfterLaunch(st, FilesOf(dir), Launch(service, true, _ => Fine));
      ok && AppliedFor(after.applied, service) == SortedNames(dir(service))
  {
    var st := AfterLaunches(Schema({}, []), FilesOf(dir), launches);
    var names, faults := SortedNames(dir(service)), (name: string) => Fine;
    DirectoryRunsKeep(dir, launches, service);
    DirectoriesAreDistinct(dir);
    var k :| UpTo(st, service, names, k);
    SortedNamesAre(dir(service));
    assert names[0..] == names;
    SucceedsIff(st, service, names, faults);
    DirectorySuccessIsFinal(dir, launches, Launch(service, true, faults), Launch(service, true, faults));
  }

  /** A migration file is a plain file whose name ends in ".sql". */
  lemma {:induction false} MigrationIsSql(entry: DirEntry)
    ensures IsMigration(entry) <==> !entry.isDir && exists stem :: entry.name == stem + ".sql"
  {
    var n := |entry.name|;
    if IsMigration(entry) {
      assert entry.name == entry.name[..n - 4] + ".sql";
    }
    if stem :| entry.name == stem + ".sql" {
      assert entry.name[n - 4..] == ".sql";
    }
  }
}
