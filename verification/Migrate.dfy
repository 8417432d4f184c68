/**
 The migration runner: one transaction per file, in name order; most failures
 are passed over, failures of guarded migrations and broken connections are not.
 */
module Migrate {
  import opened Json

  type Tables = map<string, string>

  // What the server answers to a file's SQL: the transaction's result, an error, or nothing more at all.
  datatype Verdict = Applies(tables: Tables) | Rejects(code: string, message: string) | Breaks

  datatype Body = Unreadable | Blank | Sql(run: Tables -> Verdict)

  datatype File = File(name: string, body: Body)

  // A search directory: its schema file and its migrations directory, if they exist.
  datatype Dir = Dir(schema: Option<File>, migrations: Option<seq<File>>)

  // ---- Which failures matter ------------------------------------------------

  predicate Contains(text: string, part: string) {
    part <= text || (text != [] && Contains(text[1..], part))
  }

  predicate AlreadyExists(code: string, message: string) {
    code == "42P07" || code == "42710" || code == "23505" || Contains(message, "already exists")
  }

  const GUARDED: seq<string> := [
    "device_execution_queue", "queue_v2_contract", "queue_v2_runtime", "pnq_v2_runtime", "ui_graph_runtime",
    "app_runtime_profiles", "edge_workflow_runtime_contract", "edge_workflow_learning_receipts",
    "verified_ui_state_machine_runtime", "human_workflow_compiler_policy", "workflow_capability_catalog",
    "data_driven_goal_contracts", "db_authoritative_workflow_semantics", "postgres_compiler_control_plane",
    "capability_descriptor_coverage", "generic_workflow_segments", "segment_builder_agent_jobs",
    "task_status_contract", "task_lifecycle_db_authoritative", "generic_resource_lifecycle",
    "workflow_execution_generic_lifecycle", "lifecycle_resource_bindings", "resource_runtime_policies",
    "runtime_policy_resolution", "platform_identifier_aliases", "adopt_configured_lifecycle_resources",
    "runtime_semantic_entry_lifecycle_compatibility", "phone_network_incidents_and_audits",
    "workflow_safety_admission"]

  predicate FailClosed(name: string) {
    exists i | 0 <= i < |GUARDED| :: Contains(name, GUARDED[i])
  }

  lemma {:induction false} ContainsMeans(text: string, part: string)
    ensures Contains(text, part) <==> exists i | 0 <= i <= |text| :: part <= text[i..]
  {
    if part <= text {
      assert text[0..] == text;
    } else if text != [] {
      ContainsMeans(text[1..], part);
      forall i | 0 < i <= |text| ensures text[i..] == text[1..][i - 1..] {}
      if j :| 0 <= j <= |text[1..]| && part <= text[1..][j..] { assert part <= text[j + 1..]; }
    }
  }

  // An error of a file run before: by its code or by its message.
  predicate OfRerun(code: string, message: string) {
    code in ["42P07", "42710", "23505"] || exists i | 0 <= i <= |message| :: "already exists" <= message[i..]
  }

  lemma AlreadyExistsMeans(code: string, message: string)
    ensures AlreadyExists(code, message) <==> OfRerun(code, message)
  {
    ContainsMeans(message, "already exists");
  }

  // ---- One file -------------------------------------------------------------

  predicate Commits(tables: Tables, file: File) {
    file.body.Sql? && file.body.run(tables).Applies?
  }

  predicate Skips(tables: Tables, file: File) {
    file.body.Sql? && file.body.run(tables).Rejects?
    && AlreadyExists(file.body.run(tables).code, file.body.run(tables).message)
  }

  predicate Throws(tables: Tables, file: File) {
    file.body.Unreadable? || (file.body.Sql? && file.body.run(tables).Breaks?)
  }

  predicate Fails(tables: Tables, file: File) {
    file.body.Sql? && file.body.run(tables).Rejects? && !Skips(tables, file)
  }

  // The loop goes no further than this file.
  predicate Stops(tables: Tables, file: File) {
    Throws(tables, file) || (Fails(tables, file) && FailClosed(file.name))
  }

  function After(tables: Tables, file: File): Tables {
    if Commits(tables, file) then file.body.run(tables).tables else tables
  }

  function Fold(tables: Tables, files: seq<File>): Tables
    decreases |files|
  {
    if files == [] then tables else Fold(After(tables, files[0]), files[1..])
  }

  // The files that committed, in order.
  function Committed(tables: Tables, files: seq<File>): seq<File>
    decreases |files|
  {
    if files == [] then []
    else (if Commits(tables, files[0]) then [files[0]] else []) + Committed(After(tables, files[0]), files[1..])
  }

  predicate EachCommits(tables: Tables, files: seq<File>)
    decreases |files|
  {
    files == [] || (Commits(tables, files[0]) && EachCommits(After(tables, files[0]), files[1..]))
  }

  // The fold is that of exactly the files that committed: the others might as well not have been there.
  lemma {:induction false} FailedFilesContributeNothing(tables: Tables, files: seq<File>)
    ensures Fold(tables, files) == Fold(tables, Committed(tables, files))
    ensures EachCommits(tables, Committed(tables, files))
    decreases |files|
  {
    if files != [] {
      FailedFilesContributeNothing(After(tables, files[0]), files[1..]);
      var rest := Committed(After(tables, files[0]), files[1..]);
      if Commits(tables, files[0]) { assert ([files[0]] + rest)[1..] == rest; } else { assert [] + rest == rest; }
    }
  }

  lemma {:induction false} FoldStep(tables: Tables, files: seq<File>, i: nat)
    requires i < |files|
    ensures Fold(tables, files[..i + 1]) == After(Fold(tables, files[..i]), files[i])
    decreases i
  {
    if i == 0 {
      assert files[..1][1..] == [] && files[..0] == [];
    } else {
      assert files[..i + 1][1..] == files[1..][..i] && files[..i][1..] == files[1..][..i - 1];
      FoldStep(After(tables, files[0]), files[1..], i - 1);
    }
  }

  // How many of the first `n` files failed without stopping the loop.
  function Failures(tables: Tables, files: seq<File>, n: nat): set<nat>
    requires n <= |files|
  {
    set i: nat | i < n && Fails(Fold(tables, files[..i]), files[i])
  }

  // ---- Name order -----------------------------------------------------------

  // Code units are compared from the left; a prefix comes first.
  predicate Below(a: string, b: string) {
    if a == [] then true
    else if b == [] then false
    else a[0] < b[0] || (a[0] == b[0] && Below(a[1..], b[1..]))
  }

  // `k` is the first difference, and `a` has the smaller character there.
  predicate SmallerAt(a: string, b: string, k: nat) {
    k < |a| && k < |b| && a[k] < b[k] && forall i | 0 <= i < k :: a[i] == b[i]
  }

  predicate Begins(a: string, b: string) {
    |a| <= |b| && forall i | 0 <= i < |a| :: a[i] == b[i]
  }

  lemma TailCompared(a: string, b: string, k: nat)
    requires a != [] && b != [] && a[0] == b[0]
    ensures SmallerAt(a, b, k + 1) <==> SmallerAt(a[1..], b[1..], k)
    ensures Begins(a, b) <==> Begins(a[1..], b[1..])
  {
    if SmallerAt(a[1..], b[1..], k) {
      forall i | 0 <= i < k + 1 ensures a[i] == b[i] {
        if i > 0 { assert a[i] == a[1..][i - 1] && b[i] == b[1..][i - 1]; }
      }
    }
    if Begins(a[1..], b[1..]) {
      forall i | 0 <= i < |a| ensures a[i] == b[i] {
        if i > 0 { assert a[i] == a[1..][i - 1] && b[i] == b[1..][i - 1]; }
      }
    }
  }

  // A name comes first if the other begins with it, or at the first difference.
  lemma {:induction false} BelowMeans(a: string, b: string)
    ensures Below(a, b) <==> Begins(a, b) || exists k: nat :: SmallerAt(a, b, k)
  {
    if a != [] && b != [] {
      if a[0] < b[0] {
        assert SmallerAt(a, b, 0);
      } else if a[0] == b[0] {
        BelowMeans(a[1..], b[1..]);
        TailCompared(a, b, 0);
        if j: nat :| SmallerAt(a[1..], b[1..], j) { TailCompared(a, b, j); }
        if k: nat :| SmallerAt(a, b, k) { TailCompared(a, b, k - 1); }
      }
    }
  }

  lemma {:induction false} BelowTotal(a: string, b: string)
    ensures Below(a, b) || Below(b, a)
    ensures Below(a, b) && Below(b, a) ==> a == b
  {
    if a != [] && b != [] {
      BelowTotal(a[1..], b[1..]);
      assert a == [a[0]] + a[1..] && b == [b[0]] + b[1..];
    }
  }

  lemma {:induction false} BelowTransitive(a: string, b: string, c: string)
    requires Below(a, b) && Below(b, c)
    ensures Below(a, c)
  {
    if a != [] && b != [] && c != [] && a[0] == b[0] == c[0] { BelowTransitive(a[1..], b[1..], c[1..]); }
  }

  predicate InOrder(files: seq<File>) {
    forall i, j :: 0 <= i < j < |files| ==> Below(files[i].name, files[j].name)
  }

  function Insert(file: File, files: seq<File>): seq<File> {
    if files == [] || Below(file.name, files[0].name) then [file] + files else [files[0]] + Insert(file, files[1..])
  }

  function Sorted(files: seq<File>): seq<File> {
    if files == [] then [] else Insert(files[0], Sorted(files[1..]))
  }

  lemma {:induction false} InsertCounts(file: File, files: seq<File>)
    ensures multiset(Insert(file, files)) == multiset(files) + multiset{file}
  {
    if files != [] && !Below(file.name, files[0].name) {
      InsertCounts(file, files[1..]);
      assert files == [files[0]] + files[1..];
    }
  }

  lemma {:induction false} InsertKeeps(file: File, files: seq<File>)
    requires InOrder(files)
    ensures InOrder(Insert(file, files)) && multiset(Insert(file, files)) == multiset(files) + multiset{file}
  {
    InsertCounts(file, files);
    if files == [] || Below(file.name, files[0].name) {
      forall j | 0 <= j < |files| && files != [] ensures Below(file.name, files[j].name) {
        if j > 0 { BelowTransitive(file.name, files[0].name, files[j].name); }
      }
    } else {
      InsertKeeps(file, files[1..]);
      BelowTotal(file.name, files[0].name);
      InsertedBelow(file, files);
    }
  }

  lemma InsertedBelow(file: File, files: seq<File>)
    requires InOrder(files) && files != [] && Below(files[0].name, file.name)
    ensures forall j :: 0 <= j < |Insert(file, files[1..])| ==> Below(files[0].name, Insert(file, files[1..])[j].name)
  {
    InsertCounts(file, files[1..]);
    var rest := Insert(file, files[1..]);
    forall j | 0 <= j < |rest| ensures Below(files[0].name, rest[j].name) {
      assert rest[j] in multiset(rest);
      assert rest[j] == file || rest[j] in files[1..];
    }
  }

  lemma {:induction false} SortedSorts(files: seq<File>)
    ensures InOrder(Sorted(files)) && multiset(Sorted(files)) == multiset(files)
  {
    if files != [] {
      SortedSorts(files[1..]);
      InsertKeeps(files[0], Sorted(files[1..]));
      assert files == [files[0]] + files[1..];
    }
  }

  predicate DistinctNames(files: seq<File>) {
    forall i, j :: 0 <= i < j < |files| ==> files[i].name != files[j].name
  }

  lemma SameHead(a: seq<File>, b: seq<File>)
    requires InOrder(a) && InOrder(b) && multiset(a) == multiset(b) && DistinctNames(a) && a != [] && b != []
    ensures a[0] == b[0] && multiset(a[1..]) == multiset(b[1..])
  {
    assert a[0] in multiset(b) && b[0] in multiset(a);
    var i :| 0 <= i < |b| && b[i] == a[0];
    var j :| 0 <= j < |a| && a[j] == b[0];
    BelowTotal(a[0].name, b[0].name);
    assert j == 0;
    assert a == [a[0]] + a[1..] && b == [b[0]] + b[1..];
    TailCounts(a);
    TailCounts(b);
  }

  lemma TailCounts(a: seq<File>)
    requires a != []
    ensures multiset(a[1..]) == multiset(a) - multiset{a[0]}
  {
    assert a == [a[0]] + a[1..];
  }

  // Two orderings of the same directory are applied in the same order.
  lemma {:induction false} OrderUnique(a: seq<File>, b: seq<File>)
    requires InOrder(a) && InOrder(b) && multiset(a) == multiset(b) && DistinctNames(a)
    ensures a == b
    decreases |a|
  {
    assert |a| == |multiset(a)| == |multiset(b)| == |b|;
    if a != [] {
      SameHead(a, b);
      OrderUnique(a[1..], b[1..]);
      assert a == [a[0]] + a[1..] && b == [b[0]] + b[1..];
    }
  }

  // Listing a directory in another order changes nothing.
  lemma ListingOrderIrrelevant(a: seq<File>, b: seq<File>)
    requires multiset(a) == multiset(b) && DistinctNames(a)
    ensures Sorted(a) == Sorted(b)
  {
    SortedSorts(a);
    SortedSorts(b);
    SortedDistinct(a);
    OrderUnique(Sorted(a), Sorted(b));
  }

  lemma SortedDistinct(files: seq<File>)
    requires DistinctNames(files)
    ensures DistinctNames(Sorted(files))
  {
    var s := Sorted(files);
    SortedSorts(files);
    forall i, j | 0 <= i < j < |s| ensures s[i].name != s[j].name {
      assert s[i] in multiset(files) && s[j] in multiset(files);
      var p :| 0 <= p < |files| && files[p] == s[i];
      var q :| 0 <= q < |files| && files[q] == s[j];
      if p == q { TwoOccurrences(s, i, j); OneOccurrence(files, p); }
    }
  }

  lemma TwoOccurrences(s: seq<File>, i: nat, j: nat)
    requires i < j < |s| && s[i] == s[j]
    ensures multiset(s)[s[i]] >= 2
  {
    assert s == s[..i] + [s[i]] + s[i + 1..j] + [s[j]] + s[j + 1..];
  }

  lemma OneOccurrence(files: seq<File>, p: nat)
    requires DistinctNames(files) && p < |files|
    ensures multiset(files)[files[p]] == 1
  {
    assert files == files[..p] + [files[p]] + files[p + 1..];
    assert files[p] !in files[..p] && files[p] !in files[p + 1..];
  }

  // ---- The connection -------------------------------------------------------

  datatype Applied = Fine | Failed | Threw

  // A database client: what is committed, and the open transaction, if any.
  class Client {
    var committed: Tables
    var working: Option<Tables>
    var released: bool

    constructor (tables: Tables)
      ensures committed == tables && working == None && !released
    {
      committed, working, released := tables, None, false;
    }

    // applyFile
    method ApplyFile(file: File) returns (r: Applied)
      requires working.None?
      modifies this
      ensures committed == After(old(committed), file) && released == old(released)
      ensures r.Threw? <==> Throws(old(committed), file)
      ensures r.Failed? <==> Fails(old(committed), file)
      ensures !r.Threw? ==> working.None?
      // Case by case: only what the file's own transaction leaves is ever committed.
      ensures match file.body
              case Unreadable => r.Threw? && committed == old(committed)
              case Blank => r.Fine? && committed == old(committed)
              case Sql(run) =>
                match run(old(committed))
                case Applies(tables) => r.Fine? && committed == tables
                case Rejects(code, message) =>
                  committed == old(committed) && (if OfRerun(code, message) then r.Fine? else r.Failed?)
                case Breaks => r.Threw? && committed == old(committed)
    {
      match file.body
      case Unreadable => return Threw;
      case Blank => return Fine;
      case Sql(run) =>
        working := Some(committed);
        match run(working.value)
        case Applies(tables) =>
          working := Some(tables);
          committed := working.value;
          working := None;
          return Fine;
        case Rejects(code, message) =>
          AlreadyExistsMeans(code, message);
          working := None;
          return if AlreadyExists(code, message) then Fine else Failed;
        case Breaks => return Threw;
    }

    // The loop over the sorted files; `stop` is the file that threw, if one did.
    method ApplyAll(files: seq<File>) returns (failed: nat, stop: Option<nat>)
      requires working.None?
      modifies this
      ensures released == old(released)
      ensures stop.None? ==> working.None? && committed == Fold(old(committed), files)
                             && failed == |Failures(old(committed), files, |files|)|
      // Nothing of the file that stopped it, nor of any later one, is applied.
      ensures stop.Some? ==> && stop.value < |files|
                             && committed == Fold(old(committed), files[..stop.value])
                             && Stops(committed, files[stop.value])
      ensures forall i :: 0 <= i < (if stop.Some? then stop.value else |files|) ==>
                !Stops(Fold(old(committed), files[..i]), files[i])
    {
      ghost var start := committed;
      failed := 0;
      for i := 0 to |files|
        invariant working.None? && released == old(released)
        invariant committed == Fold(start, files[..i])
        invariant forall k :: 0 <= k < i ==> !Stops(Fold(start, files[..k]), files[k])
        invariant failed == |Failures(start, files, i)|
      {
        FoldStep(start, files, i);
        assert Failures(start, files, i + 1)
               == Failures(start, files, i) + (if Fails(Fold(start, files[..i]), files[i]) then {i} else {});
        var r := ApplyFile(files[i]);
        if r.Threw? { return failed, Some(i); }
        if r.Failed? {
          failed := failed + 1;
          if FailClosed(files[i].name) { return failed, Some(i); }
        }
      }
      assert files[..|files|] == files;
      return failed, None;
    }
  }

  // ---- runMigrations --------------------------------------------------------

  datatype Outcome = NoClient | Done(failed: nat) | Stopped

  function FirstSchema(dirs: seq<Dir>): Option<File> {
    if dirs == [] then None else if dirs[0].schema.Some? then dirs[0].schema else FirstSchema(dirs[1..])
  }

  function FirstMigrations(dirs: seq<Dir>): Option<seq<File>> {
    if dirs == [] then None else if dirs[0].migrations.Some? then dirs[0].migrations else FirstMigrations(dirs[1..])
  }

  predicate IsSql(file: File) { |file.name| >= 4 && file.name[|file.name| - 4..] == ".sql" }

  function SqlFiles(files: seq<File>): seq<File> {
    if files == [] then [] else (if IsSql(files[0]) then [files[0]] else []) + SqlFiles(files[1..])
  }

  // The migrations in the order they are applied.
  function Plan(dirs: seq<Dir>): seq<File> {
    var listed := FirstMigrations(dirs);
    if listed.None? then [] else Sorted(SqlFiles(listed.value))
  }

  // The plan is what the first directory with migrations holds, the files named
  // *.sql and no others, each as often, in name order.
  lemma PlanMeans(dirs: seq<Dir>)
    ensures InOrder(Plan(dirs))
    ensures match FirstMigrations(dirs)
            case None => Plan(dirs) == [] && forall d | d in dirs :: d.migrations.None?
            case Some(files) =>
              && (exists k | 0 <= k < |dirs| ::
                    dirs[k].migrations == Some(files) && forall j | 0 <= j < k :: dirs[j].migrations.None?)
              && forall file :: multiset(Plan(dirs))[file]
                                == if EndsIn(file.name, ".sql") then multiset(files)[file] else 0
  {
    FirstMigrationsMean(dirs);
    var listed := FirstMigrations(dirs);
    if listed.Some? {
      SortedSorts(SqlFiles(listed.value));
      forall file ensures multiset(SqlFiles(listed.value))[file]
                          == if EndsIn(file.name, ".sql") then multiset(listed.value)[file] else 0 {
        SqlFilesMean(listed.value, file);
      }
    }
  }

  predicate EndsIn(text: string, part: string) {
    exists i | 0 <= i <= |text| :: text[i..] == part
  }

  lemma IsSqlMeans(file: File)
    ensures IsSql(file) <==> EndsIn(file.name, ".sql")
  {
    if IsSql(file) { assert file.name[|file.name| - 4..] == ".sql"; }
  }

  lemma {:induction false} SqlFilesMean(files: seq<File>, file: File)
    ensures multiset(SqlFiles(files))[file] == if EndsIn(file.name, ".sql") then multiset(files)[file] else 0
  {
    if files != [] {
      SqlFilesMean(files[1..], file);
      IsSqlMeans(files[0]);
      assert files == [files[0]] + files[1..];
    }
  }

  lemma {:induction false} FirstMigrationsMean(dirs: seq<Dir>)
    ensures match FirstMigrations(dirs)
            case None => forall d | d in dirs :: d.migrations.None?
            case Some(files) =>
              exists k | 0 <= k < |dirs| ::
                dirs[k].migrations == Some(files) && forall j | 0 <= j < k :: dirs[j].migrations.None?
  {
    if dirs != [] && dirs[0].migrations.None? {
      FirstMigrationsMean(dirs[1..]);
      assert dirs == [dirs[0]] + dirs[1..];
      var files := FirstMigrations(dirs);
      if files.Some? {
        var k :| 0 <= k < |dirs[1..]| && dirs[1..][k].migrations == files
                 && forall j | 0 <= j < k :: dirs[1..][j].migrations.None?;
        assert dirs[k + 1].migrations == files;
        forall j | 0 <= j < k + 1 ensures dirs[j].migrations.None? {
          if j > 0 { assert dirs[j] == dirs[1..][j - 1]; }
        }
      }
    }
  }

  // The schema file is the one of the first directory that has one.
  lemma {:induction false} FirstSchemaMeans(dirs: seq<Dir>)
    ensures match FirstSchema(dirs)
            case None => forall d | d in dirs :: d.schema.None?
            case Some(file) =>
              exists k | 0 <= k < |dirs| ::
                dirs[k].schema == Some(file) && forall j | 0 <= j < k :: dirs[j].schema.None?
  {
    if dirs != [] && dirs[0].schema.None? {
      FirstSchemaMeans(dirs[1..]);
      assert dirs == [dirs[0]] + dirs[1..];
      var file := FirstSchema(dirs);
      if file.Some? {
        var k :| 0 <= k < |dirs[1..]| && dirs[1..][k].schema == file
                 && forall j | 0 <= j < k :: dirs[1..][j].schema.None?;
        assert dirs[k + 1].schema == file;
        forall j | 0 <= j < k + 1 ensures dirs[j].schema.None? {
          if j > 0 { assert dirs[j] == dirs[1..][j - 1]; }
        }
      }
    }
  }

  function AfterSchema(tables: Tables, dirs: seq<Dir>): Tables {
    var schema := FirstSchema(dirs);
    if schema.None? then tables else After(tables, schema.value)
  }

  predicate SchemaThrows(tables: Tables, dirs: seq<Dir>) {
    FirstSchema(dirs).Some? && Throws(tables, FirstSchema(dirs).value)
  }

  // A guarded migration that is in place when its turn is over.
  predicate InPlace(tables: Tables, file: File) {
    file.body.Blank? || Commits(tables, file) || Skips(tables, file)
  }

  method RunMigrations(client: Option<Client>, dirs: seq<Dir>) returns (outcome: Outcome)
    requires client.Some? ==> client.value.working.None?
    modifies if client.Some? then {client.value} else {}
    ensures outcome.NoClient? <==> client.None?
    ensures client.Some? ==> client.value.released
    // Normal return: all of the plan was tried, and every guarded file is in place.
    ensures outcome.Done? ==>
              var start := AfterSchema(old(client.value.committed), dirs);
              && client.value.committed == Fold(start, Plan(dirs))
              && outcome.failed == |Failures(start, Plan(dirs), |Plan(dirs)|)|
              && forall i :: 0 <= i < |Plan(dirs)| && FailClosed(Plan(dirs)[i].name) ==>
                   InPlace(Fold(start, Plan(dirs)[..i]), Plan(dirs)[i])
    // A throw: the tables are those just before the schema file or migration that threw.
    ensures outcome.Stopped? ==>
              if SchemaThrows(old(client.value.committed), dirs)
                  then client.value.committed == old(client.value.committed)
              else
                var start := AfterSchema(old(client.value.committed), dirs);
                exists k | 0 <= k < |Plan(dirs)| ::
                  client.value.committed == Fold(start, Plan(dirs)[..k])
                      && Stops(Fold(start, Plan(dirs)[..k]), Plan(dirs)[k])
  {
    hide Fold, Plan, FirstSchema, Failures, FailClosed, AlreadyExists, OfRerun;
    if client.None? { return NoClient; }
    var schema := FirstSchema(dirs);
    if schema.Some? {
      var r := client.value.ApplyFile(schema.value);
      if r.Threw? {
        client.value.released := true;
        return Stopped;
      }
    }
    var failed, stop := client.value.ApplyAll(Plan(dirs));
    client.value.released := true;
    outcome := if stop.Some? then Stopped else Done(failed);
  }
}
