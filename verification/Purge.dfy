/**
 Purging failed runs, compile jobs and generated artifacts: the preview counts
 and the destructive transaction.
 */
module Purge {
  import opened Json

  type Id = string

  datatype Flags = Flags(retryable: bool, administrative: bool)

  // `state` is the definition the row's status joins with, if there is one.
  datatype Artifact = Artifact(requestKey: Option<Id>, state: Option<Flags>)

  datatype Job = Job(requestKey: Option<Id>, cacheKey: Option<Id>, state: Option<Flags>)

  datatype Task = Task(state: Option<Flags>)

  datatype Run = Run(requestKey: Option<Id>, cacheKey: Option<Id>, state: Option<Flags>, task: Option<Id>)

  // Artifacts are keyed by their cache key.
  datatype Db = Db(artifacts: map<Id, Artifact>, jobs: map<Id, Job>, runs: map<Id, Run>, tasks: map<Id, Task>)

  // ---- What counts as failed ------------------------------------------------

  predicate Retryable(state: Option<Flags>) { state.Some? && state.value.retryable }

  predicate Failed(state: Option<Flags>) { state.Some? && (state.value.retryable || state.value.administrative) }

  predicate TaskRetryable(d: Db, task: Option<Id>) {
    task.Some? && task.value in d.tasks && Retryable(d.tasks[task.value].state)
  }

  // The preview, and the handles, join a run with the definition of its status ...
  predicate RunJoined(d: Db, r: Run) {
    r.state.Some? && (r.state.value.retryable || TaskRetryable(d, r.task))
  }

  // ... the deletion of runs does not.
  predicate RunMatched(d: Db, r: Run) {
    Retryable(r.state) || TaskRetryable(d, r.task)
  }

  predicate Points(requestKey: Option<Id>, cacheKey: Option<Id>, key: Id, a: Artifact) {
    (requestKey.Some? && a.requestKey == requestKey) || cacheKey == Some(key)
  }

  // A failed job or run names the artifact by one of its handles.
  predicate Handled(d: Db, key: Id)
    requires key in d.artifacts
  {
    || (exists j | j in d.jobs ::
        Failed(d.jobs[j].state) && Points(d.jobs[j].requestKey, d.jobs[j].cacheKey, key, d.artifacts[key]))
    || (exists r | r in d.runs ::
        RunJoined(d, d.runs[r]) && Points(d.runs[r].requestKey, d.runs[r].cacheKey, key, d.artifacts[key]))
  }

  // ---- Preview --------------------------------------------------------------

  function PreviewRuns(d: Db): set<Id> { set r | r in d.runs && RunJoined(d, d.runs[r]) }

  function FailedJobs(d: Db): set<Id> { set j | j in d.jobs && Failed(d.jobs[j].state) }

  function PreviewArtifacts(d: Db): set<Id> {
    set k | k in d.artifacts && d.artifacts[k].state.Some? && (Failed(d.artifacts[k].state) || Handled(d, k))
  }

  // ---- Purge ----------------------------------------------------------------

  function HandledArtifacts(d: Db): set<Id> { set k | k in d.artifacts && Handled(d, k) }

  function FailedArtifacts(d: Db): set<Id> { set k | k in d.artifacts && Failed(d.artifacts[k].state) }

  function MatchedRuns(d: Db): set<Id> { set r | r in d.runs && RunMatched(d, d.runs[r]) }

  function WithoutArtifacts(d: Db): Db { d.(artifacts := d.artifacts - (HandledArtifacts(d) + FailedArtifacts(d))) }

  function WithoutJobs(d: Db): Db { d.(jobs := d.jobs - FailedJobs(d)) }

  function WithoutRuns(d: Db): Db { d.(runs := d.runs - MatchedRuns(d)) }

  function Purged(d: Db): Db { WithoutRuns(WithoutJobs(WithoutArtifacts(d))) }

  datatype Counts = Counts(runs: nat, jobs: nat, artifacts: nat)

  class Agency {
    var db: Db

    constructor (db: Db)
      ensures this.db == db
    {
      this.db := db;
    }

    // POST /workflow-runs/purge-failed without confirmation.
    method Preview() returns (counts: Counts)
      ensures counts == Counts(|PreviewRuns(db)|, |FailedJobs(db)|, |PreviewArtifacts(db)|)
    {
      counts := Counts(|PreviewRuns(db)|, |FailedJobs(db)|, |PreviewArtifacts(db)|);
    }

    // With confirmation: one transaction; `fails` is the statement that throws, if one does.
    method PurgeFailed(fails: Option<nat>) returns (counts: Option<Counts>)
      modifies this
      ensures counts.None? ==> db == old(db) && fails.Some?
      ensures counts.Some? ==> db == Purged(old(db))
      ensures counts.Some? ==> Removed(old(db), db)
      ensures counts.Some? ==>
                && counts.value.runs == |old(db).runs| - |db.runs|
                && counts.value.jobs == |old(db).jobs| - |db.jobs|
                && counts.value.artifacts == |old(db).artifacts| - |db.artifacts|
      // The preview of the same tables says the same, exactly where nothing undefined is touched.
      ensures counts.Some? ==>
                && counts.value.jobs == |FailedJobs(old(db))|
                && (counts.value.runs == |PreviewRuns(old(db))| <==> RunsDefined(old(db)))
                && (counts.value.artifacts == |PreviewArtifacts(old(db))| <==> ArtifactsDefined(old(db)))
    {
      hide Removed, RunsDefined, ArtifactsDefined, PreviewRuns, PreviewArtifacts;
      var start := db;
      PurgeRemoves(db);
      PurgeSizes(db);
      PreviewAgrees(db);
      var deleted := HandledArtifacts(db);
      var stateDeleted := FailedArtifacts(db) - deleted;
      assert deleted + stateDeleted == HandledArtifacts(db) + FailedArtifacts(db);
      if fails == Some(0) { return None; }
      db := db.(artifacts := db.artifacts - (deleted + stateDeleted));
      var jobs := FailedJobs(db);
      if fails == Some(1) { db := start; return None; }
      db := db.(jobs := db.jobs - jobs);
      var runs := MatchedRuns(db);
      if fails == Some(2) { db := start; return None; }
      db := db.(runs := db.runs - runs);
      counts := Some(Counts(|runs|, |jobs|, |deleted| + |stateDeleted|));
    }
  }

  predicate Bad(state: Option<Flags>) {
    match state
    case None => false
    case Some(Flags(retryable, administrative)) => retryable || administrative
  }

  // A run fails by its own status or by its task's.
  predicate BadRun(d: Db, r: Run) {
    || (r.state.Some? && r.state.value.retryable)
    || (r.task.Some? && r.task.value in d.tasks
        && d.tasks[r.task.value].state.Some? && d.tasks[r.task.value].state.value.retryable)
  }

  // The tables after a purge, row by row: failed jobs and runs are gone, and of the
  // artifacts those in a failed state and those a failed job, or a failed run of a
  // defined status, names by its request key or its cache key. All other rows are there.
  ghost predicate Removed(d: Db, d': Db) {
    && d'.tasks == d.tasks
    && (forall j :: j in d'.jobs <==> j in d.jobs && !Bad(d.jobs[j].state))
    && (forall j :: j in d'.jobs ==> d'.jobs[j] == d.jobs[j])
    && (forall r :: r in d'.runs <==> r in d.runs && !BadRun(d, d.runs[r]))
    && (forall r :: r in d'.runs ==> d'.runs[r] == d.runs[r])
    && (forall k :: k in d'.artifacts ==> k in d.artifacts && d'.artifacts[k] == d.artifacts[k])
    && forall k :: k in d.artifacts ==> (k !in d'.artifacts <==> Bad(d.artifacts[k].state) || NamedByFailed(d, k))
  }

  predicate NamedByFailed(d: Db, key: Id)
    requires key in d.artifacts
  {
    || (exists j | j in d.jobs && Bad(d.jobs[j].state) ::
          d.jobs[j].cacheKey == Some(key)
          || (d.artifacts[key].requestKey.Some? && d.jobs[j].requestKey == d.artifacts[key].requestKey))
    || (exists r | r in d.runs && BadRun(d, d.runs[r]) && d.runs[r].state.Some? ::
          d.runs[r].cacheKey == Some(key)
          || (d.artifacts[key].requestKey.Some? && d.runs[r].requestKey == d.artifacts[key].requestKey))
  }

  lemma HandledNamed(d: Db, key: Id)
    requires key in d.artifacts
    ensures Handled(d, key) <==> NamedByFailed(d, key)
  {
  }

  lemma PurgeRemoves(d: Db)
    ensures Removed(d, Purged(d))
  {
    forall k | k in d.artifacts ensures Handled(d, k) <==> NamedByFailed(d, k) { HandledNamed(d, k); }
  }

  // The counts of a preview, row by row.
  lemma PreviewCounts(d: Db)
    ensures PreviewRuns(d) == set r | r in d.runs && BadRun(d, d.runs[r]) && d.runs[r].state.Some?
    ensures FailedJobs(d) == set j | j in d.jobs && Bad(d.jobs[j].state)
    ensures PreviewArtifacts(d) ==
            set k | k in d.artifacts && d.artifacts[k].state.Some? && (Bad(d.artifacts[k].state) || NamedByFailed(d, k))
  {
    forall k | k in d.artifacts ensures Handled(d, k) <==> NamedByFailed(d, k) { HandledNamed(d, k); }
  }

  lemma ArtifactSizes(d: Db)
    ensures |HandledArtifacts(d) + FailedArtifacts(d)| == |d.artifacts| - |Purged(d).artifacts|
  {
  }

  lemma JobSizes(d: Db)
    ensures FailedJobs(WithoutArtifacts(d)) == FailedJobs(d) && |FailedJobs(d)| == |d.jobs| - |Purged(d).jobs|
  {
  }

  lemma RunSizes(d: Db)
    ensures MatchedRuns(WithoutJobs(WithoutArtifacts(d))) == MatchedRuns(d)
    ensures |MatchedRuns(d)| == |d.runs| - |Purged(d).runs|
  {
  }

  lemma PurgeSizes(d: Db)
    ensures var d1 := WithoutArtifacts(d);
            var d2 := WithoutJobs(d1);
            && |HandledArtifacts(d) + FailedArtifacts(d)| == |d.artifacts| - |Purged(d).artifacts|
            && FailedJobs(d1) == FailedJobs(d) && |FailedJobs(d)| == |d.jobs| - |Purged(d).jobs|
            && MatchedRuns(d2) == MatchedRuns(d) && |MatchedRuns(d)| == |d.runs| - |Purged(d).runs|
  {
    hide *;
    ArtifactSizes(d);
    JobSizes(d);
    RunSizes(d);
  }

  // ---- Preview against purge ------------------------------------------------

  // No run of an undefined status has a retryable task.
  predicate RunsDefined(d: Db) {
    forall r | r in d.runs :: d.runs[r].state.None? ==> !TaskRetryable(d, d.runs[r].task)
  }

  // No handle names an artifact of an undefined state.
  predicate ArtifactsDefined(d: Db) {
    forall k | k in d.artifacts :: Handled(d, k) ==> d.artifacts[k].state.Some?
  }

  lemma SubsetSameSize(a: set<Id>, b: set<Id>)
    requires a <= b
    ensures |a| <= |b| && (|a| == |b| <==> a == b)
  {
    assert b == a + (b - a);
  }

  // The purge touches all the preview counts; the counts agree exactly when every
  // row it touches beside those has a defined status.
  lemma PreviewAgrees(d: Db)
    ensures PreviewRuns(d) <= MatchedRuns(d)
    ensures PreviewArtifacts(d) <= HandledArtifacts(d) + FailedArtifacts(d)
    ensures |PreviewRuns(d)| == |MatchedRuns(d)| <==> RunsDefined(d)
    ensures |PreviewArtifacts(d)| == |HandledArtifacts(d) + FailedArtifacts(d)| <==> ArtifactsDefined(d)
  {
    SubsetSameSize(PreviewRuns(d), MatchedRuns(d));
    SubsetSameSize(PreviewArtifacts(d), HandledArtifacts(d) + FailedArtifacts(d));
    forall r | r in d.runs
      ensures r in PreviewRuns(d) <==>
              r in MatchedRuns(d) && (d.runs[r].state.Some? || !TaskRetryable(d, d.runs[r].task))
    {
    }
    forall k | k in d.artifacts
      ensures k in PreviewArtifacts(d) <==>
              k in HandledArtifacts(d) + FailedArtifacts(d) && d.artifacts[k].state.Some?
    {
    }
    if PreviewRuns(d) == MatchedRuns(d) {
      forall r | r in d.runs && d.runs[r].state.None? ensures !TaskRetryable(d, d.runs[r].task) {
        assert r in MatchedRuns(d) ==> r in PreviewRuns(d);
      }
    }
    if PreviewArtifacts(d) == HandledArtifacts(d) + FailedArtifacts(d) {
      forall k | k in d.artifacts && Handled(d, k) ensures d.artifacts[k].state.Some? {
        assert k in HandledArtifacts(d);
      }
    }
  }

  // A second purge finds nothing, and neither does a second preview.
  lemma SecondPurgeEmpty(d: Db)
    ensures var d' := Purged(d);
            && Purged(d') == d'
            && PreviewRuns(d') == MatchedRuns(d') == {} && FailedJobs(d') == {}
            && PreviewArtifacts(d') == HandledArtifacts(d') == FailedArtifacts(d') == {}
  {
  }

  // ---- Why artifacts go first -----------------------------------------------

  // The same statements with jobs and runs deleted before the artifacts.
  function PurgedLate(d: Db): Db { WithoutArtifacts(WithoutRuns(WithoutJobs(d))) }

  // Then no handle is left: only artifacts failed by their own state go, and the
  // result is the same exactly when the handles named no others.
  lemma LatePurgeKeepsHandled(d: Db)
    ensures PurgedLate(d).artifacts == d.artifacts - FailedArtifacts(d)
    ensures PurgedLate(d) == Purged(d) <==> HandledArtifacts(d) <= FailedArtifacts(d)
  {
  }

  // And such tables exist: one failed job whose artifact is in a healthy state.
  lemma LatePurgeLeavesArtifact()
    ensures var d := Db(map["cache" := Artifact(None, Some(Flags(false, false)))],
                        map["job" := Job(None, Some("cache"), Some(Flags(true, false)))], map[], map[]);
            "cache" in PurgedLate(d).artifacts && "cache" !in Purged(d).artifacts
  {
    var d := Db(map["cache" := Artifact(None, Some(Flags(false, false)))],
                map["job" := Job(None, Some("cache"), Some(Flags(true, false)))], map[], map[]);
    LatePurgeKeepsHandled(d);
    assert "job" in d.jobs && Failed(d.jobs["job"].state);
    assert Handled(d, "cache");
  }
}
