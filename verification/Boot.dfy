/**
 Startup recovery in enforced mode: in-flight roots first become manual, then
 evidence in the workflow and job tables ends those it fully explains.
 */
module Boot {
  import opened Json
  import opened Ledger
  import opened Protocol
  import opened DeviceSlot
  import opened PermitLane
  import opened EdgeLane
  import JobResults

  // ---- Evidence -------------------------------------------------------------

  type EndState = s: State | Terminal(s) witness Completed

  // `failable`: its status has exactly one transition to a terminal, retryable, non-administrative status.
  datatype WorkflowRow = WorkflowRow(device: Id, terminal: bool, completed: bool, status: EndState, failable: bool)

  // `workflow` is the workflow whose step the job's command was; `quiet`: completed five minutes ago or more.
  datatype JobRow = JobRow(workflow: Option<Id>, device: Id, terminal: bool, completed: bool, started: bool,
                           quiet: bool)

  datatype Evidence = Evidence(workflows: map<Id, WorkflowRow>, jobs: map<Id, JobRow>)

  predicate Linked(ev: Evidence, job: Id, workflow: Id) {
    job in ev.jobs && ev.jobs[job].workflow == Some(workflow)
  }

  // ---- reconcileTerminalWorkflowRoots ---------------------------------------

  // A child job whose own row explains it.
  predicate ChildExplained(ev: Evidence, r: Root, key: RootKey, op: OpKey, o: Operation) {
    && op.JobOp? && o.device == r.device && o.generation == r.generation
    && Linked(ev, op.id, key.id)
    && ev.jobs[op.id].device == r.device && ev.jobs[op.id].terminal && ev.jobs[op.id].completed && ev.jobs[op.id].quiet
  }

  // The workflow row, its own operation and its jobs all agree that it is over.
  predicate WorkflowExplained(d: Db, ev: Evidence, key: RootKey)
    requires key in d.roots
  {
    var r, own := d.roots[key], WorkflowOp(key.id);
    && !key.JobRoot? && key.id in ev.workflows
    && ev.workflows[key.id].device == r.device && ev.workflows[key.id].terminal && ev.workflows[key.id].completed
    && own in d.ops && d.ops[own].root == key && d.ops[own].device == r.device && d.ops[own].generation == r.generation
    && (forall j | j in ev.jobs :: Linked(ev, j, key.id) ==>
          ev.jobs[j].device == r.device && ev.jobs[j].terminal && ev.jobs[j].completed)
  }

  predicate ProvenTerminal(d: Db, ev: Evidence, key: RootKey) {
    key in d.roots && Manual(d.roots[key].state) && WorkflowExplained(d, ev, key)
    && forall op | op in d.ops ::
         d.ops[op].root == key && op != WorkflowOp(key.id) ==>
           Terminal(d.ops[op].state)
           || (Manual(d.ops[op].state) && ChildExplained(ev, d.roots[key], key, op, d.ops[op]))
  }

  function ReconcileTerminal(d: Db, ev: Evidence): Db {
    d.(roots := map k | k in d.roots ::
         if ProvenTerminal(d, ev, k)
         then d.roots[k].(state := ev.workflows[k.id].status, touched := d.clock)
         else d.roots[k],
       ops := map o | o in d.ops ::
         var row := d.ops[o];
         if ProvenTerminal(d, ev, row.root) && row.device == d.roots[row.root].device
            && row.generation == d.roots[row.root].generation && !Terminal(row.state)
         then row.(state := ev.workflows[row.root.id].status)
         else row,
       clock := d.clock + 1)
  }

  // ---- reconcileUndispatchedTimedOutServerWorkflows -------------------------

  predicate Undispatched(d: Db, ev: Evidence, key: RootKey) {
    && key in d.roots && key.ServerRoot? && !Terminal(d.roots[key].state)
    && key.id in ev.workflows && ev.workflows[key.id].failable
    && (exists j | j in ev.jobs :: Linked(ev, j, key.id))
    && (forall j | j in ev.jobs :: Linked(ev, j, key.id) ==>
          && ev.jobs[j].terminal && ev.jobs[j].completed
          && (ev.jobs[j].started ==> ev.workflows[key.id].terminal && ev.jobs[j].quiet))
  }

  function ReconcileUndispatched(d: Db, ev: Evidence): Db {
    d.(roots := map k | k in d.roots ::
         if Undispatched(d, ev, k) then d.roots[k].(state := Failed, touched := d.clock) else d.roots[k],
       ops := map o | o in d.ops ::
         if Undispatched(d, ev, d.ops[o].root) && !Terminal(d.ops[o].state) then d.ops[o].(state := Failed)
         else d.ops[o],
       clock := d.clock + 1)
  }

  // ---- Boot -----------------------------------------------------------------

  // The order of the boot sequence.
  function Recovered(d: Db, ev: Evidence): Db {
    ReconcileUndispatched(ReconcileTerminal(ReconcileInFlight(d), ev), ev)
  }

  // Evidence cleanup before the fail-closed step.
  function Swapped(d: Db, ev: Evidence): Db {
    ReconcileUndispatched(ReconcileInFlight(ReconcileTerminal(d, ev)), ev)
  }

  // What has to be in the tables when the process died for the boot to end this
  // root: a workflow that is over on the root's device, with all its jobs; the
  // workflow's own operation, under the root's generation; and under the same, for
  // every other operation that is not over, a job of the workflow that came to its
  // end five minutes ago.
  predicate CompleteEvidence(d: Db, ev: Evidence, key: RootKey) {
    && key in d.roots && Active(d.roots[key].state) && (key.ServerRoot? || key.EdgeRoot?) && key.id in ev.workflows
    && var r, row, own := d.roots[key], ev.workflows[key.id], WorkflowOp(key.id);
       && row.terminal && row.completed && row.device == r.device
       && own in d.ops && d.ops[own].root == key
       && d.ops[own].device == r.device && d.ops[own].generation == r.generation
       && (forall j | j in ev.jobs && ev.jobs[j].workflow == Some(key.id) ::
             ev.jobs[j].terminal && ev.jobs[j].completed && ev.jobs[j].device == r.device)
       && forall op | op in d.ops && d.ops[op].root == key && op != own && !Terminal(d.ops[op].state) ::
            var o := d.ops[op];
            && op.JobOp? && op.id in ev.jobs && ev.jobs[op.id].workflow == Some(key.id) && ev.jobs[op.id].quiet
            && o.device == r.device && o.generation == r.generation
            && (o.state.Blocked? || o.state.Reconciling? || (InFlight(r.state) && InFlight(o.state)))
  }

  // A server workflow that has jobs, all of them over; those that were started
  // count only five minutes after their end, and once the workflow is over itself.
  predicate NeverStarted(d: Db, ev: Evidence, key: RootKey) {
    && key in d.roots && key.ServerRoot? && !Terminal(d.roots[key].state)
    && key.id in ev.workflows && ev.workflows[key.id].failable
    && (exists j | j in ev.jobs :: ev.jobs[j].workflow == Some(key.id))
    && forall j | j in ev.jobs && ev.jobs[j].workflow == Some(key.id) ::
         && ev.jobs[j].completed && ev.jobs[j].terminal
         && (!ev.jobs[j].started || (ev.jobs[j].quiet && ev.workflows[key.id].terminal))
  }

  lemma UndispatchedMeans(d: Db, ev: Evidence, key: RootKey)
    ensures Undispatched(d, ev, key) <==> NeverStarted(d, ev, key)
  {
    forall j | j in ev.jobs && key.ServerRoot? ensures Linked(ev, j, key.id) <==> ev.jobs[j].workflow == Some(key.id) {}
  }

  lemma EvidenceBeforeBoot(d: Db, ev: Evidence, key: RootKey)
    ensures ProvenTerminal(ReconcileInFlight(d), ev, key) <==> CompleteEvidence(d, ev, key)
  {
    var d1 := ReconcileInFlight(d);
    if key in d.roots {
      assert Manual(d1.roots[key].state) <==> Active(d.roots[key].state);
      forall op | op in d.ops && d.ops[op].root == key
        ensures op in d1.ops && d1.ops[op].root == key
        ensures Terminal(d1.ops[op].state) <==> Terminal(d.ops[op].state)
        ensures Manual(d1.ops[op].state) <==>
                Manual(d.ops[op].state) || (InFlight(d.ops[op].state) && InFlight(d.roots[key].state))
        ensures d1.ops[op].device == d.ops[op].device && d1.ops[op].generation == d.ops[op].generation
      {
      }
      assert d1.ops.Keys == d.ops.Keys;
      assert forall j :: Linked(ev, j, key.id) <==> j in ev.jobs && ev.jobs[j].workflow == Some(key.id);
      EvidenceFound(d, d1, ev, key);
    }
  }

  // The query, row by row.
  lemma EvidenceFound(d: Db, d1: Db, ev: Evidence, key: RootKey)
    requires key in d.roots && key in d1.roots && d1.ops.Keys == d.ops.Keys
    requires d1.roots[key].device == d.roots[key].device && d1.roots[key].generation == d.roots[key].generation
    requires Manual(d1.roots[key].state) <==> Active(d.roots[key].state)
    requires forall op :: op in d.ops ==>
               && d1.ops[op].root == d.ops[op].root && d1.ops[op].device == d.ops[op].device
               && d1.ops[op].generation == d.ops[op].generation
    requires forall op :: op in d.ops && d.ops[op].root == key ==>
               && (Terminal(d1.ops[op].state) <==> Terminal(d.ops[op].state))
               && (Manual(d1.ops[op].state) <==>
                     Manual(d.ops[op].state) || (InFlight(d.ops[op].state) && InFlight(d.roots[key].state)))
    ensures ProvenTerminal(d1, ev, key) <==> CompleteEvidence(d, ev, key)
  {
  }

  // No root is claimed, dispatching or dispatched after the boot, and queued roots only leave the queue by failing.
  lemma NothingInFlight(d: Db, ev: Evidence, key: RootKey)
    requires key in d.roots
    ensures key in Recovered(d, ev).roots && !InFlight(Recovered(d, ev).roots[key].state)
    ensures d.roots[key].state.Initial? ==>
              Recovered(d, ev).roots[key] == d.roots[key] || Recovered(d, ev).roots[key].state.Failed?
  {
  }

  // The boot ends exactly the active roots the tables explain, or whose jobs never started.
  lemma BootEndsExplainedRoots(d: Db, ev: Evidence, key: RootKey)
    requires key in d.roots && Active(d.roots[key].state)
    ensures key in Recovered(d, ev).roots
    ensures Terminal(Recovered(d, ev).roots[key].state) <==>
            CompleteEvidence(d, ev, key) || NeverStarted(d, ev, key)
  {
    BootedRoot(d, ev, key);
  }

  // Where the boot leaves a root: an explained one in the state its workflow ended
  // in, one whose jobs never started failed, any other one in flight to be resolved
  // by hand, and the rest as they were.
  lemma BootedRoot(d: Db, ev: Evidence, key: RootKey)
    requires key in d.roots
    ensures key in Recovered(d, ev).roots
    ensures var r, r' := d.roots[key], Recovered(d, ev).roots[key];
            && r' == r.(state := r'.state, touched := r'.touched)
            && if CompleteEvidence(d, ev, key) then r'.state == ev.workflows[key.id].status
               else if NeverStarted(d, ev, key) then r'.state.Failed?
               else if InFlight(r.state)
               then (if r.state.Dispatching? then r'.state.Blocked? else r'.state.Reconciling?)
               else r' == r
  {
    var d1 := ReconcileInFlight(d);
    var d2 := ReconcileTerminal(d1, ev);
    EvidenceBeforeBoot(d, ev, key);
    UndispatchedMeans(d2, ev, key);
    assert Terminal(d2.roots[key].state) <==> Terminal(d.roots[key].state) || CompleteEvidence(d, ev, key);
    assert !Terminal(d2.roots[key].state) ==> (NeverStarted(d2, ev, key) <==> NeverStarted(d, ev, key));
  }

  // The three steps, for one operation.
  lemma FailClosedOp(d: Db, op: OpKey)
    requires op in d.ops
    ensures var d1, o := ReconcileInFlight(d), d.ops[op];
            && op in d1.ops && d1.ops[op] == o.(state := d1.ops[op].state)
            && if o.root in d.roots && InFlight(d.roots[o.root].state) && InFlight(o.state)
               then (if o.state.Dispatching? then d1.ops[op].state.Blocked? else d1.ops[op].state.Reconciling?)
               else d1.ops[op] == o
  {
  }

  lemma EvidenceOp(d: Db, ev: Evidence, op: OpKey)
    requires op in d.ops
    ensures var d2, o := ReconcileTerminal(d, ev), d.ops[op];
            && op in d2.ops && d2.ops[op] == o.(state := d2.ops[op].state)
            && d2.ops[op].state == if ProvenTerminal(d, ev, o.root) && !Terminal(o.state)
                                   then ev.workflows[o.root.id].status else o.state
  {
    if ProvenTerminal(d, ev, d.ops[op].root) && !Terminal(d.ops[op].state) && op != WorkflowOp(d.ops[op].root.id) {
      assert ChildExplained(ev, d.roots[d.ops[op].root], d.ops[op].root, op, d.ops[op]);
    }
  }

  lemma UndispatchedOp(d: Db, ev: Evidence, op: OpKey)
    requires op in d.ops
    ensures var d3, o := ReconcileUndispatched(d, ev), d.ops[op];
            && op in d3.ops && d3.ops[op] == o.(state := d3.ops[op].state)
            && d3.ops[op].state == if NeverStarted(d, ev, o.root) && !Terminal(o.state) then Failed else o.state
  {
    UndispatchedMeans(d, ev, d.ops[op].root);
  }

  lemma EvidenceLeavesUnstarted(d: Db, ev: Evidence, key: RootKey)
    ensures NeverStarted(ReconcileTerminal(ReconcileInFlight(d), ev), ev, key) <==>
            NeverStarted(d, ev, key) && !CompleteEvidence(d, ev, key)
  {
    EvidenceBeforeBoot(d, ev, key);
  }

  // And an operation: it ends with its root, in the root's state; operations of
  // other roots in flight are to be resolved by hand, too.
  lemma BootedOp(d: Db, ev: Evidence, op: OpKey)
    requires op in d.ops
    ensures op in Recovered(d, ev).ops
    ensures var o, o' := d.ops[op], Recovered(d, ev).ops[op];
            && o' == o.(state := o'.state)
            && if Terminal(o.state) then o' == o
               else if CompleteEvidence(d, ev, o.root) then o'.state == ev.workflows[o.root.id].status
               else if NeverStarted(d, ev, o.root) then o'.state.Failed?
               else if o.root in d.roots && InFlight(d.roots[o.root].state) && InFlight(o.state)
               then (if o.state.Dispatching? then o'.state.Blocked? else o'.state.Reconciling?)
               else o' == o
  {
    hide ReconcileInFlight, ReconcileTerminal, ReconcileUndispatched, ProvenTerminal, NeverStarted, Undispatched;
    var d1, key := ReconcileInFlight(d), d.ops[op].root;
    var d2 := ReconcileTerminal(d1, ev);
    FailClosedOp(d, op);
    EvidenceBeforeBoot(d, ev, key);
    EvidenceOp(d1, ev, op);
    EvidenceLeavesUnstarted(d, ev, key);
    UndispatchedOp(d2, ev, op);
  }

  // A device all of whose active roots are explained has a free slot after the
  // boot, and its oldest queued root can be claimed.
  lemma BootFreesDevice(d: Db, ev: Evidence, device: Id, next: RootKey)
    requires forall k :: ActiveOn(d, device, k) ==> CompleteEvidence(d, ev, k) || NeverStarted(d, ev, k)
    requires IsOldest(Recovered(d, ev), device, next)
    ensures Claimable(Recovered(d, ev), device, next)
  {
    var d' := Recovered(d, ev);
    forall a | a in d'.roots ensures !ActiveOn(d', device, a) {
      if ActiveOn(d', device, a) {
        if Active(d.roots[a].state) {
          assert ActiveOn(d, device, a);
          BootEndsExplainedRoots(d, ev, a);
        }
      }
    }
  }

  // The first two steps in the other order: the evidence finds nothing in flight.
  lemma SwappedRow(d: Db, ev: Evidence, key: RootKey)
    requires key in d.roots && InFlight(d.roots[key].state)
    ensures var d2 := ReconcileInFlight(ReconcileTerminal(d, ev));
            && key in d2.roots && Manual(d2.roots[key].state) && d2.roots[key].device == d.roots[key].device
            && (NeverStarted(d2, ev, key) <==> NeverStarted(d, ev, key))
  {
  }

  // In the other order a root in flight stays active, explained or not, unless
  // its jobs never started; and no other root of its device can be claimed.
  lemma SwappedOrderBlocks(d: Db, ev: Evidence, key: RootKey)
    requires key in d.roots && InFlight(d.roots[key].state)
    ensures key in Swapped(d, ev).roots
    ensures Manual(Swapped(d, ev).roots[key].state) <==> !NeverStarted(d, ev, key)
    ensures !NeverStarted(d, ev, key) ==>
              forall next :: !Claimable(Swapped(d, ev), d.roots[key].device, next)
  {
    hide ReconcileTerminal, ReconcileInFlight, NeverStarted, Undispatched;
    var d2 := ReconcileInFlight(ReconcileTerminal(d, ev));
    SwappedRow(d, ev, key);
    UndispatchedMeans(d2, ev, key);
    assert !NeverStarted(d, ev, key) ==> ActiveOn(Swapped(d, ev), d.roots[key].device, key);
  }

  // The ledger after one edge workflow was authorised for one device, and nothing else.
  predicate LoneWorkflow(d: Db, device: Id, workflow: Id) {
    var key, op := EdgeRoot(workflow), WorkflowOp(workflow);
    && key in d.roots && d.roots[key].device == device && InFlight(d.roots[key].state)
    && d.ops.Keys == {op} && d.ops[op].root == key && d.ops[op].device == device
    && d.ops[op].generation == d.roots[key].generation
  }

  lemma AuthorisedAlone(device: Id, workflow: Id, envelope: Value)
    ensures LoneWorkflow(PrepareEdge(Empty(false).db, device, workflow, envelope).db, device, workflow)
  {
  }

  lemma LoneWorkflowExplained(d: Db, device: Id, workflow: Id)
    requires LoneWorkflow(d, device, workflow)
    ensures var ev := Evidence(map[workflow := WorkflowRow(device, true, true, Completed, false)], map[]);
            CompleteEvidence(d, ev, EdgeRoot(workflow)) && !NeverStarted(d, ev, EdgeRoot(workflow))
  {
  }

  // A reachable crash where the order decides: an edge workflow was authorised,
  // the process died, and the device finished the workflow meanwhile.
  lemma OrderMatters(device: Id, workflow: Id, envelope: Value)
    ensures var d := Run(Empty(false), [PrepareEdgeSend("pump", device, workflow, envelope)] + ([Crash] + [])).db;
            var ev := Evidence(map[workflow := WorkflowRow(device, true, true, Completed, false)], map[]);
            var key := EdgeRoot(workflow);
            && key in d.roots && InFlight(d.roots[key].state)
            && key in Recovered(d, ev).roots && Terminal(Recovered(d, ev).roots[key].state)
            && key in Swapped(d, ev).roots && Manual(Swapped(d, ev).roots[key].state)
  {
    var w0, prepare := Empty(false), PrepareEdgeSend("pump", device, workflow, envelope);
    RunFrom(w0, prepare, [Crash] + []);
    RunFrom(Step(w0, prepare), Crash, []);
    AuthorisedAlone(device, workflow, envelope);
    var d := Run(w0, [prepare] + ([Crash] + [])).db;
    assert d == PrepareEdge(w0.db, device, workflow, envelope).db;
    LoneWorkflowExplained(d, device, workflow);
    var ev := Evidence(map[workflow := WorkflowRow(device, true, true, Completed, false)], map[]);
    BootEndsExplainedRoots(d, ev, EdgeRoot(workflow));
    SwappedOrderBlocks(d, ev, EdgeRoot(workflow));
  }

  lemma EvidenceRow(d: Db, ev: Evidence, key: RootKey)
    requires key in d.roots
    ensures var roots := ReconcileTerminal(d, ev).roots;
            && key in roots && Moves(d.roots[key], roots[key])
            && (roots[key] == d.roots[key] || (Manual(d.roots[key].state) && Terminal(roots[key].state)))
  {
  }

  lemma EvidenceSettles(d: Db, ev: Evidence)
    requires StagesAgree(d)
    ensures Settles(d, ReconcileTerminal(d, ev)) && StagesAgree(ReconcileTerminal(d, ev))
  {
    hide Moves, ProvenTerminal;
    forall k | k in d.roots
      ensures var roots := ReconcileTerminal(d, ev).roots;
              && Moves(d.roots[k], roots[k])
              && (roots[k] == d.roots[k] || (Manual(d.roots[k].state) && Terminal(roots[k].state)))
    {
      EvidenceRow(d, ev, k);
    }
  }

  lemma UndispatchedSettles(d: Db, ev: Evidence)
    requires StagesAgree(d)
    ensures Settles(d, ReconcileUndispatched(d, ev)) && StagesAgree(ReconcileUndispatched(d, ev))
  {
  }

  // Recovery only ever ends or blocks roots in place, so it keeps what every run keeps.
  lemma RecoveryKeepsSlots(d: Db, ev: Evidence)
    requires SlotInvariant(d)
    ensures SlotInvariant(Recovered(d, ev))
  {
    var d1 := ReconcileInFlight(d);
    var d2 := ReconcileTerminal(d1, ev);
    ReconcileSettles(d);
    SettlesKeeps(d, d1);
    EvidenceSettles(d1, ev);
    SettlesKeeps(d1, d2);
    UndispatchedSettles(d2, ev);
    SettlesKeeps(d2, ReconcileUndispatched(d2, ev));
  }

  lemma SettlesKeeps(d: Db, d': Db)
    requires SlotInvariant(d) && Settles(d, d') && StagesAgree(d')
    ensures SlotInvariant(d')
  {
    SettlesNumbers(d, d');
    SettlesExcludes(d, d');
    SettlesOrders(d, d');
  }

  // ---- ... and everything else runs keep

  lemma EvidenceMoves(d: Db, ev: Evidence)
    ensures OpsMove(d, ReconcileTerminal(d, ev)) && ReconcileTerminal(d, ev).ops.Keys == d.ops.Keys
  {
  }

  lemma UndispatchedMoves(d: Db, ev: Evidence)
    ensures OpsMove(d, ReconcileUndispatched(d, ev)) && ReconcileUndispatched(d, ev).ops.Keys == d.ops.Keys
  {
  }

  // Operations that begin by being ended have their root ended with them.
  lemma EvidenceKeepsEdges(d: Db, ev: Evidence)
    requires EdgesBegun(d)
    ensures EdgesBegun(ReconcileTerminal(d, ev))
  {
    var d' := ReconcileTerminal(d, ev);
    forall op | op in d'.ops ensures EdgeBegun(d', op) { assert EdgeBegun(d, op); }
  }

  lemma UndispatchedKeepsEdges(d: Db, ev: Evidence)
    requires EdgesBegun(d)
    ensures EdgesBegun(ReconcileUndispatched(d, ev))
  {
    var d' := ReconcileUndispatched(d, ev);
    forall op | op in d'.ops ensures EdgeBegun(d', op) { assert EdgeBegun(d, op); }
  }

  lemma MovedKeepsGood(w: World, d': Db)
    requires Good(w) && Settles(w.db, d') && StagesAgree(d')
    requires OpsMove(w.db, d') && d'.ops.Keys == w.db.ops.Keys && EdgesBegun(d')
    ensures Good(w.(db := d'))
  {
    hide Lane, Filed, OpsMove, EdgesBegun, SlotInvariant;
    SettlesKeeps(w.db, d');
    assert DbMoves(w.db, d');
    DbKeepsLane(w, d');
    assert JobResults.RowsMove(w.db, d');
    SameRowsFiled(w.db, d');
  }

  // The boot's recovery steps keep every invariant that the events keep, as if
  // each were one: the runs of the next process start from such a world.
  lemma RecoveryKeepsGood(w: World, ev: Evidence)
    requires Good(w)
    ensures Good(w.(db := Recovered(w.db, ev)))
  {
    hide Good, ReconcileTerminal, ReconcileUndispatched;
    var w1 := Step(w, StartupReconcile);
    StepKeepsGood(w, StartupReconcile);
    assert StagesAgree(w1.db) && EdgesBegun(w1.db) by { GoodParts(w1); }
    var d2 := ReconcileTerminal(w1.db, ev);
    EvidenceSettles(w1.db, ev);
    EvidenceMoves(w1.db, ev);
    EvidenceKeepsEdges(w1.db, ev);
    MovedKeepsGood(w1, d2);
    UndispatchedSettles(d2, ev);
    UndispatchedMoves(d2, ev);
    UndispatchedKeepsEdges(d2, ev);
    MovedKeepsGood(w1.(db := d2), ReconcileUndispatched(d2, ev));
  }

  lemma EvidenceRests(d: Db, ev: Evidence)
    ensures JobResults.RestsExcept(d, ReconcileTerminal(d, ev), {})
  {
  }

  lemma UndispatchedRests(d: Db, ev: Evidence)
    ensures JobResults.RestsExcept(d, ReconcileUndispatched(d, ev), {})
  {
  }

  // Jobs stay with their roots, too.
  lemma RecoveryKeepsPlaced(d: Db, ev: Evidence, parents: map<Id, Id>)
    requires StagesAgree(d) && JobResults.AllPlaced(d, parents)
    ensures JobResults.AllPlaced(Recovered(d, ev), parents)
  {
    hide ReconcileTerminal, ReconcileUndispatched, ReconcileInFlight, JobResults.AllPlaced, JobResults.RestsExcept;
    var d1 := ReconcileInFlight(d);
    var d2 := ReconcileTerminal(d1, ev);
    var d3 := ReconcileUndispatched(d2, ev);
    ReconcileSettles(d);
    EvidenceSettles(d1, ev);
    UndispatchedSettles(d2, ev);
    JobResults.ReconcileRests(d);
    EvidenceRests(d1, ev);
    UndispatchedRests(d2, ev);
    RestsPlaced(d, d1, parents);
    RestsPlaced(d1, d2, parents);
    RestsPlaced(d2, d3, parents);
  }

  lemma RestsPlaced(d: Db, d': Db, parents: map<Id, Id>)
    requires Settles(d, d') && JobResults.AllPlaced(d, parents) && JobResults.RestsExcept(d, d', {})
    ensures JobResults.AllPlaced(d', parents)
  {
    JobResults.OthersStayPlaced(d, d', parents, {});
  }

  lemma GoodParts(w: World)
    requires Good(w)
    ensures StagesAgree(w.db) && EdgesBegun(w.db)
  {
  }

  // The boot, as the server runs it on its tables before it accepts work.
  class Server {
    var db: Db
    var evidence: Evidence

    constructor (db: Db, evidence: Evidence)
      ensures this.db == db && this.evidence == evidence
    {
      this.db := db;
      this.evidence := evidence;
    }

    // The three recovery steps of bootstrap, and the counts it logs.
    method Bootstrap() returns (inFlight: nat, ended: nat)
      modifies this`db
      ensures db == Recovered(old(db), evidence)
      ensures forall k :: k in old(db).roots ==> k in db.roots && !InFlight(db.roots[k].state)
      ensures forall k :: k in old(db).roots && Active(old(db).roots[k].state) ==>
                (Terminal(db.roots[k].state) <==>
                    CompleteEvidence(old(db), evidence, k) || NeverStarted(old(db), evidence, k))
      // An explained root ends as its workflow did, and its open operations with it.
      ensures forall k :: k in old(db).roots && CompleteEvidence(old(db), evidence, k) ==>
                db.roots[k].state == evidence.workflows[k.id].status
      ensures forall k :: k in old(db).roots && NeverStarted(old(db), evidence, k) ==>
                CompleteEvidence(old(db), evidence, k) || db.roots[k].state.Failed?
      ensures forall op :: op in old(db).ops && !Terminal(old(db).ops[op].state)
                           && CompleteEvidence(old(db), evidence, old(db).ops[op].root) ==>
                op in db.ops && db.ops[op].state == evidence.workflows[old(db).ops[op].root.id].status
      ensures inFlight == |set k | k in old(db).roots && InFlight(old(db).roots[k].state)|
      ensures ended == |set k | k in old(db).roots && CompleteEvidence(old(db), evidence, k)|
    {
      ghost var d := db;
      inFlight := |set k | k in db.roots && InFlight(db.roots[k].state)|;
      db := ReconcileInFlight(db);
      ended := |set k | k in db.roots && ProvenTerminal(db, evidence, k)|;
      assert (set k | k in db.roots && ProvenTerminal(db, evidence, k))
             == (set k | k in d.roots && CompleteEvidence(d, evidence, k)) by {
        forall k ensures ProvenTerminal(db, evidence, k) <==> CompleteEvidence(d, evidence, k) {
          EvidenceBeforeBoot(d, evidence, k);
        }
      }
      db := ReconcileTerminal(db, evidence);
      db := ReconcileUndispatched(db, evidence);
      forall k | k in d.roots
        ensures k in db.roots && !InFlight(db.roots[k].state)
        ensures Active(d.roots[k].state) ==>
                  (Terminal(db.roots[k].state) <==> CompleteEvidence(d, evidence, k) || NeverStarted(d, evidence, k))
        ensures CompleteEvidence(d, evidence, k) ==> db.roots[k].state == evidence.workflows[k.id].status
        ensures NeverStarted(d, evidence, k) ==> CompleteEvidence(d, evidence, k) || db.roots[k].state.Failed?
      {
        NothingInFlight(d, evidence, k);
        BootedRoot(d, evidence, k);
      }
      forall op | op in d.ops && !Terminal(d.ops[op].state) && CompleteEvidence(d, evidence, d.ops[op].root)
        ensures op in db.ops && db.ops[op].state == evidence.workflows[d.ops[op].root.id].status
      {
        BootedOp(d, evidence, op);
      }
    }
  }
}
