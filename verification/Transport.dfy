/**
 The transport's send methods and queue pump, as methods that change the world
 while other things happen between their awaits.
 */
module Transport {
  import opened Json
  import opened Ledger
  import opened Protocol
  import opened DeviceSlot
  import opened PermitLane
  import opened EdgeLane
  import Authorisation
  import JobResults
  import Replay

  // ---- What else happens ----------------------------------------------------

  // An event of somebody else while the process lives.
  predicate Foreign(call: Id, e: Event) {
    match e
    case Crash => false
    case PrepareJobSend(c, _, _, _, _) => c != call
    case PrepareEdgeSend(c, _, _, _) => c != call
    case Egress(c, _) => c != call
    case Complete(c) => c != call
    case Finish(c) => c != call
    case _ => true
  }

  // One turn of the pump: whether the device is online at the loop's test and at
  // the wire write, and what happens during each await.
  datatype Round = Round(online: bool, query: seq<Event>, authorise: seq<Event>, write: seq<Event>,
                         connected: bool, settle: seq<Event>, finish: seq<Event>)

  predicate ForeignGap(call: Id, gap: seq<Event>) {
    forall e :: e in gap ==> Foreign(call, e)
  }

  predicate ForeignRound(call: Id, r: Round) {
    && ForeignGap(call, r.query) && ForeignGap(call, r.authorise) && ForeignGap(call, r.write)
    && ForeignGap(call, r.settle) && ForeignGap(call, r.finish)
  }

  // Nothing is admitted: no enqueue, and no send that could admit implicitly.
  predicate QuietGap(gap: seq<Event>) {
    forall e :: e in gap ==> !e.Admit? && !e.PrepareJobSend? && !e.PrepareEdgeSend?
  }

  predicate QuietRound(r: Round) {
    QuietGap(r.query) && QuietGap(r.authorise) && QuietGap(r.write) && QuietGap(r.settle) && QuietGap(r.finish)
  }

  // Nothing else happens in this turn.
  predicate Alone(r: Round) {
    r.query == [] && r.authorise == [] && r.write == [] && r.settle == [] && r.finish == []
  }

  // ---- What stays through other events --------------------------------------

  // A root row some time later.
  predicate Later(r: Root, s: Root) {
    s.device == r.device && s.fifo == r.fifo && r.generation <= s.generation && Rank(r.state) <= Rank(s.state)
  }

  // The world some time later in the same process.
  predicate Onward(w: World, w': World) {
    && w'.epoch == w.epoch && w.frames <= w'.frames
    && (forall k :: k in w.db.roots ==> k in w'.db.roots && Later(w.db.roots[k], w'.db.roots[k]))
    && OpsMove(w.db, w'.db)
  }

  lemma OnwardReflexive(w: World)
    ensures Onward(w, w)
  {
  }

  lemma OnwardTransitive(w: World, w1: World, w2: World)
    requires Onward(w, w1) && Onward(w1, w2)
    ensures Onward(w, w2)
  {
  }

  lemma StepOnward(w: World, e: Event)
    requires Good(w) && !e.Crash?
    ensures Onward(w, Step(w, e))
  {
    StepMovesOps(w, e);
    JobResults.StepMovesRows(w, e);
    assert forall k :: k in w.db.roots ==> Moves(w.db.roots[k], Step(w, e).db.roots[k]);
    StepGrowsWire(w, e);
  }

  lemma StepGrowsWire(w: World, e: Event)
    requires !e.Crash?
    ensures Step(w, e).epoch == w.epoch && w.frames <= Step(w, e).frames
  {
  }

  predicate SameCall(w: World, w': World, call: Id) {
    (call in w'.calls <==> call in w.calls) && (call in w.calls ==> w'.calls[call] == w.calls[call])
  }

  lemma ForeignKeepsCall(w: World, e: Event, call: Id)
    requires Foreign(call, e)
    ensures SameCall(w, Step(w, e), call)
  {
  }

  lemma EventKeeps(w: World, e: Event, call: Id)
    requires Good(w) && Foreign(call, e)
    ensures Good(Step(w, e)) && Onward(w, Step(w, e)) && SameCall(w, Step(w, e), call)
    ensures !Files(e) ==> Step(w, e).db.roots.Keys == w.db.roots.Keys
  {
    StepKeepsGood(w, e);
    StepOnward(w, e);
    ForeignKeepsCall(w, e, call);
    if !Files(e) { StepKeepsRows(w, e); }
  }

  // A gap of other events: time passes, the waiting send's own entry stays.
  lemma {:induction false} GapKeeps(w: World, gap: seq<Event>, call: Id)
    requires Good(w) && ForeignGap(call, gap)
    ensures Good(Run(w, gap)) && Onward(w, Run(w, gap)) && SameCall(w, Run(w, gap), call)
    ensures QuietGap(gap) ==> Run(w, gap).db.roots.Keys == w.db.roots.Keys
    decreases |gap|
  {
    hide Good, Onward, Step;
    if gap != [] {
      var e, w1 := gap[0], Step(w, gap[0]);
      assert e in gap && forall x :: x in gap[1..] ==> x in gap;
      EventKeeps(w, e, call);
      GapKeeps(w1, gap[1..], call);
      OnwardTransitive(w, w1, Run(w, gap));
    } else {
      OnwardReflexive(w);
    }
  }

  // ---- The steps of one send ------------------------------------------------

  lemma CommitTakesSlot(d: Db, key: RootKey, op: OpKey, decision: Decision)
    requires key in d.roots && op in d.ops && Coherent(d.roots[key])
    requires decision.Authorised? ==> !Terminal(d.roots[key].state) && !Manual(d.roots[key].state)
    ensures var p := Commit(d, key, op, decision);
            p.permit.Some? ==> && key in p.db.roots && InFlight(p.db.roots[key].state)
                               && !p.db.roots[key].state.Claimed?
                               && p.db.roots[key].device == d.roots[key].device && p.permit.value.root == d.ops[op].root
  {
  }

  // A job permit is granted with its root in flight on the device asked for.
  lemma JobPermitTakesSlot(d: Db, device: Id, job: Id, parent: Option<Id>, envelope: Value)
    requires StagesAgree(d)
    ensures var key, p := JobRootKey(job, parent), PrepareJob(d, device, job, parent, envelope);
            p.permit.Some? ==>
              && key in p.db.roots && p.db.roots[key].device == device && InFlight(p.db.roots[key].state)
              && (JobOp(job) in d.ops ==> p.permit.value.root == d.ops[JobOp(job)].root)
  {
    var key, op := JobRootKey(job, parent), JobOp(job);
    var d1 := AdmitRoot(d, key, device);
    AdmitAdvances(d, key, device);
    if (key in d.roots || parent.None?) && d1.roots[key].device == device {
      var d2 := UpsertOp(d1, op, key, Some(parent.Some?), Some(envelope));
      assert Coherent(d2.roots[key]);
      CommitTakesSlot(d2, key, op, JobDecision(d2, device, key, op, parent.Some?));
    }
  }

  lemma EdgePermitTakesSlot(d: Db, device: Id, workflow: Id, envelope: Value)
    requires StagesAgree(d)
    ensures var key, p := EdgeRoot(workflow), PrepareEdge(d, device, workflow, envelope);
            p.permit.Some? ==>
              && key in p.db.roots && p.db.roots[key].device == device
              && InFlight(p.db.roots[key].state) && !p.db.roots[key].state.Claimed?
              && (WorkflowOp(workflow) in d.ops ==> p.permit.value.root == d.ops[WorkflowOp(workflow)].root)
  {
    var key, op := EdgeRoot(workflow), WorkflowOp(workflow);
    var d1 := AdmitRoot(d, key, device);
    AdmitAdvances(d, key, device);
    var r := d1.roots[key];
    if r.device == device && !Terminal(r.state) && !Manual(r.state) {
      var d2 := UpsertOp(d1, op, key, Some(false), Some(envelope));
      assert Coherent(d2.roots[key]);
      var decision := EdgeDecision(d2, device, key);
      assert PrepareEdge(d, device, workflow, envelope) == Commit(d2, key, op, decision);
      CommitTakesSlot(d2, key, op, decision);
    }
  }

  lemma EdgePermitRoot(w: World, h: Handle)
    requires Filed(w.db) && Held(w.db, h) && h.root.EdgeRoot? && h.op.WorkflowOp?
    ensures h.root == EdgeRoot(h.op.id)
  {
  }

  // What a first transaction of the edge lane leaves behind, call and rows.
  lemma EdgeAuthorisation(w: World, call: Id, device: Id, workflow: Id, envelope: Value)
    requires Good(w) && call !in w.calls
    ensures var w', permit := Step(w, PrepareEdgeSend(call, device, workflow, envelope)),
                              PrepareEdge(w.db, device, workflow, envelope).permit;
            && (permit.Some? <==> call in w'.calls)
            && (permit.Some? ==>
                  && Holds(w', call, permit.value) && permit.value.op == WorkflowOp(workflow)
                  && Taken(w'.db, device, EdgeRoot(workflow)) && EdgeCall(w', call, device, EdgeRoot(workflow)))
  {
    var e := PrepareEdgeSend(call, device, workflow, envelope);
    EdgePermitTakesSlot(w.db, device, workflow, envelope);
    PrepareEdgePermits(w.db, device, workflow, envelope);
    StepKeepsSlots(w, e);
    StepKeepsFiled(w, e);
    var permit := PrepareEdge(w.db, device, workflow, envelope).permit;
    if permit.Some? && permit.value.root.EdgeRoot? { EdgePermitRoot(Step(w, e), permit.value); }
  }

  lemma JobAuthorisation(w: World, call: Id, device: Id, job: Id, parent: Option<Id>, envelope: Value)
    requires Good(w) && call !in w.calls
    ensures var w', permit := Step(w, PrepareJobSend(call, device, job, parent, envelope)),
                              PrepareJob(w.db, device, job, parent, envelope).permit;
            && (permit.Some? <==> call in w'.calls)
            && (permit.Some? ==>
                  && Holds(w', call, permit.value) && permit.value.op == JobOp(job) && w'.calls[call].device == device
                  && Taken(w'.db, device, JobRootKey(job, parent))
                  && InFlight(w'.db.roots[JobRootKey(job, parent)].state)
                  && Begun(w'.db, JobRootKey(job, parent), permit.value, parent.Some?)
                  && w'.calls[call].child == parent.Some?)
  {
    JobPermitBegins(w.db, device, job, parent, envelope);
    JobPermitTakesSlot(w.db, device, job, parent, envelope);
    PrepareJobPermits(w.db, device, job, parent, envelope);
    StepKeepsSlots(w, PrepareJobSend(call, device, job, parent, envelope));
  }

  // Root and operation are dispatching under the permit, or a child's root is past that.
  predicate Begun(d: Db, key: RootKey, h: Handle, child: bool) {
    && key in d.roots && h.op in d.ops && Held(d, h)
    && d.roots[key].generation == h.generation && d.ops[h.op].state.Dispatching?
    && (d.roots[key].state.Dispatching? || (child && d.roots[key].state.Dispatched?))
  }

  lemma CommitBegins(d: Db, key: RootKey, op: OpKey, decision: Decision, child: bool)
    requires key in d.roots && op in d.ops && Coherent(d.roots[key])
    requires decision.Authorised? ==>
               && !Terminal(d.roots[key].state) && !Manual(d.roots[key].state) && d.ops[op].state.Initial?
               && (RootDispatched(d.roots[key]) ==> child)
    ensures var p := Commit(d, key, op, decision); p.permit.Some? ==> Begun(p.db, key, p.permit.value, child)
  {
  }

  lemma JobPermitBegins(d: Db, device: Id, job: Id, parent: Option<Id>, envelope: Value)
    requires StagesAgree(d)
    ensures var p := PrepareJob(d, device, job, parent, envelope);
            p.permit.Some? ==> Begun(p.db, JobRootKey(job, parent), p.permit.value, parent.Some?)
  {
    var key, op := JobRootKey(job, parent), JobOp(job);
    var d1 := AdmitRoot(d, key, device);
    AdmitAdvances(d, key, device);
    if (key in d.roots || parent.None?) && d1.roots[key].device == device {
      var d2 := UpsertOp(d1, op, key, Some(parent.Some?), Some(envelope));
      assert Coherent(d2.roots[key]);
      CommitBegins(d2, key, op, JobDecision(d2, device, key, op, parent.Some?), parent.Some?);
    }
  }

  // Where an undisturbed send of a job leaves its rows: both dispatched when the
  // frame was written; otherwise the operation is blocked and the root fails
  // closed, and does not go back to the queue.
  predicate LeftSettled(d: Db, key: RootKey, op: OpKey, sent: bool) {
    && key in d.roots && op in d.ops
    && (if sent then d.roots[key].state.Dispatched? && d.ops[op].state.Dispatched?
        else Manual(d.roots[key].state) && d.ops[op].state.Blocked?)
  }

  lemma CompletedJobSettles(w: World, call: Id, key: RootKey)
    requires StagesAgree(w.db) && Filed(w.db) && call in w.calls && w.calls[call].progress.Egressed?
    requires var c := w.calls[call];
             && c.handle.op.JobOp? && c.handle.root == key && Begun(w.db, key, c.handle, c.child)
             && w.db.roots[key].device == c.device
    ensures LeftSettled(Step(w, Complete(call)).db, key, w.calls[call].handle.op, w.calls[call].progress.sent)
  {
    var c := w.calls[call];
    assert w.db.ops[c.handle.op].root == key && Coherent(w.db.roots[key]);
  }

  // A written frame is the newest on the wire.
  lemma EgressOwn(w: World, call: Id, online: bool)
    requires call in w.calls && w.calls[call].progress.Permitted?
    ensures var w', c := Step(w, Egress(call, online)), w.calls[call];
            && call in w'.calls && w'.calls[call].progress.Egressed?
            && w'.calls[call] == c.(progress := w'.calls[call].progress)
            && w'.frames == w.frames + (if w'.calls[call].progress.sent then [Frame(c.handle, w.epoch)] else [])
            && (w'.calls[call].progress.sent <==> Writes(w, c.handle, online))
            && (c.handle.op.JobOp? && Registers(w, c.handle) ==> HasWaiter(w', c.handle))
            && w'.db == w.db
  {
  }

  lemma CompleteOwn(w: World, call: Id)
    requires call in w.calls && w.calls[call].progress.Egressed?
    ensures var w', c := Step(w, Complete(call)), w.calls[call];
            w'.calls == w.calls[call := c.(progress := Settled(c.progress.sent))] && w'.frames == w.frames
  {
  }

  // A job send that wrote nothing returns with no waiter under its permit and no frame of its job.
  lemma FinishOwn(w: World, call: Id)
    requires Lane(w) && call in w.calls && w.calls[call].progress.Settled?
    ensures var w', c := Step(w, Finish(call)), w.calls[call];
            && call !in w'.calls && w'.frames == w.frames && w'.db == w.db
            && (c.handle.op.JobOp? && !c.progress.sent ==>
                  Pending(w', c.handle.op.id) != Some(c.handle)
                  && forall i :: 0 <= i < |w'.frames| ==> w'.frames[i].handle.op != c.handle.op)
  {
  }

  // ---- One device at a time -------------------------------------------------

  predicate SameElsewhere(d: Db, d': Db, device: Id) {
    forall k :: k in d.roots && d.roots[k].device != device ==> k in d'.roots && d'.roots[k] == d.roots[k]
  }

  lemma CommitElsewhere(d: Db, d2: Db, device: Id, key: RootKey, op: OpKey, decision: Decision)
    requires SameElsewhere(d, d2, device) && key in d2.roots && d2.roots[key].device == device && op in d2.ops
    requires key in d.roots ==> d.roots[key].device == device
    ensures SameElsewhere(d, Commit(d2, key, op, decision).db, device)
  {
  }

  lemma PrepareJobElsewhere(d: Db, device: Id, job: Id, parent: Option<Id>, envelope: Value)
    ensures SameElsewhere(d, PrepareJob(d, device, job, parent, envelope).db, device)
  {
    var key, op := JobRootKey(job, parent), JobOp(job);
    var d1 := AdmitRoot(d, key, device);
    if (key in d.roots || parent.None?) && d1.roots[key].device == device {
      var d2 := UpsertOp(d1, op, key, Some(parent.Some?), Some(envelope));
      CommitElsewhere(d, d2, device, key, op, JobDecision(d2, device, key, op, parent.Some?));
    }
  }

  lemma PrepareEdgeElsewhere(d: Db, device: Id, workflow: Id, envelope: Value)
    ensures SameElsewhere(d, PrepareEdge(d, device, workflow, envelope).db, device)
  {
  }

  // A first transaction writes rows of its device only, and adds its own root at most.
  lemma EdgeAuthorisationElsewhere(w: World, call: Id, device: Id, workflow: Id, envelope: Value)
    requires StagesAgree(w.db) && call !in w.calls
    ensures var d' := Step(w, PrepareEdgeSend(call, device, workflow, envelope)).db;
            && SameElsewhere(w.db, d', device)
            && (EdgeRoot(workflow) in w.db.roots ==> d'.roots.Keys == w.db.roots.Keys)
  {
    hide SameElsewhere, PrepareEdge;
    PrepareEdgeElsewhere(w.db, device, workflow, envelope);
    PrepareEdgeAdvances(w.db, device, workflow, envelope);
  }

  lemma JobAuthorisationElsewhere(w: World, call: Id, device: Id, job: Id, parent: Option<Id>, envelope: Value)
    requires StagesAgree(w.db) && call !in w.calls
    ensures var d' := Step(w, PrepareJobSend(call, device, job, parent, envelope)).db;
            && SameElsewhere(w.db, d', device)
            && (JobRootKey(job, parent) in w.db.roots ==> d'.roots.Keys == w.db.roots.Keys)
  {
    hide SameElsewhere, PrepareJob;
    PrepareJobElsewhere(w.db, device, job, parent, envelope);
    PrepareJobAdvances(w.db, device, job, parent, envelope);
  }

  // The events a send makes itself.
  predicate Own(w: World, device: Id, e: Event) {
    match e
    case PrepareJobSend(_, to, _, _, _) => to == device
    case PrepareEdgeSend(_, to, _, _) => to == device
    case Egress(_, _) => true
    case Complete(call) =>
      call in w.calls ==>
        var c := w.calls[call];
        c.device == device
        && (c.handle.op.WorkflowOp? && c.progress.Egressed? && c.progress.sent ==>
              c.handle.root in w.db.roots && w.db.roots[c.handle.root].device == device)
    case Finish(_) => true
    case Corrupt(root, _, _) => root in w.db.roots ==> w.db.roots[root].device == device
    case _ => false
  }

  // What a send of one device does never changes a root of another.
  lemma OwnStepElsewhere(w: World, device: Id, e: Event)
    requires Own(w, device, e)
    ensures SameElsewhere(w.db, Step(w, e).db, device)
  {
    match e
    case PrepareJobSend(call, _, job, parent, envelope) => PrepareJobElsewhere(w.db, device, job, parent, envelope);
    case PrepareEdgeSend(call, _, workflow, envelope) => PrepareEdgeElsewhere(w.db, device, workflow, envelope);
    case Complete(call) =>
      if call in w.calls && w.calls[call].progress.Egressed? {
        CompleteElsewhere(w.db, w.calls[call], w.calls[call].progress.sent);
      }
    case _ =>
  }

  lemma CompleteElsewhere(d: Db, c: Call, sent: bool)
    ensures SameElsewhere(d, CompleteJob(d, c, sent), c.device)
    ensures (sent ==> c.handle.root in d.roots && d.roots[c.handle.root].device == c.device)
            ==> SameElsewhere(d, CompleteEdge(d, c, sent), c.device)
  {
  }

  // A send that wrote its frame leaves a root it found in the slot there.
  lemma CompleteKeepsSlot(d: Db, c: Call, device: Id, key: RootKey)
    requires InFlightOn(d, device, key)
    ensures ActiveOn(CompleteJob(d, c, true), device, key)
  {
  }

  lemma JobClosesAlone(w: World, call: Id, device: Id, key: RootKey)
    requires StagesAgree(w.db) && Filed(w.db) && call in w.calls && w.calls[call].progress.Egressed?
    requires key in w.db.roots && w.db.roots[key].device == device && InFlight(w.db.roots[key].state)
    requires var c := w.calls[call]; c.device == device && c.handle.op.JobOp? && Begun(w.db, key, c.handle, c.child)
    ensures var d', c := Step(w, Complete(call)).db, w.calls[call];
            && SameElsewhere(w.db, d', device) && (c.progress.sent ==> ActiveOn(d', device, key))
            && (c.handle.root == key ==> LeftSettled(d', key, c.handle.op, c.progress.sent))
  {
    OwnStepElsewhere(w, device, Complete(call));
    if w.calls[call].progress.sent { CompleteKeepsSlot(w.db, w.calls[call], device, key); }
    if w.calls[call].handle.root == key { CompletedJobSettles(w, call, key); }
  }

  // A running send of an edge workflow, its root `key` in flight.
  predicate EdgeCall(w: World, call: Id, device: Id, key: RootKey) {
    && call in w.calls && w.calls[call].device == device && w.calls[call].handle.op.WorkflowOp?
    && Held(w.db, w.calls[call].handle)
    && (w.calls[call].handle.root.EdgeRoot? ==> w.calls[call].handle.root == key)
    && key.EdgeRoot? && InFlightOn(w.db, device, key) && !w.db.roots[key].state.Claimed?
  }

  // Where an undisturbed send of an edge workflow leaves its root.
  predicate EdgeLeft(d: Db, device: Id, key: RootKey, sent: bool) {
    && key in d.roots && d.roots[key].device == device
    && (if sent then d.roots[key].state.Dispatched? else Manual(d.roots[key].state))
  }

  // An edge workflow's root is dispatched once its frame was written, and fails
  // closed when it was not.
  lemma EdgeClosesAlone(w: World, call: Id, device: Id, key: RootKey)
    requires EdgesBegun(w.db) && EdgeCall(w, call, device, key) && w.calls[call].progress.Egressed?
    requires w.calls[call].progress.sent ==> w.calls[call].handle.root.EdgeRoot?
    ensures var d', c := Step(w, Complete(call)).db, w.calls[call];
            && SameElsewhere(w.db, d', device)
            && (c.handle.root == key ==> EdgeLeft(d', device, key, c.progress.sent))
            && (c.handle.root == key ==>
                  c.handle.op in d'.ops
                  && match w.db.ops[c.handle.op].state
                     case Dispatching =>
                       if c.progress.sent then d'.ops[c.handle.op].state.Dispatched?
                       else d'.ops[c.handle.op].state.Blocked?
                     case Dispatched =>
                       if c.progress.sent then d'.ops[c.handle.op].state.Dispatched?
                       else d'.ops[c.handle.op].state.Reconciling?
                     case _ => true)
  {
    OwnStepElsewhere(w, device, Complete(call));
    var c := w.calls[call];
    assert EdgeBegun(w.db, c.handle.op);
    if c.handle.root == key && !c.progress.sent {
      assert Step(w, Complete(call)).db == BlockOp(BlockRoot(w.db, key), c.handle.op);
    }
  }

  predicate Holds(w: World, call: Id, h: Handle) {
    call in w.calls && w.calls[call].handle == h && w.calls[call].progress.Permitted?
  }

  // The root has had the slot of its device.
  predicate Taken(d: Db, device: Id, key: RootKey) {
    key in d.roots && d.roots[key].device == device && d.roots[key].generation > 0 && !d.roots[key].state.Initial?
  }

  lemma TakenStays(w: World, w': World, device: Id, key: RootKey)
    requires Onward(w, w') && Taken(w.db, device, key)
    ensures Taken(w'.db, device, key)
  {
  }

  // ---- Runs in two parts ----------------------------------------------------

  lemma {:induction false} RunAppend(w: World, a: seq<Event>, b: seq<Event>)
    ensures Run(w, a + b) == Run(Run(w, a), b)
    decreases |a|
  {
    if a == [] {
      assert a + b == b;
    } else {
      assert (a + b)[1..] == a[1..] + b;
      RunAppend(Step(w, a[0]), a[1..], b);
    }
  }

  lemma RunOne(w: World, e: Event)
    ensures Run(w, [e]) == Step(w, e)
  {
  }

  // The events of one send after its first transaction, in order: its own and those of its gaps.
  function WriteTrace(granted: bool, call: Id, r: Round): seq<Event> {
    if granted then r.write + [Egress(call, r.connected)] + r.settle else []
  }

  function CloseTrace(granted: bool, call: Id, r: Round): seq<Event> {
    if granted then [Complete(call)] + r.finish + [Finish(call)] else []
  }

  lemma Regroup(a: seq<Event>, b: seq<Event>, c: seq<Event>, d: seq<Event>)
    ensures a + b + c + d == a + (b + c + d)
  {
  }

  // The events of a whole send, decided by the permit it is given, if any.
  function JobEvents(w: World, call: Id, device: Id, job: Id, parent: Option<Id>, envelope: Value,
                     r: Round): seq<Event>
  {
    var granted := PrepareJob(w.db, device, job, parent, envelope).permit.Some?;
    [PrepareJobSend(call, device, job, parent, envelope)] + WriteTrace(granted, call, r) + CloseTrace(granted, call, r)
  }

  function EdgeEvents(w: World, call: Id, device: Id, workflow: Id, envelope: Value, r: Round): seq<Event> {
    var granted := PrepareEdge(w.db, device, workflow, envelope).permit.Some?;
    [PrepareEdgeSend(call, device, workflow, envelope)] + WriteTrace(granted, call, r) + CloseTrace(granted, call, r)
  }

  // A send under a permit writes its frame: the socket takes it, and no other
  // waiter holds the job. `w` is the world at the write.
  predicate Writes(w: World, h: Handle, online: bool) {
    online && if h.op.JobOp? then Registers(w, h) && !h.root.EdgeRoot? else h.root.EdgeRoot?
  }

  // A whole send writes its frame.
  predicate JobSent(w: World, call: Id, device: Id, job: Id, parent: Option<Id>, envelope: Value, r: Round) {
    var permit := PrepareJob(w.db, device, job, parent, envelope).permit;
    && permit.Some?
    && Writes(Run(Step(w, PrepareJobSend(call, device, job, parent, envelope)), r.write), permit.value, r.connected)
  }

  predicate EdgeSent(w: World, device: Id, workflow: Id, envelope: Value, r: Round) {
    var permit := PrepareEdge(w.db, device, workflow, envelope).permit;
    permit.Some? && r.connected && permit.value.root.EdgeRoot?
  }

  // ---- The queue's head -----------------------------------------------------

  // Queued roots appear once for each of their operations.
  predicate QueueRow(d: Db, device: Id, op: OpKey) {
    op in d.ops && QueuedOn(d, device, d.ops[op].root)
  }

  // A first row in FIFO order; of several operations of one root, any may come first.
  predicate HeadRow(d: Db, device: Id, op: OpKey) {
    QueueRow(d, device, op)
    && forall o | o in d.ops ::
         QueueRow(d, device, o) ==> d.roots[d.ops[op].root].fifo <= d.roots[d.ops[o].root].fifo
  }

  lemma {:induction false} FirstRow(d: Db, device: Id, rows: set<OpKey>) returns (first: OpKey)
    requires rows != {} && forall o :: o in rows ==> QueueRow(d, device, o)
    ensures first in rows && QueueRow(d, device, first)
    ensures forall o :: o in rows ==>
              QueueRow(d, device, o) && d.roots[d.ops[first].root].fifo <= d.roots[d.ops[o].root].fifo
  {
    first :| first in rows;
    if rows != {first} {
      var other := FirstRow(d, device, rows - {first});
      if d.roots[d.ops[other].root].fifo < d.roots[d.ops[first].root].fifo { first := other; }
    }
  }

  lemma HeadExists(d: Db, device: Id, op: OpKey)
    requires QueueRow(d, device, op)
    ensures exists o | o in d.ops :: HeadRow(d, device, o)
  {
    var rows := set o | o in d.ops && QueueRow(d, device, o);
    assert op in rows;
    var first := FirstRow(d, device, rows);
    assert HeadRow(d, device, first);
  }

  function Kind(root: RootKey): string {
    match root
    case JobRoot(_) => "job"
    case ServerRoot(_) => "server_workflow"
    case EdgeRoot(_) => "edge_workflow"
  }

  // The boundaries of child jobs are those whose root is a server workflow.
  function Parent(root: RootKey): Option<Id> {
    if root.ServerRoot? then Some(root.id) else None
  }

  datatype Head = Head(root: RootKey, generation: nat, op: OpKey, envelope: Option<Value>)

  predicate IsHead(d: Db, device: Id, head: Head) {
    HeadRow(d, device, head.op) && head.root == d.ops[head.op].root
    && head.generation == d.roots[head.root].generation && head.envelope == d.ops[head.op].envelope
  }

  predicate ReplaysJob(device: Id, head: Head) {
    head.op.JobOp? && head.envelope.Some?
    && Replay.IsJobEnvelope(head.envelope.value, Replay.Identity(device, Kind(head.root), head.root.id, head.op.id))
  }

  predicate ReplaysEdge(device: Id, head: Head) {
    head.op.WorkflowOp? && head.envelope.Some?
    && Replay.IsEdgeEnvelope(head.envelope.value, Replay.Identity(device, Kind(head.root), head.root.id, head.op.id))
  }

  // How one turn of the pump ends.
  datatype Outcome = NoHead | CorruptHead(root: RootKey) | Unsent(root: RootKey) | Sent(root: RootKey) | WentOffline

  // What a turn does with its head: a whole send through the lane of its envelope, or the corrupt mark.
  function AttemptEvents(w: World, device: Id, call: Id, head: Head, r: Round): seq<Event> {
    if ReplaysJob(device, head) then JobEvents(w, call, device, head.op.id, Parent(head.root), head.envelope.value, r)
    else if ReplaysEdge(device, head) then EdgeEvents(w, call, device, head.op.id, head.envelope.value, r)
    else [Corrupt(head.root, head.generation, head.op.id)]
  }

  function AttemptOutcome(w: World, device: Id, call: Id, head: Head, r: Round): Outcome {
    if !ReplaysJob(device, head) && !ReplaysEdge(device, head) then CorruptHead(head.root)
    else if (if ReplaysJob(device, head)
             then JobSent(w, call, device, head.op.id, Parent(head.root), head.envelope.value, r)
             else EdgeSent(w, device, head.op.id, head.envelope.value, r))
    then Sent(head.root)
    else Unsent(head.root)
  }

  // What the head query may answer: any first row, and nothing only if there is none.
  ghost predicate Seen(d: Db, device: Id, row: Option<Head>) {
    match row
    case None => forall o :: !QueueRow(d, device, o)
    case Some(head) => IsHead(d, device, head)
  }

  // One turn, given what its head query answered.
  function TurnOutcome(w: World, device: Id, call: Id, r: Round, row: Option<Head>): Outcome {
    match row
    case None => NoHead
    case Some(head) => AttemptOutcome(Run(Run(w, r.query), r.authorise), device, call, head, r)
  }

  function TurnWorld(w: World, device: Id, call: Id, r: Round, row: Option<Head>): World {
    match row
    case None => Run(w, r.query)
    case Some(head) =>
      var w1 := Run(Run(w, r.query), r.authorise);
      Run(w1, AttemptEvents(w1, device, call, head, r))
  }

  // From `w` to `w'` by one turn that saw `row` and ended this way.
  ghost predicate Turned(w: World, w': World, device: Id, call: Id, r: Round, row: Option<Head>, outcome: Outcome) {
    && Onward(w, w') && Seen(Run(w, r.query).db, device, row)
    && outcome == TurnOutcome(w, device, call, r, row) && w' == TurnWorld(w, device, call, r, row)
  }

  // The turns of a pump, one after the other.
  function AfterTurns(w: World, device: Id, call: Id, env: nat -> Round, rows: seq<Option<Head>>): World
    decreases |rows|
  {
    if rows == [] then w
    else
      var n := |rows| - 1;
      TurnWorld(AfterTurns(w, device, call, env, rows[..n]), device, call, env(n), rows[n])
  }

  // Turn `n` was made online, on what its query saw, and ended this way.
  ghost predicate TurnEnds(w: World, device: Id, call: Id, env: nat -> Round, rows: seq<Option<Head>>, n: nat,
                           outcome: Outcome)
    requires n < |rows|
  {
    var before := AfterTurns(w, device, call, env, rows[..n]);
    && env(n).online && Seen(Run(before, env(n).query).db, device, rows[n])
    && TurnOutcome(before, device, call, env(n), rows[n]) == outcome
  }

  // The first turns sent these roots.
  ghost predicate Sends(w: World, device: Id, call: Id, env: nat -> Round, rows: seq<Option<Head>>,
                        roots: seq<RootKey>)
  {
    && |roots| <= |rows|
    && forall n :: 0 <= n < |roots| ==> TurnEnds(w, device, call, env, rows, n, Sent(roots[n]))
  }

  // A whole pump: turns that send, then one that does not, unless the device goes offline first.
  ghost predicate PumpRun(w: World, device: Id, call: Id, env: nat -> Round, rows: seq<Option<Head>>,
                          roots: seq<RootKey>, outcome: Outcome)
  {
    && Sends(w, device, call, env, rows, roots) && !outcome.Sent?
    && if outcome.WentOffline? then |rows| == |roots| && !env(|rows|).online
       else |rows| == |roots| + 1 && TurnEnds(w, device, call, env, rows, |roots|, outcome)
  }

  lemma TurnAppended(w: World, device: Id, call: Id, env: nat -> Round, rows: seq<Option<Head>>, row: Option<Head>)
    ensures var n, before := |rows|, AfterTurns(w, device, call, env, rows);
            && AfterTurns(w, device, call, env, rows + [row]) == TurnWorld(before, device, call, env(n), row)
            && (env(n).online && Seen(Run(before, env(n).query).db, device, row) ==>
                  TurnEnds(w, device, call, env, rows + [row], n, TurnOutcome(before, device, call, env(n), row)))
  {
    assert (rows + [row])[..|rows|] == rows;
  }

  lemma SendsStay(w: World, device: Id, call: Id, env: nat -> Round, rows: seq<Option<Head>>, roots: seq<RootKey>,
                  row: Option<Head>)
    requires Sends(w, device, call, env, rows, roots)
    ensures Sends(w, device, call, env, rows + [row], roots)
  {
    forall n | 0 <= n < |roots| ensures TurnEnds(w, device, call, env, rows + [row], n, Sent(roots[n])) {
      assert TurnEnds(w, device, call, env, rows, n, Sent(roots[n]));
      assert (rows + [row])[..n] == rows[..n];
    }
  }

  // One more turn, of a pump that has only sent so far.
  lemma PumpGoesOn(w: World, device: Id, call: Id, env: nat -> Round, rows: seq<Option<Head>>, roots: seq<RootKey>,
                   row: Option<Head>)
    requires Sends(w, device, call, env, rows, roots) && |rows| == |roots| && env(|rows|).online
    requires Seen(Run(AfterTurns(w, device, call, env, rows), env(|rows|).query).db, device, row)
    ensures var turn := TurnOutcome(AfterTurns(w, device, call, env, rows), device, call, env(|rows|), row);
            if turn.Sent? then Sends(w, device, call, env, rows + [row], roots + [turn.root])
            else PumpRun(w, device, call, env, rows + [row], roots, turn)
  {
    TurnAppended(w, device, call, env, rows, row);
    SendsStay(w, device, call, env, rows, roots, row);
  }

  // ---- When an undisturbed head is sent

  // The slot is free, the head's root is the oldest in the queue, and its envelope
  // replays: a job's operation is still registered and nobody waits for the job.
  ghost predicate Sendable(w: World, device: Id, head: Head) {
    && NoneActive(w.db, device) && IsOldest(w.db, device, head.root)
    && if ReplaysJob(device, head)
       then head.op in w.db.ops && w.db.ops[head.op].state.Initial? && head.op.id !in w.waiters
       else ReplaysEdge(device, head)
  }

  lemma QueuedEnters(d: Db, device: Id, root: RootKey)
    requires QueuedOn(d, device, root)
    ensures Authorisation.MayEnter(d, device, root) <==> NoneActive(d, device) && IsOldest(d, device, root)
  {
  }

  // A waiter of a registered job has no permit.
  lemma RegisteredNotAwaited(w: World, job: Id)
    requires Lane(w) && JobOp(job) in w.db.ops && w.db.ops[JobOp(job)].state.Initial?
    ensures Pending(w, job).None?
  {
    if Pending(w, job).Some? { WaiterHeld(w, job); }
  }

  // The permit lane authorises a head under its own root.
  lemma JobHeadPermit(w: World, device: Id, head: Head)
    requires Good(w) && IsHead(w.db, device, head) && ReplaysJob(device, head)
    ensures var permit := PrepareJob(w.db, device, head.op.id, Parent(head.root), head.envelope.value).permit;
            && (permit.Some? <==> w.db.ops[head.op].state.Initial? && NoneActive(w.db, device)
                                  && IsOldest(w.db, device, head.root))
            && (permit.Some? ==> permit.value.op == head.op && permit.value.root == head.root && !head.root.EdgeRoot?)
  {
    var job, parent, envelope := head.op.id, Parent(head.root), head.envelope.value;
    HeadRoots(w.db, device, head);
    QueuedEnters(w.db, device, head.root);
    Authorisation.JobAuthorisedIff(w.db, device, job, parent, envelope);
    JobPermitTakesSlot(w.db, device, job, parent, envelope);
    PrepareJobPermits(w.db, device, job, parent, envelope);
  }

  lemma JobHeadSends(w: World, device: Id, call: Id, head: Head, r: Round)
    requires Good(w) && call !in w.calls && Alone(r) && IsHead(w.db, device, head) && ReplaysJob(device, head)
    ensures JobSent(w, call, device, head.op.id, Parent(head.root), head.envelope.value, r) <==>
            r.connected && Sendable(w, device, head)
  {
    JobHeadPermit(w, device, head);
    if w.db.ops[head.op].state.Initial? { RegisteredNotAwaited(w, head.op.id); }
  }

  lemma EdgeHeadSends(w: World, device: Id, head: Head, r: Round)
    requires Good(w) && IsHead(w.db, device, head) && !ReplaysJob(device, head) && ReplaysEdge(device, head)
    ensures EdgeSent(w, device, head.op.id, head.envelope.value, r) <==> r.connected && Sendable(w, device, head)
  {
    HeadRoots(w.db, device, head);
    QueuedEnters(w.db, device, head.root);
    Authorisation.EdgeAuthorisedIff(w.db, device, head.op.id, head.envelope.value);
    EdgePermitTakesSlot(w.db, device, head.op.id, head.envelope.value);
  }

  lemma HeadSends(w: World, device: Id, call: Id, head: Head, r: Round)
    requires Good(w) && call !in w.calls && Alone(r) && IsHead(w.db, device, head)
    ensures AttemptOutcome(w, device, call, head, r).Sent? <==> r.connected && Sendable(w, device, head)
  {
    if ReplaysJob(device, head) { JobHeadSends(w, device, call, head, r); }
    else if ReplaysEdge(device, head) { EdgeHeadSends(w, device, head, r); }
  }

  lemma AloneTurnSends(w: World, device: Id, call: Id, r: Round, row: Option<Head>)
    requires Good(w) && call !in w.calls && Alone(r) && Seen(w.db, device, row)
    ensures TurnOutcome(w, device, call, r, row).Sent? <==>
            r.connected && row.Some? && Sendable(w, device, row.value)
  {
    if row.Some? { HeadSends(w, device, call, row.value, r); }
  }

  // What an undisturbed pump sends, by its first turn alone.
  lemma FirstTurnSends(w: World, device: Id, call: Id, env: nat -> Round, rows: seq<Option<Head>>,
                       roots: seq<RootKey>, outcome: Outcome)
    requires Good(w) && call !in w.calls && AllAlone(env) && PumpRun(w, device, call, env, rows, roots, outcome)
    ensures |roots| > 0 <==> env(0).online && env(0).connected && rows != [] && rows[0].Some?
                             && Sendable(w, device, rows[0].value)
  {
    assert Alone(env(0)) && rows[..0] == [];
    if rows != [] {
      var ends := if |roots| > 0 then Sent(roots[0]) else outcome;
      assert TurnEnds(w, device, call, env, rows, 0, ends);
      AloneTurnSends(w, device, call, env(0), rows[0]);
    }
  }

  // ---- What the corrupt mark does to the queue

  lemma CorruptLeavesQueue(d: Db, device: Id, head: Head)
    requires QueuedOn(d, device, head.root) && d.roots[head.root].generation == head.generation
    ensures Queued(MarkCorrupt(d, head.root, head.generation, head.op.id), device)
            == Queued(d, device) - if d.blocksQueued then {head.root} else {}
  {
    var d' := MarkCorrupt(d, head.root, head.generation, head.op.id);
    CorruptRoots(d, head.root, head.generation, head.op.id);
    assert d'.roots == BlockRoot(d, head.root).roots;
    forall k ensures k in Queued(d', device) <==> k in Queued(d, device) && !(d.blocksQueued && k == head.root) {}
  }

  // A head found under its own root is sent under that root again.
  lemma HeadRoots(d: Db, device: Id, head: Head)
    requires Filed(d) && IsHead(d, device, head)
    ensures ReplaysJob(device, head) ==> JobRootKey(head.op.id, Parent(head.root)) == head.root
    ensures ReplaysEdge(device, head) ==> EdgeRoot(head.op.id) == head.root
  {
  }

  function Queued(d: Db, device: Id): set<RootKey> {
    set k | k in d.roots && QueuedOn(d, device, k)
  }

  lemma QueueShrinks(w: World, w': World, device: Id)
    requires Onward(w, w') && w'.db.roots.Keys == w.db.roots.Keys
    ensures Queued(w'.db, device) <= Queued(w.db, device)
  {
  }

  // A queued root is younger than every root of its device that has had the slot.
  lemma QueuedYounger(d: Db, device: Id, k: RootKey, root: RootKey)
    requires SlotInvariant(d) && Taken(d, device, k) && QueuedOn(d, device, root)
    ensures d.roots[k].fifo < d.roots[root].fifo
  {
    assert !Overtakes(d, root, k);
  }

  ghost predicate YoungestOf(w0: World, w: World, device: Id, root: RootKey) {
    && root in w.db.roots
    && forall k :: Taken(w0.db, device, k) ==> k in w.db.roots && w.db.roots[k].fifo < w.db.roots[root].fifo
  }

  lemma SentYounger(w0: World, asked: World, w: World, device: Id, root: RootKey)
    requires Good(asked) && Onward(w0, asked) && Onward(asked, w) && QueuedOn(asked.db, device, root)
    ensures YoungestOf(w0, w, device, root)
  {
    assert Later(asked.db.roots[root], w.db.roots[root]);
    forall k | Taken(w0.db, device, k) ensures k in w.db.roots && w.db.roots[k].fifo < w.db.roots[root].fifo {
      TakenStays(w0, asked, device, k);
      QueuedYounger(asked.db, device, k, root);
      assert Later(asked.db.roots[k], w.db.roots[k]);
    }
  }

  lemma QueueShrinksTwice(w0: World, w1: World, w2: World, device: Id)
    requires Onward(w0, w1) && Onward(w1, w2)
    requires w1.db.roots.Keys == w0.db.roots.Keys && w2.db.roots.Keys == w1.db.roots.Keys
    ensures Queued(w2.db, device) <= Queued(w1.db, device) <= Queued(w0.db, device)
  {
  }

  // ---- A turn's parts

  lemma EmptyTurn(w: World, w': World, device: Id, call: Id, r: Round)
    requires Onward(w, w') && w' == Run(w, r.query) && Seen(w'.db, device, None)
    ensures Turned(w, w', device, call, r, None, NoHead)
    ensures Alone(r) ==> SameElsewhere(w.db, w'.db, device)
    ensures w'.db.roots.Keys == w.db.roots.Keys ==> Queued(w'.db, device) <= Queued(w.db, device)
  {
    if w'.db.roots.Keys == w.db.roots.Keys { QueueShrinks(w, w', device); }
  }

  lemma ServedTurn(w: World, asked: World, w': World, device: Id, call: Id, r: Round, head: Head, outcome: Outcome)
    requires Onward(w, asked) && asked == Run(w, r.query) && IsHead(asked.db, device, head) && Onward(asked, w')
    requires var w1 := Run(asked, r.authorise);
             && outcome == AttemptOutcome(w1, device, call, head, r)
             && w' == Run(w1, AttemptEvents(w1, device, call, head, r))
    requires Alone(r) ==> SameElsewhere(asked.db, w'.db, device)
    ensures Turned(w, w', device, call, r, Some(head), outcome)
    ensures !outcome.NoHead? && !outcome.WentOffline? && outcome.root == head.root
    ensures Alone(r) ==> SameElsewhere(w.db, w'.db, device)
  {
    OnwardTransitive(w, asked, w');
  }

  lemma ServedSends(w: World, asked: World, w': World, device: Id, head: Head, at: nat)
    requires Good(asked) && Onward(w, asked) && Onward(asked, w') && IsHead(asked.db, device, head)
    requires Carried(asked, w', device, head.root, at)
    ensures Carried(w, w', device, head.root, at) && YoungestOf(w, w', device, head.root)
  {
    SentYounger(w, asked, w', device, head.root);
  }

  lemma ServedQuietly(w: World, asked: World, w': World, device: Id, head: Head)
    requires Onward(w, asked) && Onward(asked, w') && IsHead(asked.db, device, head)
    requires asked.db.roots.Keys == w.db.roots.Keys && w'.db.roots.Keys == asked.db.roots.Keys
    ensures Queued(w'.db, device) <= Queued(w.db, device) && head.root in Queued(w.db, device)
  {
    QueueShrinksTwice(w, asked, w', device);
    assert head.root in Queued(asked.db, device);
  }

  // Roots that had the slot one after the other, oldest first.
  predicate InFifoOrder(w: World, device: Id, roots: seq<RootKey>) {
    && (forall i :: 0 <= i < |roots| ==> Taken(w.db, device, roots[i]))
    && (forall i, j :: 0 <= i < j < |roots| ==> w.db.roots[roots[i]].fifo < w.db.roots[roots[j]].fifo)
  }

  lemma InFifoOrderGrows(w: World, w': World, device: Id, roots: seq<RootKey>, root: RootKey)
    requires InFifoOrder(w, device, roots) && InFifoOrder(w', device, roots) && Taken(w'.db, device, root)
    requires forall k :: Taken(w.db, device, k) ==> k in w'.db.roots && w'.db.roots[k].fifo < w'.db.roots[root].fifo
    ensures InFifoOrder(w', device, roots + [root])
  {
  }

  // A frame of the root was written between the two worlds, in this process, and the root has had the slot.
  predicate Carried(w: World, w': World, device: Id, root: RootKey, at: nat) {
    && Taken(w'.db, device, root) && |w.frames| <= at < |w'.frames|
    && w'.frames[at].handle.root == root && w'.frames[at].epoch == w'.epoch
  }

  // Each root of `roots` has its frame on the wire, in that order, written since `w0`.
  predicate Written(w0: World, w: World, roots: seq<RootKey>, at: seq<nat>) {
    && |at| == |roots|
    && (forall i :: 0 <= i < |at| ==> |w0.frames| <= at[i] < |w.frames| && w.frames[at[i]].handle.root == roots[i])
    && (forall i, j :: 0 <= i < j < |at| ==> at[i] < at[j])
  }

  lemma WrittenGrows(w0: World, w: World, w': World, roots: seq<RootKey>, at: seq<nat>, root: RootKey, index: nat)
    requires Onward(w0, w) && Written(w0, w, roots, at) && Written(w0, w', roots, at)
    requires |w.frames| <= index < |w'.frames| && w'.frames[index].handle.root == root
    ensures Written(w0, w', roots + [root], at + [index])
  {
  }

  // What a pump has done so far.
  predicate Pumped(w0: World, w: World, device: Id, roots: seq<RootKey>, at: seq<nat>) {
    Onward(w0, w) && InFifoOrder(w, device, roots) && Written(w0, w, roots, at)
  }

  lemma PumpedStays(w0: World, w: World, w': World, device: Id, roots: seq<RootKey>, at: seq<nat>)
    requires Pumped(w0, w, device, roots, at) && Onward(w, w')
    ensures Pumped(w0, w', device, roots, at)
  {
  }

  lemma PumpedGrows(w0: World, w: World, w': World, device: Id, roots: seq<RootKey>, at: seq<nat>, root: RootKey,
                    index: nat)
    requires Pumped(w0, w, device, roots, at) && Onward(w, w') && Taken(w'.db, device, root)
    requires |w.frames| <= index < |w'.frames| && w'.frames[index].handle.root == root
    requires forall k :: Taken(w.db, device, k) ==> k in w'.db.roots && w'.db.roots[k].fifo < w'.db.roots[root].fifo
    ensures Pumped(w0, w', device, roots + [root], at + [index])
  {
    PumpedStays(w0, w, w', device, roots, at);
    InFifoOrderGrows(w, w', device, roots, root);
    WrittenGrows(w0, w, w', roots, at, root, index);
  }

  lemma PumpedTurn(w0: World, w: World, w': World, device: Id, roots: seq<RootKey>, at: seq<nat>,
                   turn: Outcome, index: nat)
    requires Pumped(w0, w, device, roots, at) && Onward(w, w')
    requires turn.Sent? ==> Carried(w, w', device, turn.root, index)
    requires turn.Sent? ==> YoungestOf(w, w', device, turn.root)
    ensures if turn.Sent? then Pumped(w0, w', device, roots + [turn.root], at + [index])
            else Pumped(w0, w', device, roots, at)
  {
    if turn.Sent? { PumpedGrows(w0, w, w', device, roots, at, turn.root, index); }
    else { PumpedStays(w0, w, w', device, roots, at); }
  }

  ghost predicate AllAlone(env: nat -> Round) {
    forall n: nat :: Alone(env(n))
  }

  // Where a pump that nothing interferes with stands.
  predicate Calm(d0: Db, d: Db, device: Id, roots: seq<RootKey>, going: bool) {
    && SameElsewhere(d0, d, device) && |roots| <= 1
    && (|roots| == 1 && going ==> ActiveOn(d, device, roots[0]))
  }

  lemma CalmTurn(d0: Db, d: Db, d': Db, device: Id, roots: seq<RootKey>, turn: Outcome)
    requires Calm(d0, d, device, roots, true) && SameElsewhere(d, d', device)
    requires turn.Sent? ==> ActiveOn(d', device, turn.root) && NoneActive(d, device)
    ensures turn.Sent? ==> Calm(d0, d', device, roots + [turn.root], true)
    ensures !turn.Sent? ==> Calm(d0, d', device, roots, false)
  {
  }

  // A turn that sends takes a root out of the queue.
  lemma FewerQueued(d: Db, d': Db, device: Id, turn: Outcome)
    requires Queued(d', device) <= Queued(d, device)
    requires turn.Sent? ==> turn.root in Queued(d, device) && Taken(d', device, turn.root)
    ensures |Queued(d', device)| <= |Queued(d, device)|
    ensures turn.Sent? ==> |Queued(d', device)| < |Queued(d, device)|
  {
    var a, b := Queued(d', device), Queued(d, device);
    assert b == a + (b - a);
    if turn.Sent? { assert turn.root in b - a; }
  }

  ghost predicate NoneActive(d: Db, device: Id) {
    forall a :: !ActiveOn(d, device, a)
  }

  // A pump on its way: it has only sent so far, or its last turn ended it.
  ghost predicate Pumping(w0: World, w: World, device: Id, call: Id, env: nat -> Round, rows: seq<Option<Head>>,
                          roots: seq<RootKey>, at: seq<nat>, ended: Option<Outcome>)
  {
    && Pumped(w0, w, device, roots, at) && w == AfterTurns(w0, device, call, env, rows)
    && (match ended
        case None => |rows| == |roots| && Sends(w0, device, call, env, rows, roots)
        case Some(outcome) => !outcome.WentOffline? && PumpRun(w0, device, call, env, rows, roots, outcome))
    && (AllAlone(env) ==> Calm(w0.db, w.db, device, roots, ended.None?))
  }

  lemma PumpingStarts(w0: World, device: Id, call: Id, env: nat -> Round)
    ensures Pumping(w0, w0, device, call, env, [], [], [], None)
  {
    OnwardReflexive(w0);
  }

  lemma PumpingTurn(w0: World, w: World, w': World, device: Id, call: Id, env: nat -> Round, rows: seq<Option<Head>>,
                    roots: seq<RootKey>, at: seq<nat>, row: Option<Head>, turn: Outcome, index: nat)
    requires Pumping(w0, w, device, call, env, rows, roots, at, None) && env(|rows|).online
    requires AllAlone(env) ==> Good(w) && call !in w.calls
    requires Turned(w, w', device, call, env(|rows|), row, turn)
    requires turn.Sent? ==> Carried(w, w', device, turn.root, index) && YoungestOf(w, w', device, turn.root)
    requires Alone(env(|rows|)) ==> SameElsewhere(w.db, w'.db, device)
                                    && (turn.Sent? ==> ActiveOn(w'.db, device, turn.root))
    ensures if turn.Sent?
            then Pumping(w0, w', device, call, env, rows + [row], roots + [turn.root], at + [index], None)
            else Pumping(w0, w', device, call, env, rows + [row], roots, at, Some(turn))
  {
    TurnAppended(w0, device, call, env, rows, row);
    PumpGoesOn(w0, device, call, env, rows, roots, row);
    PumpedTurn(w0, w, w', device, roots, at, turn, index);
    if AllAlone(env) {
      AloneTurnSends(w, device, call, env(|rows|), row);
      CalmTurn(w0.db, w.db, w'.db, device, roots, turn);
    }
  }

  // What an undisturbed pump has done: it sent its first head exactly when that was
  // sendable and the device connected, and nothing after it.
  ghost predicate PumpedAlone(w0: World, w: World, device: Id, env: nat -> Round, rows: seq<Option<Head>>,
                              roots: seq<RootKey>)
  {
    && SameElsewhere(w0.db, w.db, device) && |roots| <= 1
    && (|roots| == 1 <==> env(0).online && env(0).connected && rows != [] && rows[0].Some?
                          && Sendable(w0, device, rows[0].value))
  }

  lemma PumpingEnds(w0: World, w: World, device: Id, call: Id, env: nat -> Round, rows: seq<Option<Head>>,
                    roots: seq<RootKey>, at: seq<nat>, outcome: Outcome, going: bool)
    requires Good(w0) && call !in w0.calls
    requires Pumping(w0, w, device, call, env, rows, roots, at, if going then None else Some(outcome))
    requires going ==> outcome.WentOffline? && !env(|rows|).online
    ensures PumpRun(w0, device, call, env, rows, roots, outcome) && w == AfterTurns(w0, device, call, env, rows)
    ensures Pumped(w0, w, device, roots, at)
    ensures AllAlone(env) ==> PumpedAlone(w0, w, device, env, rows, roots)
  {
    if AllAlone(env) { FirstTurnSends(w0, device, call, env, rows, roots, outcome); }
  }

  class Transport {
    const blocksQueued: bool
    var world: World
    ghost var history: seq<Event>

    // The world is where the history led.
    ghost predicate Valid()
      reads this
    {
      world == Run(Empty(blocksQueued), history)
    }

    lemma ValidIsGood()
      requires Valid()
      ensures Good(world)
    {
      RunKeepsGood(Empty(blocksQueued), history);
    }

    constructor (blocksQueued: bool)
      ensures Valid() && world == Empty(blocksQueued) && history == []
    {
      this.blocksQueued := blocksQueued;
      world := Empty(blocksQueued);
      history := [];
    }

    // One event of this transport's own.
    method Act(e: Event)
      requires Valid()
      modifies this
      ensures Valid() && world == Step(old(world), e) && history == old(history) + [e]
      ensures !e.Crash? ==> Onward(old(world), world)
    {
      ValidIsGood();
      if !e.Crash? { StepOnward(world, e); }
      RunAppend(Empty(blocksQueued), history, [e]);
      RunOne(world, e);
      world := Step(world, e);
      history := history + [e];
    }

    // Other things happen while this transport waits.
    method Await(gap: seq<Event>, ghost call: Id)
      requires Valid() && ForeignGap(call, gap)
      modifies this
      ensures Valid() && world == Run(old(world), gap) && history == old(history) + gap
      ensures Onward(old(world), world) && SameCall(old(world), world, call)
      ensures QuietGap(gap) ==> world.db.roots.Keys == old(world.db.roots.Keys)
    {
      hide Good, Onward, Step, SameCall;
      ValidIsGood();
      GapKeeps(world, gap, call);
      ghost var start, past := world, history;
      var i := 0;
      while i < |gap|
        invariant 0 <= i <= |gap| && Valid()
        invariant Run(world, gap[i..]) == Run(start, gap)
        invariant history == past + gap[..i]
      {
        assert gap[i..][0] == gap[i] && gap[i..][1..] == gap[i + 1..];
        Act(gap[i]);
        assert gap[..i + 1] == gap[..i] + [gap[i]];
        i := i + 1;
      }
      assert gap[i..] == [] && gap[..i] == gap;
    }

    // Waiter registration and wire write of a send that holds a permit, up to its second transaction.
    method Write(call: Id, r: Round) returns (sent: bool, ghost at: nat)
      requires Valid() && call in world.calls && world.calls[call].progress.Permitted? && ForeignRound(call, r)
      modifies this
      ensures Valid() && Onward(old(world), world)
      ensures history == old(history) + WriteTrace(true, call, r)
      ensures call in world.calls && world.calls[call] == old(world).calls[call].(progress := Egressed(sent))
      ensures sent ==> r.connected && |old(world).frames| <= at < |world.frames|
                       && world.frames[at] == Frame(old(world).calls[call].handle, world.epoch)
      // Exactly when the socket takes it and, for a job, no other waiter holds it by then.
      ensures sent <==> Writes(Run(old(world), r.write), old(world).calls[call].handle, r.connected)
      // And the waiter is there whether the frame is or not, if it could be registered.
      ensures var w, h := Run(old(world), r.write), old(world).calls[call].handle;
              h.op.JobOp? && Registers(w, h) && r.settle == [] ==> HasWaiter(world, h)
      ensures Alone(r) ==> world.db == old(world).db
      ensures QuietRound(r) ==> world.db.roots.Keys == old(world.db.roots.Keys)
    {
      ghost var w0 := world;
      Await(r.write, call);
      ghost var w1 := world;
      EgressOwn(world, call, r.connected);
      StepKeepsRows(world, Egress(call, r.connected));
      at := |world.frames|;
      Act(Egress(call, r.connected));
      OnwardTransitive(w0, w1, world);
      ghost var w2 := world;
      Await(r.settle, call);
      OnwardTransitive(w0, w2, world);
      sent := world.calls[call].progress.sent;
      Regroup(old(history), r.write, [Egress(call, r.connected)], r.settle);
    }

    // Second transaction, and the return of the send.
    method Close(call: Id, r: Round)
      requires Valid() && call in world.calls && world.calls[call].progress.Egressed? && ForeignRound(call, r)
      modifies this
      ensures Valid() && Onward(old(world), world) && call !in world.calls
      ensures history == old(history) + CloseTrace(true, call, r)
      ensures var c := old(world).calls[call];
              c.handle.op.JobOp? && !c.progress.sent ==>
                && Pending(world, c.handle.op.id) != Some(c.handle)
                && forall i :: 0 <= i < |world.frames| ==> world.frames[i].handle.op != c.handle.op
      ensures Alone(r) ==> world.db == Step(old(world), Complete(call)).db
      ensures QuietRound(r) ==> world.db.roots.Keys == old(world.db.roots.Keys)
    {
      hide Onward, Settle, Return, Filed, EdgesBegun, SlotInvariant;
      ghost var w0 := world;
      CompleteOwn(world, call);
      StepKeepsRows(world, Complete(call));
      Act(Complete(call));
      ghost var w1 := world;
      Await(r.finish, call);
      OnwardTransitive(w0, w1, world);
      ghost var w2 := world;
      ValidIsGood();
      FinishOwn(world, call);
      StepKeepsRows(world, Finish(call));
      Act(Finish(call));
      OnwardTransitive(w0, w2, world);
      Regroup(old(history), [Complete(call)], r.finish, [Finish(call)]);
    }

    // First transaction of a job send.
    method AuthoriseJob(call: Id, device: Id, job: Id, parent: Option<Id>, envelope: Value)
      returns (ghost permit: Option<Handle>)
      requires Valid() && call !in world.calls
      modifies this
      ensures Valid() && Onward(old(world), world)
      ensures world == Step(old(world), PrepareJobSend(call, device, job, parent, envelope))
      ensures history == old(history) + [PrepareJobSend(call, device, job, parent, envelope)]
      ensures permit == PrepareJob(old(world).db, device, job, parent, envelope).permit
      ensures permit.Some? <==> call in world.calls
      ensures permit.Some? ==> Holds(world, call, permit.value) && permit.value.op == JobOp(job)
                               && Taken(world.db, device, JobRootKey(job, parent))
                               && InFlight(world.db.roots[JobRootKey(job, parent)].state)
                               && world.calls[call].device == device && world.calls[call].child == parent.Some?
                               && Begun(world.db, JobRootKey(job, parent), permit.value, parent.Some?)
      ensures SameElsewhere(old(world.db), world.db, device)
      ensures JobRootKey(job, parent) in old(world.db.roots) ==> world.db.roots.Keys == old(world.db.roots.Keys)
    {
      assert Good(world) && StagesAgree(world.db) by { ValidIsGood(); }
      hide *;
      JobAuthorisation(world, call, device, job, parent, envelope);
      JobAuthorisationElsewhere(world, call, device, job, parent, envelope);
      permit := PrepareJob(world.db, device, job, parent, envelope).permit;
      Act(PrepareJobSend(call, device, job, parent, envelope));
    }

    method AuthoriseEdge(call: Id, device: Id, workflow: Id, envelope: Value) returns (ghost permit: Option<Handle>)
      requires Valid() && call !in world.calls
      modifies this
      ensures Valid() && Onward(old(world), world)
      ensures history == old(history) + [PrepareEdgeSend(call, device, workflow, envelope)]
      ensures permit == PrepareEdge(old(world).db, device, workflow, envelope).permit
      ensures permit.Some? <==> call in world.calls
      ensures permit.Some? ==> Holds(world, call, permit.value) && permit.value.op == WorkflowOp(workflow)
                               && Taken(world.db, device, EdgeRoot(workflow))
                               && EdgeCall(world, call, device, EdgeRoot(workflow))
      ensures SameElsewhere(old(world.db), world.db, device)
      ensures EdgeRoot(workflow) in old(world.db.roots) ==> world.db.roots.Keys == old(world.db.roots.Keys)
    {
      assert Good(world) && StagesAgree(world.db) by { ValidIsGood(); }
      hide *;
      EdgeAuthorisation(world, call, device, workflow, envelope);
      EdgeAuthorisationElsewhere(world, call, device, workflow, envelope);
      permit := PrepareEdge(world.db, device, workflow, envelope).permit;
      Act(PrepareEdgeSend(call, device, workflow, envelope));
    }

    // The rest of a job send that holds a permit.
    method CarryJob(call: Id, device: Id, ghost key: RootKey, r: Round) returns (sent: bool, ghost at: nat)
      requires Valid() && call in world.calls && world.calls[call].progress.Permitted? && ForeignRound(call, r)
      requires key in world.db.roots && world.db.roots[key].device == device && InFlight(world.db.roots[key].state)
      requires var c := world.calls[call];
               c.device == device && c.handle.op.JobOp? && Begun(world.db, key, c.handle, c.child)
      modifies this
      ensures Valid() && Onward(old(world), world) && call !in world.calls
      ensures history == old(history) + WriteTrace(true, call, r) + CloseTrace(true, call, r)
      ensures sent <==> Writes(Run(old(world), r.write), old(world).calls[call].handle, r.connected)
      ensures var h := old(world).calls[call].handle;
              && (sent ==> |old(world).frames| <= at < |world.frames| && world.frames[at] == Frame(h, world.epoch))
              && (!sent ==> Pending(world, h.op.id) != Some(h)
                            && forall i :: 0 <= i < |world.frames| ==> world.frames[i].handle.op != h.op)
      ensures Alone(r) ==> var h := old(world).calls[call].handle;
                && SameElsewhere(old(world).db, world.db, device) && (sent ==> ActiveOn(world.db, device, key))
                && (h.root == key ==> LeftSettled(world.db, key, h.op, sent))
      ensures QuietRound(r) ==> world.db.roots.Keys == old(world.db.roots.Keys)
    {
      ghost var w0 := world;
      sent, at := Write(call, r);
      ghost var w1 := world;
      if Alone(r) {
        ValidIsGood();
        JobClosesAlone(world, call, device, key);
      }
      Close(call, r);
      OnwardTransitive(w0, w1, world);
    }

    // What a job send returns, and what it leaves: its frame is on the wire, or
    // neither a frame of the job nor a waiter under the permit is there.
    method SendJob(call: Id, device: Id, job: Id, parent: Option<Id>, envelope: Value, r: Round)
      returns (sent: bool, ghost permit: Option<Handle>, ghost at: nat)
      requires Valid() && call !in world.calls && ForeignRound(call, r)
      modifies this
      ensures Valid() && Onward(old(world), world) && call !in world.calls
      ensures permit == PrepareJob(old(world).db, device, job, parent, envelope).permit
      ensures history == old(history) + JobEvents(old(world), call, device, job, parent, envelope, r)
      ensures sent <==> JobSent(old(world), call, device, job, parent, envelope, r)
      ensures sent ==> && |old(world).frames| <= at < |world.frames|
                       && world.frames[at] == Frame(permit.value, world.epoch)
      ensures permit.Some? && !sent ==>
                && Pending(world, job) != permit
                && forall i :: 0 <= i < |world.frames| ==> world.frames[i].handle.op != JobOp(job)
      ensures permit.Some? ==> Taken(world.db, device, JobRootKey(job, parent))
      ensures Alone(r) ==> SameElsewhere(old(world.db), world.db, device)
                           && (sent ==> ActiveOn(world.db, device, JobRootKey(job, parent)))
                           && (permit.Some? && permit.value.root == JobRootKey(job, parent) ==>
                                 LeftSettled(world.db, JobRootKey(job, parent), JobOp(job), sent))
      ensures QuietRound(r) && JobRootKey(job, parent) in old(world.db.roots) ==>
                world.db.roots.Keys == old(world.db.roots.Keys)
    {
      hide Good, Step, LeftSettled;
      ghost var w0, key := world, JobRootKey(job, parent);
      permit := AuthoriseJob(call, device, job, parent, envelope);
      sent, at := false, 0;
      if call in world.calls {
        ghost var w1 := world;
        sent, at := CarryJob(call, device, key, r);
        OnwardTransitive(w0, w1, world);
        TakenStays(w1, world, device, key);
        Regroup(old(history), [PrepareJobSend(call, device, job, parent, envelope)],
                WriteTrace(true, call, r), CloseTrace(true, call, r));
      }
    }

    // The rest of an edge workflow's send that holds a permit.
    method CarryEdge(call: Id, device: Id, ghost key: RootKey, r: Round) returns (sent: bool, ghost at: nat)
      requires Valid() && call in world.calls && world.calls[call].progress.Permitted? && ForeignRound(call, r)
      requires EdgeCall(world, call, device, key)
      modifies this
      ensures Valid() && Onward(old(world), world) && call !in world.calls
      ensures history == old(history) + WriteTrace(true, call, r) + CloseTrace(true, call, r)
      ensures sent <==> r.connected && old(world).calls[call].handle.root.EdgeRoot?
      ensures sent ==> && |old(world).frames| <= at < |world.frames|
                       && world.frames[at] == Frame(old(world).calls[call].handle, world.epoch)
      ensures Alone(r) ==>
                && SameElsewhere(old(world).db, world.db, device)
                && (old(world).calls[call].handle.root == key ==> EdgeLeft(world.db, device, key, sent))
      ensures QuietRound(r) ==> world.db.roots.Keys == old(world.db.roots.Keys)
    {
      ghost var w0 := world;
      sent, at := Write(call, r);
      ghost var w1 := world;
      if Alone(r) {
        assert EdgesBegun(world.db) by { ValidIsGood(); }
        EdgeClosesAlone(world, call, device, key);
      }
      Close(call, r);
      OnwardTransitive(w0, w1, world);
    }

    // The same for an edge workflow: its frame is on the wire exactly when it was
    // given a permit for its own root and the socket took it.
    method SendEdge(call: Id, device: Id, workflow: Id, envelope: Value, r: Round)
      returns (sent: bool, ghost permit: Option<Handle>, ghost at: nat)
      requires Valid() && call !in world.calls && ForeignRound(call, r)
      modifies this
      ensures Valid() && Onward(old(world), world) && call !in world.calls
      ensures permit == PrepareEdge(old(world).db, device, workflow, envelope).permit
      ensures history == old(history) + EdgeEvents(old(world), call, device, workflow, envelope, r)
      ensures sent <==> EdgeSent(old(world), device, workflow, envelope, r)
      ensures sent ==> && |old(world).frames| <= at < |world.frames|
                       && world.frames[at] == Frame(permit.value, world.epoch)
      ensures permit.Some? ==> Taken(world.db, device, EdgeRoot(workflow))
      // Undisturbed, its root is dispatched if the frame was written, and fails closed if not.
      ensures Alone(r) ==>
                && SameElsewhere(old(world.db), world.db, device)
                && (permit.Some? && permit.value.root == EdgeRoot(workflow) ==>
                      EdgeLeft(world.db, device, EdgeRoot(workflow), sent))
      ensures QuietRound(r) && EdgeRoot(workflow) in old(world.db.roots) ==>
                world.db.roots.Keys == old(world.db.roots.Keys)
    {
      ghost var w0, key := world, EdgeRoot(workflow);
      permit := AuthoriseEdge(call, device, workflow, envelope);
      sent, at := false, 0;
      if call in world.calls {
        ghost var w1 := world;
        sent, at := CarryEdge(call, device, key, r);
        OnwardTransitive(w0, w1, world);
        TakenStays(w1, world, device, key);
        Regroup(old(history), [PrepareEdgeSend(call, device, workflow, envelope)],
                WriteTrace(true, call, r), CloseTrace(true, call, r));
      }
    }

    // nextQueuedDispatchEnvelope, up to the check of the envelope.
    method NextHead(device: Id) returns (head: Option<Head>)
      ensures head.Some? ==> IsHead(world.db, device, head.value)
      ensures head.None? ==> forall o :: !QueueRow(world.db, device, o)
    {
      if exists op | op in world.db.ops :: HeadRow(world.db, device, op) {
        var op :| op in world.db.ops && HeadRow(world.db, device, op);
        var o := world.db.ops[op];
        head := Some(Head(o.root, world.db.roots[o.root].generation, op, o.envelope));
      } else {
        head := None;
        forall o ensures !QueueRow(world.db, device, o) {
          if QueueRow(world.db, device, o) { HeadExists(world.db, device, o); }
        }
      }
    }

    // The history since `past`, as a run.
    lemma Since(past: seq<Event>, events: seq<Event>)
      requires Valid() && history == past + events
      ensures world == Run(Run(Empty(blocksQueued), past), events)
    {
      RunAppend(Empty(blocksQueued), past, events);
    }

    // Sends the head through the lane its envelope belongs to, or blocks it.
    method Attempt(device: Id, call: Id, head: Head, r: Round) returns (outcome: Outcome, ghost at: nat)
      requires Valid() && call !in world.calls && ForeignRound(call, r)
      requires head.root in world.db.roots && world.db.roots[head.root].device == device
      requires head.op in world.db.ops && world.db.ops[head.op].root == head.root
      requires ReplaysJob(device, head) ==> JobRootKey(head.op.id, Parent(head.root)) == head.root
      requires ReplaysEdge(device, head) ==> EdgeRoot(head.op.id) == head.root
      modifies this
      ensures Valid() && Onward(old(world), world) && call !in world.calls
      ensures outcome == AttemptOutcome(old(world), device, call, head, r)
      ensures world == Run(old(world), AttemptEvents(old(world), device, call, head, r))
      ensures outcome.Sent? ==> Carried(old(world), world, device, head.root, at)
      // A corrupt head that is still queued leaves the queue where that is configured, and stays its head if not.
      ensures outcome.CorruptHead? && QueuedOn(old(world).db, device, head.root)
              && old(world).db.roots[head.root].generation == head.generation ==>
                Queued(world.db, device)
                == Queued(old(world).db, device) - if old(world).db.blocksQueued then {head.root} else {}
      ensures Alone(r) ==> SameElsewhere(old(world.db), world.db, device)
                           && (outcome.Sent? ==> ActiveOn(world.db, device, head.root))
      ensures QuietRound(r) ==> world.db.roots.Keys == old(world.db.roots.Keys)
    {
      at := 0;
      var sent;
      hide Good, Onward, Step, SameElsewhere;
      ghost var past := history;
      ghost var permit;
      HeadPermit(device, head);
      if ReplaysJob(device, head) {
        sent, permit, at := SendJob(call, device, head.op.id, Parent(head.root), head.envelope.value, r);
        outcome := if sent then Sent(head.root) else Unsent(head.root);
      } else if ReplaysEdge(device, head) {
        sent, permit, at := SendEdge(call, device, head.op.id, head.envelope.value, r);
        outcome := if sent then Sent(head.root) else Unsent(head.root);
      } else {
        Mark(device, head);
        outcome := CorruptHead(head.root);
      }
      Since(past, AttemptEvents(old(world), device, call, head, r));
    }

    // markCorruptQueueHead
    method Mark(device: Id, head: Head)
      requires Valid() && (head.root in world.db.roots ==> world.db.roots[head.root].device == device)
      modifies this
      ensures Valid() && Onward(old(world), world) && world.calls == old(world).calls
      ensures history == old(history) + [Corrupt(head.root, head.generation, head.op.id)]
      ensures QueuedOn(old(world).db, device, head.root)
              && old(world).db.roots[head.root].generation == head.generation ==>
                Queued(world.db, device)
                == Queued(old(world).db, device) - if old(world).db.blocksQueued then {head.root} else {}
      ensures SameElsewhere(old(world).db, world.db, device) && world.db.roots.Keys == old(world).db.roots.Keys
    {
      var e := Corrupt(head.root, head.generation, head.op.id);
      OwnStepElsewhere(world, device, e);
      StepKeepsRows(world, e);
      if QueuedOn(world.db, device, head.root) && world.db.roots[head.root].generation == head.generation {
        CorruptLeavesQueue(world.db, device, head);
      }
      Act(e);
    }

    // A permit for a head names its root.
    lemma HeadPermit(device: Id, head: Head)
      requires Valid() && head.root in world.db.roots && head.op in world.db.ops
      requires world.db.ops[head.op].root == head.root
      requires ReplaysJob(device, head) ==> JobRootKey(head.op.id, Parent(head.root)) == head.root
      requires ReplaysEdge(device, head) ==> EdgeRoot(head.op.id) == head.root
      ensures ReplaysJob(device, head) ==>
                var permit := PrepareJob(world.db, device, head.op.id, Parent(head.root), head.envelope.value).permit;
                permit.Some? ==> permit.value.root == head.root
      ensures ReplaysEdge(device, head) ==>
                var permit := PrepareEdge(world.db, device, head.op.id, head.envelope.value).permit;
                permit.Some? ==> permit.value.root == head.root
    {
      assert StagesAgree(world.db) by { ValidIsGood(); }
      if ReplaysJob(device, head) {
        JobPermitTakesSlot(world.db, device, head.op.id, Parent(head.root), head.envelope.value);
      } else if ReplaysEdge(device, head) {
        EdgePermitTakesSlot(world.db, device, head.op.id, head.envelope.value);
      }
    }

    // A head just found, sent or marked after the gap before its first transaction.
    method Serve(device: Id, call: Id, head: Head, r: Round) returns (outcome: Outcome, ghost at: nat)
      requires Valid() && call !in world.calls && ForeignRound(call, r) && IsHead(world.db, device, head)
      modifies this
      ensures Valid() && Onward(old(world), world) && call !in world.calls
      ensures var w := Run(old(world), r.authorise);
              && outcome == AttemptOutcome(w, device, call, head, r)
              && world == Run(w, AttemptEvents(w, device, call, head, r))
      ensures outcome.Sent? ==> Carried(old(world), world, device, head.root, at)
      ensures outcome.CorruptHead? && r.authorise == [] ==>
                Queued(world.db, device)
                == Queued(old(world).db, device) - if old(world).db.blocksQueued then {head.root} else {}
      ensures Alone(r) ==> SameElsewhere(old(world.db), world.db, device)
                           && (outcome.Sent? ==> ActiveOn(world.db, device, head.root))
      ensures QuietRound(r) ==> world.db.roots.Keys == old(world.db.roots.Keys)
    {
      assert Filed(world.db) by { ValidIsGood(); }
      hide Good, Filed, Onward, Step, SameElsewhere;
      ghost var w0 := world;
      HeadRoots(world.db, device, head);
      Await(r.authorise, call);
      ghost var w1 := world;
      outcome, at := Attempt(device, call, head, r);
      OnwardTransitive(w0, w1, world);
    }

    // One turn of the pump: what the head query saw is sent, marked, or left, and
    // the world is where exactly these events lead.
    method Turn(device: Id, call: Id, r: Round) returns (outcome: Outcome, ghost row: Option<Head>, ghost at: nat)
      requires Valid() && call !in world.calls && ForeignRound(call, r)
      modifies this
      ensures Valid() && call !in world.calls
      ensures Turned(old(world), world, device, call, r, row, outcome)
      ensures outcome.Sent? ==> Carried(old(world), world, device, outcome.root, at)
      // What is sent is younger than every root of the device that has had the slot.
      ensures outcome.Sent? ==> YoungestOf(old(world), world, device, outcome.root)
      ensures outcome.CorruptHead? && r.authorise == [] ==>
                var asked := Run(old(world), r.query).db;
                Queued(world.db, device) == Queued(asked, device) - if asked.blocksQueued then {outcome.root} else {}
      ensures Alone(r) ==> SameElsewhere(old(world.db), world.db, device)
                           && (outcome.Sent? ==> ActiveOn(world.db, device, outcome.root))
      ensures QuietRound(r) ==> Queued(world.db, device) <= Queued(old(world).db, device)
                                && (outcome.Sent? ==> outcome.root in Queued(old(world).db, device))
    {
      hide Good, Run, Onward, Seen, Queued, AttemptOutcome, AttemptEvents, TurnWorld, TurnOutcome, SameElsewhere;
      ghost var w0 := world;
      Await(r.query, call);
      ghost var asked := world;
      at := 0;
      var head := NextHead(device);
      row := head;
      if head.None? {
        EmptyTurn(w0, asked, device, call, r);
        return NoHead, row, at;
      }
      assert Good(asked) by { ValidIsGood(); }
      outcome, at := Serve(device, call, head.value, r);
      ServedTurn(w0, asked, world, device, call, r, head.value, outcome);
      if outcome.Sent? { ServedSends(w0, asked, world, device, head.value, at); }
      if QuietRound(r) { ServedQuietly(w0, asked, world, device, head.value); }
    }

    // Turn `i` of a pump.
    method NextTurn(ghost w0: World, device: Id, call: Id, env: nat -> Round, i: nat,
                    ghost rows: seq<Option<Head>>, ghost roots: seq<RootKey>, ghost at: seq<nat>)
      returns (turn: Outcome, ghost row: Option<Head>, ghost index: nat)
      requires Valid() && call !in world.calls && ForeignRound(call, env(i)) && env(i).online && i == |rows|
      requires Pumping(w0, world, device, call, env, rows, roots, at, None)
      modifies this
      ensures Valid() && call !in world.calls && !turn.WentOffline?
      ensures if turn.Sent?
              then Pumping(w0, world, device, call, env, rows + [row], roots + [turn.root], at + [index], None)
              else Pumping(w0, world, device, call, env, rows + [row], roots, at, Some(turn))
      ensures QuietRound(env(i)) ==>
                && |Queued(world.db, device)| <= |Queued(old(world).db, device)|
                && (turn.Sent? ==> |Queued(world.db, device)| < |Queued(old(world).db, device)|)
    {
      ghost var before := world;
      assert Good(before) by { ValidIsGood(); }
      turn, row, index := Turn(device, call, env(i));
      PumpingTurn(w0, before, world, device, call, env, rows, roots, at, row, turn, index);
      if QuietRound(env(i)) { FewerQueued(before.db, world.db, device, turn); }
    }

    // dispatchQueuedJobsForDevice. `env(n)` is what happens around turn `n`; nothing is
    // enqueued from turn `quietFrom` on, and that is what makes the pump end. `rows` is
    // what its head queries saw.
    method DispatchQueuedJobs(device: Id, call: Id, env: nat -> Round, ghost quietFrom: nat)
      returns (attempted: nat, sent: nat, ghost outcome: Outcome,
               ghost rows: seq<Option<Head>>, ghost roots: seq<RootKey>, ghost at: seq<nat>)
      requires Valid() && call !in world.calls
      requires forall n: nat :: ForeignRound(call, env(n))
      requires forall n: nat :: quietFrom <= n ==> QuietRound(env(n))
      modifies this
      ensures Valid() && call !in world.calls
      // Turn after turn sends its head, and the first that does not, or going offline, is the end.
      ensures PumpRun(old(world), device, call, env, rows, roots, outcome)
      ensures world == AfterTurns(old(world), device, call, env, rows)
      ensures sent == |roots| && attempted == sent + if outcome.Unsent? then 1 else 0
      // The roots had the slot, and their frames went out, oldest first.
      ensures Pumped(old(world), world, device, roots, at)
      // With nothing else happening, it touches no other device, and sends one root at most.
      ensures AllAlone(env) ==> PumpedAlone(old(world), world, device, env, rows, roots)
    {
      hide *;
      ghost var w0 := world;
      assert Good(w0) by { ValidIsGood(); }
      PumpingStarts(w0, device, call, env);
      attempted, sent, rows, roots, at := 0, 0, [], [], [];
      outcome := WentOffline;
      var i, going := 0, true;
      while going && env(i).online
        invariant Valid() && call !in world.calls && i == |rows|
        invariant Pumping(w0, world, device, call, env, rows, roots, at, if going then None else Some(outcome))
        invariant sent == |roots| && attempted == sent + if outcome.Unsent? then 1 else 0
        invariant going ==> outcome.WentOffline?
        decreases if i < quietFrom then quietFrom - i else 0, |Queued(world.db, device)|, if going then 1 else 0
      {
        var turn;
        ghost var row, index;
        turn, row, index := NextTurn(w0, device, call, env, i, rows, roots, at);
        i, rows := i + 1, rows + [row];
        if turn.Sent? {
          sent, attempted := sent + 1, attempted + 1;
          roots, at := roots + [turn.root], at + [index];
        } else {
          attempted := if turn.Unsent? then attempted + 1 else attempted;
          outcome, going := turn, false;
        }
      }
      PumpingEnds(w0, world, device, call, env, rows, roots, at, outcome, going);
    }

    // sweepQueuedJobsForOnlineDevices, over the devices connected when it starts: one
    // whole pump for each of them, in order; `pumps` is what they saw and did.
    method SweepQueuedJobs(devices: seq<Id>, call: Id, env: nat -> nat -> Round, ghost quietFrom: nat)
      returns (attempted: nat, sent: nat, ghost pumps: seq<Pump>)
      requires Valid() && call !in world.calls
      requires forall i: nat, n: nat :: ForeignRound(call, env(i)(n))
      requires forall i: nat, n: nat :: quietFrom <= n ==> QuietRound(env(i)(n))
      modifies this
      ensures Valid() && Onward(old(world), world) && call !in world.calls
      ensures Swept(old(world), world, devices, call, env, pumps)
      ensures sent == TotalSent(pumps) && attempted == sent + TotalUnsent(pumps)
      ensures sent <= attempted <= sent + |devices|
      ensures AllQuiet(env) ==> sent <= |devices| && Untouched(old(world).db, world.db, devices)
    {
      hide *;
      attempted, sent, pumps := 0, 0, [];
      ghost var w0 := world;
      SweepStarts(w0, call, env);
      var i := 0;
      while i < |devices|
        invariant 0 <= i == |pumps| <= |devices| && Valid() && call !in world.calls
        invariant Sweeping(w0, world, devices[..i], call, env, pumps)
        invariant sent == TotalSent(pumps) && attempted == sent + TotalUnsent(pumps)
      {
        ghost var before := world;
        var a, s;
        ghost var outcome, rows, roots, at;
        a, s, outcome, rows, roots, at := DispatchQueuedJobs(devices[i], call, env(i), quietFrom);
        ghost var pump := Pump(before, world, rows, roots, outcome);
        SweepGoesOn(w0, devices[..i], devices[i], call, env, pumps, pump, at);
        attempted, sent, pumps := attempted + a, sent + s, pumps + [pump];
        assert devices[..i + 1] == devices[..i] + [devices[i]];
        i := i + 1;
      }
      assert devices[..i] == devices;
      SweepEnds(w0, world, devices, call, env, pumps);
    }
  }

  // What one pump of a sweep saw and did.
  datatype Pump = Pump(before: World, after: World, rows: seq<Option<Head>>, roots: seq<RootKey>, outcome: Outcome)

  ghost predicate WholePump(device: Id, call: Id, env: nat -> Round, p: Pump) {
    && PumpRun(p.before, device, call, env, p.rows, p.roots, p.outcome)
    && p.after == AfterTurns(p.before, device, call, env, p.rows)
  }

  function LastWorld(w0: World, pumps: seq<Pump>): World {
    if pumps == [] then w0 else pumps[|pumps| - 1].after
  }

  // One whole pump for each device, each starting where the one before it ended.
  ghost predicate Swept(w0: World, w: World, devices: seq<Id>, call: Id, env: nat -> nat -> Round, pumps: seq<Pump>) {
    && |pumps| == |devices| && w == LastWorld(w0, pumps)
    && forall i :: 0 <= i < |pumps| ==>
         WholePump(devices[i], call, env(i), pumps[i]) && pumps[i].before == LastWorld(w0, pumps[..i])
  }

  lemma SweptGrows(w0: World, devices: seq<Id>, device: Id, call: Id, env: nat -> nat -> Round,
                   pumps: seq<Pump>, pump: Pump)
    requires Swept(w0, pump.before, devices, call, env, pumps) && WholePump(device, call, env(|devices|), pump)
    ensures Swept(w0, pump.after, devices + [device], call, env, pumps + [pump])
  {
    var all := pumps + [pump];
    assert all[..|pumps|] == pumps;
    forall i | 0 <= i < |all|
      ensures WholePump((devices + [device])[i], call, env(i), all[i]) && all[i].before == LastWorld(w0, all[..i])
    {
      if i < |pumps| { assert all[..i] == pumps[..i]; }
    }
  }

  // Nothing else happens during the whole sweep.
  ghost predicate AllQuiet(env: nat -> nat -> Round) {
    forall i: nat :: AllAlone(env(i))
  }

  // A sweep on its way.
  ghost predicate Sweeping(w0: World, w: World, devices: seq<Id>, call: Id, env: nat -> nat -> Round,
                           pumps: seq<Pump>)
  {
    && Onward(w0, w) && Swept(w0, w, devices, call, env, pumps)
    && (AllQuiet(env) ==> TotalSent(pumps) <= |devices| && Untouched(w0.db, w.db, devices))
  }

  lemma SweepStarts(w0: World, call: Id, env: nat -> nat -> Round)
    ensures Sweeping(w0, w0, [], call, env, []) && TotalSent([]) == TotalUnsent([]) == 0
  {
    OnwardReflexive(w0);
  }

  lemma SweepGoesOn(w0: World, devices: seq<Id>, device: Id, call: Id, env: nat -> nat -> Round,
                    pumps: seq<Pump>, pump: Pump, at: seq<nat>)
    requires Sweeping(w0, pump.before, devices, call, env, pumps)
    requires PumpRun(pump.before, device, call, env(|devices|), pump.rows, pump.roots, pump.outcome)
    requires pump.after == AfterTurns(pump.before, device, call, env(|devices|), pump.rows)
    requires Pumped(pump.before, pump.after, device, pump.roots, at)
    requires AllAlone(env(|devices|)) ==>
               PumpedAlone(pump.before, pump.after, device, env(|devices|), pump.rows, pump.roots)
    ensures Sweeping(w0, pump.after, devices + [device], call, env, pumps + [pump])
    ensures TotalSent(pumps + [pump]) == TotalSent(pumps) + |pump.roots|
    ensures TotalUnsent(pumps + [pump]) == TotalUnsent(pumps) + if pump.outcome.Unsent? then 1 else 0
  {
    SweptGrows(w0, devices, device, call, env, pumps, pump);
    OnwardTransitive(w0, pump.before, pump.after);
    assert (pumps + [pump])[..|pumps|] == pumps;
    if AllQuiet(env) { UntouchedGrows(w0.db, pump.before.db, pump.after.db, devices, device); }
  }

  lemma SweepEnds(w0: World, w: World, devices: seq<Id>, call: Id, env: nat -> nat -> Round, pumps: seq<Pump>)
    requires Sweeping(w0, w, devices, call, env, pumps)
    ensures Onward(w0, w) && Swept(w0, w, devices, call, env, pumps) && TotalUnsent(pumps) <= |devices|
    ensures AllQuiet(env) ==> TotalSent(pumps) <= |devices| && Untouched(w0.db, w.db, devices)
  {
    UnsentBound(pumps);
  }

  lemma UntouchedGrows(d: Db, d1: Db, d2: Db, devices: seq<Id>, device: Id)
    requires Untouched(d, d1, devices) && SameElsewhere(d1, d2, device)
    ensures Untouched(d, d2, devices + [device])
  {
    forall k | k in d.roots && d.roots[k].device !in devices + [device]
      ensures k in d2.roots && d2.roots[k] == d.roots[k]
    {
      assert d.roots[k].device !in devices && d.roots[k].device != device;
    }
  }

  function TotalSent(pumps: seq<Pump>): nat {
    if pumps == [] then 0 else TotalSent(pumps[..|pumps| - 1]) + |pumps[|pumps| - 1].roots|
  }

  function TotalUnsent(pumps: seq<Pump>): nat {
    if pumps == [] then 0
    else TotalUnsent(pumps[..|pumps| - 1]) + if pumps[|pumps| - 1].outcome.Unsent? then 1 else 0
  }

  lemma UnsentBound(pumps: seq<Pump>)
    ensures TotalUnsent(pumps) <= |pumps|
  {
  }

  // Roots of other devices are as they were.
  predicate Untouched(d: Db, d': Db, devices: seq<Id>) {
    forall k :: k in d.roots && d.roots[k].device !in devices ==> k in d'.roots && d'.roots[k] == d.roots[k]
  }
}
