/**
 Where operations are filed, and what that means for edge workflows: their lane
 gives out the same permit again, so their start frame can be written again.
 */
module EdgeLane {
  import opened Json
  import opened Ledger
  import opened Protocol
  import opened DeviceSlot
  import opened PermitLane
  import Authorisation
  import JobResults

  // ---- Operations stay under their roots ------------------------------------

  // An operation is on its root's device, and under a job root or an edge root
  // there is only the root's own operation.
  predicate Filed(d: Db) {
    forall op :: op in d.ops ==>
      && d.ops[op].root in d.roots && d.roots[d.ops[op].root].device == d.ops[op].device
      && (d.ops[op].root.ServerRoot? || op == RootOperation(d.ops[op].root))
  }

  lemma UpsertKeepsFiled(d: Db, op: OpKey, root: RootKey, child: Option<bool>, envelope: Option<Value>)
    requires Filed(d) && root in d.roots && (root.ServerRoot? || op == RootOperation(root))
    ensures Filed(UpsertOp(d, op, root, child, envelope))
  {
  }

  lemma CommitKeepsFiled(d: Db, key: RootKey, op: OpKey, decision: Decision)
    requires Filed(d) && key in d.roots && op in d.ops
    ensures Filed(Commit(d, key, op, decision).db)
  {
    var d' := Commit(d, key, op, decision).db;
    forall o | o in d'.ops
      ensures o in d.ops && d'.ops[o].root == d.ops[o].root && d'.ops[o].device == d.ops[o].device
    {
    }
    forall k | k in d.roots ensures k in d'.roots && d'.roots[k].device == d.roots[k].device {}
  }

  lemma PrepareJobKeepsFiled(d: Db, device: Id, job: Id, parent: Option<Id>, envelope: Value)
    requires Filed(d)
    ensures Filed(PrepareJob(d, device, job, parent, envelope).db)
  {
    var key, op := JobRootKey(job, parent), JobOp(job);
    var d1 := AdmitRoot(d, key, device);
    UpsertKeepsFiled(d1, op, key, Some(parent.Some?), Some(envelope));
    var d2 := UpsertOp(d1, op, key, Some(parent.Some?), Some(envelope));
    CommitKeepsFiled(d2, key, op, JobDecision(d2, device, key, op, parent.Some?));
  }

  lemma PrepareEdgeKeepsFiled(d: Db, device: Id, workflow: Id, envelope: Value)
    requires Filed(d)
    ensures Filed(PrepareEdge(d, device, workflow, envelope).db)
  {
    var key, op := EdgeRoot(workflow), WorkflowOp(workflow);
    var d1 := AdmitRoot(d, key, device);
    UpsertKeepsFiled(d1, op, key, Some(false), Some(envelope));
    var d2 := UpsertOp(d1, op, key, Some(false), Some(envelope));
    CommitKeepsFiled(d2, key, op, EdgeDecision(d2, device, key));
  }

  predicate Files(e: Event) { e.Admit? || e.PrepareJobSend? || e.PrepareEdgeSend? }

  lemma StepKeepsRows(w: World, e: Event)
    requires !Files(e)
    ensures Step(w, e).db.ops.Keys == w.db.ops.Keys && Step(w, e).db.roots.Keys == w.db.roots.Keys
  {
    match e
    case Complete(call) =>
      if call in w.calls && w.calls[call].progress.Egressed? {
        CompleteKeepsRows(w.db, w.calls[call], w.calls[call].progress.sent);
      }
    case LoseWaiter(job, timeout) =>
      var permit := Pending(w, job);
      if permit.Some? && LossConfirmed(w.db, permit.value, timeout) {
        ConfirmLossKeepsRows(w.db, permit.value, timeout);
      }
    case Resolve(root, to, done) => RecoveryKeepsRows(w.db, root, to, done);
    case StartupReconcile => RecoveryKeepsRows(w.db, JobRoot(""), Failed, {});
    case Corrupt(root, generation, op) => CorruptKeepsRows(w.db, root, generation, op);
    case _ =>
  }

  lemma RecoveryKeepsRows(d: Db, root: RootKey, to: State, done: set<OpKey>)
    ensures ResolveRoot(d, root, to, done).ops.Keys == d.ops.Keys == ReconcileInFlight(d).ops.Keys
    ensures ResolveRoot(d, root, to, done).roots.Keys == d.roots.Keys == ReconcileInFlight(d).roots.Keys
  {
  }

  lemma CorruptKeepsRows(d: Db, root: RootKey, generation: nat, op: Id)
    ensures MarkCorrupt(d, root, generation, op).ops.Keys == d.ops.Keys
    ensures MarkCorrupt(d, root, generation, op).roots.Keys == d.roots.Keys
  {
  }

  lemma CompleteKeepsRows(d: Db, c: Call, sent: bool)
    ensures CompleteJob(d, c, sent).ops.Keys == d.ops.Keys == CompleteEdge(d, c, sent).ops.Keys
    ensures CompleteJob(d, c, sent).roots.Keys == d.roots.Keys == CompleteEdge(d, c, sent).roots.Keys
  {
  }

  lemma ConfirmLossKeepsRows(d: Db, h: Handle, timeout: bool)
    requires LossConfirmed(d, h, timeout)
    ensures ConfirmLoss(d, h, timeout).ops.Keys == d.ops.Keys && ConfirmLoss(d, h, timeout).roots.Keys == d.roots.Keys
  {
  }

  lemma SameRowsFiled(d: Db, d': Db)
    requires Filed(d) && OpsMove(d, d') && d'.ops.Keys == d.ops.Keys && JobResults.RowsMove(d, d')
    ensures Filed(d')
  {
  }

  lemma StepKeepsFiled(w: World, e: Event)
    requires Filed(w.db) && StagesAgree(w.db)
    ensures Filed(Step(w, e).db)
  {
    match e
    case Admit(root, device) => UpsertKeepsFiled(AdmitRoot(w.db, root, device), RootOperation(root), root, None, None);
    case PrepareJobSend(call, device, job, parent, envelope) =>
      PrepareJobKeepsFiled(w.db, device, job, parent, envelope);
    case PrepareEdgeSend(call, device, workflow, envelope) => PrepareEdgeKeepsFiled(w.db, device, workflow, envelope);
    case _ =>
      StepMovesOps(w, e);
      StepKeepsRows(w, e);
      JobResults.StepMovesRows(w, e);
      SameRowsFiled(w.db, Step(w, e).db);
  }

  // ---- Edge operations begin with their roots -------------------------------

  // A workflow's operation that has begun has its root out of the queue, and
  // while that is in flight, its owner generation.
  predicate EdgeBegun(d: Db, op: OpKey)
    requires op in d.ops
  {
    var o := d.ops[op];
    op.WorkflowOp? && o.root.EdgeRoot? && !o.state.Initial? ==>
      && o.root in d.roots && !d.roots[o.root].state.Initial?
      && (InFlight(d.roots[o.root].state) ==> d.roots[o.root].generation == o.generation)
  }

  predicate EdgesBegun(d: Db) {
    forall op :: op in d.ops ==> EdgeBegun(d, op)
  }

  // No workflow's operation begins but `moved`.
  predicate NoneBegins(d: Db, d': Db, moved: set<OpKey>) {
    forall op :: op in d'.ops && op.WorkflowOp? && op !in moved && !d'.ops[op].state.Initial? ==>
      op in d.ops && !d.ops[op].state.Initial?
  }

  lemma CommitBeginsOne(d: Db, d2: Db, key: RootKey, op: OpKey, decision: Decision)
    requires NoneBegins(d, d2, {op}) && key in d2.roots && op in d2.ops
    ensures NoneBegins(d, Commit(d2, key, op, decision).db, {op})
  {
  }

  lemma PrepareJobBegins(d: Db, device: Id, job: Id, parent: Option<Id>, envelope: Value)
    ensures NoneBegins(d, PrepareJob(d, device, job, parent, envelope).db, {})
  {
    var key, op := JobRootKey(job, parent), JobOp(job);
    var d1 := AdmitRoot(d, key, device);
    if (key in d.roots || parent.None?) && d1.roots[key].device == device {
      var d2 := UpsertOp(d1, op, key, Some(parent.Some?), Some(envelope));
      CommitBeginsOne(d, d2, key, op, JobDecision(d2, device, key, op, parent.Some?));
    }
  }

  lemma PrepareEdgeBegins(d: Db, device: Id, workflow: Id, envelope: Value)
    ensures NoneBegins(d, PrepareEdge(d, device, workflow, envelope).db, {WorkflowOp(workflow)})
  {
    var key, op := EdgeRoot(workflow), WorkflowOp(workflow);
    var d1 := AdmitRoot(d, key, device);
    var r := d1.roots[key];
    if r.device == device && !Terminal(r.state) && !Manual(r.state) {
      var d2 := UpsertOp(d1, op, key, Some(false), Some(envelope));
      CommitBeginsOne(d, d2, key, op, EdgeDecision(d2, device, key));
    }
  }

  lemma CompleteBeginsNone(d: Db, c: Call, sent: bool)
    ensures NoneBegins(d, CompleteJob(d, c, sent), {}) && NoneBegins(d, CompleteEdge(d, c, sent), {})
  {
  }

  lemma ConfirmLossBeginsNone(d: Db, h: Handle, timeout: bool)
    requires LossConfirmed(d, h, timeout)
    ensures NoneBegins(d, ConfirmLoss(d, h, timeout), {})
  {
  }

  lemma ReconcileBeginsNone(d: Db)
    ensures NoneBegins(d, ReconcileInFlight(d), {})
  {
  }

  // The operation an event may begin.
  function Begins(e: Event): set<OpKey> {
    match e
    case PrepareEdgeSend(_, _, workflow, _) => {WorkflowOp(workflow)}
    case _ => {}
  }

  lemma SendBegins(w: World, e: Event)
    requires e.PrepareJobSend? || e.PrepareEdgeSend? || e.Complete?
    ensures NoneBegins(w.db, Step(w, e).db, Begins(e))
  {
    hide PrepareJob, PrepareEdge, CompleteJob, CompleteEdge;
    match e
    case PrepareJobSend(call, device, job, parent, envelope) => PrepareJobBegins(w.db, device, job, parent, envelope);
    case PrepareEdgeSend(call, device, workflow, envelope) => PrepareEdgeBegins(w.db, device, workflow, envelope);
    case Complete(call) =>
      if call in w.calls && w.calls[call].progress.Egressed? {
        CompleteBeginsNone(w.db, w.calls[call], w.calls[call].progress.sent);
      }
  }

  lemma StepBegins(w: World, e: Event)
    requires !e.Resolve?
    ensures NoneBegins(w.db, Step(w, e).db, Begins(e))
  {
    hide PrepareJob, PrepareEdge, CompleteJob, CompleteEdge, ConfirmLoss, ReconcileInFlight;
    match e
    case PrepareJobSend(_, _, _, _, _) => SendBegins(w, e);
    case PrepareEdgeSend(_, _, _, _) => SendBegins(w, e);
    case Complete(_) => SendBegins(w, e);
    case LoseWaiter(job, timeout) =>
      var permit := Pending(w, job);
      if permit.Some? && LossConfirmed(w.db, permit.value, timeout) {
        ConfirmLossBeginsNone(w.db, permit.value, timeout);
      }
    case StartupReconcile => ReconcileBeginsNone(w.db);
    case _ =>
  }

  // What has begun stays as it should.
  lemma BegunStays(d: Db, d': Db, op: OpKey)
    requires EdgesBegun(d) && OpsMove(d, d') && JobResults.RowsMove(d, d')
    requires op in d.ops && !d.ops[op].state.Initial?
    ensures op in d'.ops && EdgeBegun(d', op)
  {
    assert OpMoves(d.ops[op], d'.ops[op]) && EdgeBegun(d, op);
  }

  lemma CommitBeginsEdge(d: Db, key: RootKey, op: OpKey, decision: Decision)
    requires key in d.roots && op in d.ops && EdgeBegun(d, op)
    requires d.ops[op].root.EdgeRoot? ==> d.ops[op].root == key
    requires decision.Authorised? ==> !Terminal(d.roots[key].state) && !Manual(d.roots[key].state)
    ensures EdgeBegun(Commit(d, key, op, decision).db, op)
  {
  }

  lemma UpsertEdge(d: Db, device: Id, workflow: Id, envelope: Value)
    requires Filed(d) && EdgesBegun(d)
    ensures var key, op := EdgeRoot(workflow), WorkflowOp(workflow);
            var d2 := UpsertOp(AdmitRoot(d, key, device), op, key, Some(false), Some(envelope));
            EdgeBegun(d2, op) && (d2.ops[op].root.EdgeRoot? ==> d2.ops[op].root == key)
  {
    var op := WorkflowOp(workflow);
    assert op in d.ops ==> EdgeBegun(d, op) && d.ops[op].root in d.roots;
  }

  lemma PrepareEdgeBegun(d: Db, device: Id, workflow: Id, envelope: Value)
    requires Filed(d) && EdgesBegun(d)
    ensures var d', op := PrepareEdge(d, device, workflow, envelope).db, WorkflowOp(workflow);
            op in d'.ops ==> EdgeBegun(d', op)
  {
    var key, op := EdgeRoot(workflow), WorkflowOp(workflow);
    var d1 := AdmitRoot(d, key, device);
    var r := d1.roots[key];
    if r.device == device && !Terminal(r.state) && !Manual(r.state) {
      UpsertEdge(d, device, workflow, envelope);
      var d2 := UpsertOp(d1, op, key, Some(false), Some(envelope));
      CommitBeginsEdge(d2, key, op, EdgeDecision(d2, device, key));
    } else if op in d.ops {
      assert EdgeBegun(d, op);
    }
  }

  lemma ResolveKeepsEdges(d: Db, root: RootKey, to: State, done: set<OpKey>)
    requires EdgesBegun(d)
    ensures EdgesBegun(ResolveRoot(d, root, to, done))
  {
    var d' := ResolveRoot(d, root, to, done);
    forall op | op in d'.ops ensures EdgeBegun(d', op) { assert op in d.ops && EdgeBegun(d, op); }
  }

  lemma StepKeepsEdges(w: World, e: Event)
    requires Filed(w.db) && EdgesBegun(w.db) && StagesAgree(w.db)
    ensures EdgesBegun(Step(w, e).db)
  {
    var d, d' := w.db, Step(w, e).db;
    if e.Resolve? {
      ResolveKeepsEdges(d, e.root, e.to, e.done);
    } else {
      StepMovesOps(w, e);
      JobResults.StepMovesRows(w, e);
      StepBegins(w, e);
      if e.PrepareEdgeSend? { PrepareEdgeBegun(d, e.device, e.workflow, e.envelope); }
      forall op | op in d'.ops ensures EdgeBegun(d', op) {
        if op in d.ops && !d.ops[op].state.Initial? { BegunStays(d, d', op); }
      }
    }
  }

  // Workflow frames are start frames of edge workflows.
  predicate EdgeFrames(w: World) {
    forall i :: 0 <= i < |w.frames| && w.frames[i].handle.op.WorkflowOp? ==> w.frames[i].handle.root.EdgeRoot?
  }

  lemma StepKeepsEdgeFrames(w: World, e: Event)
    requires EdgeFrames(w)
    ensures EdgeFrames(Step(w, e))
  {
  }

  // ---- What all runs keep ---------------------------------------------------

  ghost predicate Good(w: World) {
    SlotInvariant(w.db) && Lane(w) && Filed(w.db) && EdgesBegun(w.db) && EdgeFrames(w)
  }

  lemma StepKeepsGood(w: World, e: Event)
    requires Good(w)
    ensures Good(Step(w, e))
  {
    StepKeepsSlots(w, e);
    StepKeepsLane(w, e);
    StepKeepsFiled(w, e);
    StepKeepsEdges(w, e);
    StepKeepsEdgeFrames(w, e);
  }

  lemma {:induction false} RunKeepsGood(w: World, events: seq<Event>)
    requires Good(w)
    ensures Good(Run(w, events))
    decreases |events|
  {
    if events != [] {
      StepKeepsGood(w, events[0]);
      RunKeepsGood(Step(w, events[0]), events[1..]);
    }
  }

  // ---- A start frame is written again ---------------------------------------

  predicate InFlightOn(d: Db, device: Id, key: RootKey) {
    key in d.roots && d.roots[key].device == device && InFlight(d.roots[key].state)
  }

  // The lane knows no "sent already": while the root is in flight it hands out the permit it handed out before.
  lemma EdgePermitAgain(d: Db, device: Id, workflow: Id, envelope: Value)
    requires SlotInvariant(d) && Filed(d) && EdgesBegun(d)
    requires var op := WorkflowOp(workflow);
             op in d.ops && d.ops[op].root == EdgeRoot(workflow) && !d.ops[op].state.Initial?
    ensures PrepareEdge(d, device, workflow, envelope).permit
            == if InFlightOn(d, device, EdgeRoot(workflow)) then Some(OpHandle(d, WorkflowOp(workflow))) else None
  {
    var key, op := EdgeRoot(workflow), WorkflowOp(workflow);
    assert EdgeBegun(d, op);
    assert Coherent(d.roots[key]);
  }

  // One more send of the workflow, and nothing else.
  function SendAgain(call: Id, device: Id, workflow: Id, envelope: Value, online: bool): seq<Event> {
    [PrepareEdgeSend(call, device, workflow, envelope)] + ([Egress(call, online)] + [])
  }

  lemma SendAgainWrites(w: World, call: Id, device: Id, workflow: Id, envelope: Value, online: bool)
    requires call !in w.calls
    ensures var permit := PrepareEdge(w.db, device, workflow, envelope).permit;
            Run(w, SendAgain(call, device, workflow, envelope, online)).frames
            == w.frames + if permit.Some? && online && permit.value.root.EdgeRoot?
                          then [Frame(permit.value, w.epoch)] else []
  {
    var e := PrepareEdgeSend(call, device, workflow, envelope);
    RunFrom(w, e, [Egress(call, online)] + []);
    RunFrom(Step(w, e), Egress(call, online), []);
    PrepareEdgePermits(w.db, device, workflow, envelope);
  }

  // Over every run: once a start frame has been written, one more send writes the
  // same frame again exactly when the device is online and the workflow's root is
  // still in flight on it.
  lemma EdgeFrameWrittenAgain(blocksQueued: bool, events: seq<Event>, i: nat, call: Id, device: Id, envelope: Value,
                              online: bool)
    requires var w := Run(Empty(blocksQueued), events);
             i < |w.frames| && w.frames[i].handle.op.WorkflowOp? && call !in w.calls
    ensures var w := Run(Empty(blocksQueued), events);
            var h := w.frames[i].handle;
            Run(w, SendAgain(call, device, h.op.id, envelope, online)).frames
            == w.frames + if online && InFlightOn(w.db, device, h.root) then [Frame(h, w.epoch)] else []
  {
    RunKeepsGood(Empty(blocksQueued), events);
    var w := Run(Empty(blocksQueued), events);
    var h := w.frames[i].handle;
    assert Held(w.db, h) && h.root == EdgeRoot(h.op.id);
    EdgePermitAgain(w.db, device, h.op.id, envelope);
    SendAgainWrites(w, call, device, h.op.id, envelope, online);
  }
}
