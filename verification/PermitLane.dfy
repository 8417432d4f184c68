/**
 The permit lane: a job is sent at most once, ever, and its result finds a waiter.

 `Lane` is kept by every event. It ties running calls, frames on the wire and
 waiters to the operation row that authorised them.
 */
module PermitLane {
  import opened Json
  import opened Ledger
  import opened Protocol
  import opened DeviceSlot

  // ---- How one event may change the operations ------------------------------

  predicate OpMoves(o: Operation, p: Operation) {
    && p.root == o.root && p.device == o.device
    && Rank(o.state) <= Rank(p.state)
    && (Terminal(o.state) ==> Terminal(p.state))
    && (!o.state.Initial? ==> p.generation == o.generation)
  }

  predicate OpsMove(d: Db, d': Db) {
    forall op :: op in d.ops ==> op in d'.ops && OpMoves(d.ops[op], d'.ops[op])
  }

  lemma BlockOpMoves(d: Db, op: OpKey)
    ensures OpsMove(d, BlockOp(d, op))
  {
  }

  lemma FinishOpMoves(d: Db, op: OpKey)
    requires op in d.ops
    ensures OpsMove(d, FinishOp(d, op))
  {
  }

  lemma UpsertOpMoves(d: Db, op: OpKey, root: RootKey, child: Option<bool>, envelope: Option<Value>)
    requires root in d.roots
    ensures OpsMove(d, UpsertOp(d, op, root, child, envelope))
    ensures UpsertOp(d, op, root, child, envelope).ops[op].state.Initial? ==> op !in d.ops || d.ops[op].state.Initial?
  {
  }

  // Registering an operation under its root: a new row waits there, one still
  // registered takes over the root's generation, and what was stored first stays;
  // a row of another root is left alone.
  lemma UpsertRegisters(d: Db, op: OpKey, root: RootKey, child: Option<bool>, envelope: Option<Value>)
    requires root in d.roots
    ensures var d', r := UpsertOp(d, op, root, child, envelope), d.roots[root];
            && op in d'.ops && (forall o :: o in d.ops && o != op ==> o in d'.ops && d'.ops[o] == d.ops[o])
            && (op !in d.ops ==> d'.ops[op].state.Initial? && d'.ops[op].root == root && d'.ops[op].device == r.device
                                 && d'.ops[op].envelope == envelope)
            && (op in d.ops && d.ops[op].root != root ==> d' == d)
            && (d'.ops[op].root == root ==>
                  && (d'.ops[op].state.Initial? ==> d'.ops[op].generation == r.generation)
                  && (child.Some? ==> d'.ops[op].child == child.value)
                  && (envelope.Some? ==> d'.ops[op].envelope.Some?))
            && (op in d.ops && d.ops[op].envelope.Some? ==> d'.ops[op].envelope == d.ops[op].envelope)
            && (op in d.ops && !d.ops[op].state.Initial? ==> d'.ops[op].generation == d.ops[op].generation)
  {
  }

  // What a granted permit says about the row behind it.
  predicate Held(d: Db, h: Handle) {
    h.op in d.ops && !d.ops[h.op].state.Initial? && h == OpHandle(d, h.op)
  }

  // Only an authorisation hands out a permit, and it uses up a registered operation.
  lemma CommitMoves(d: Db, d2: Db, key: RootKey, op: OpKey, decision: Decision)
    requires OpsMove(d, d2) && op in d2.ops && key in d2.roots
    ensures var p := Commit(d2, key, op, decision);
            && OpsMove(d, p.db)
            && (p.permit.Some? <==> decision.Authorised?)
            && (p.permit.Some? ==> p.permit.value.op == op && Held(p.db, p.permit.value))
  {
  }

  // A job permit goes to a registered operation only.
  lemma PrepareJobPermits(d: Db, device: Id, job: Id, parent: Option<Id>, envelope: Value)
    ensures var p := PrepareJob(d, device, job, parent, envelope);
            && OpsMove(d, p.db)
            && (p.permit.Some? ==>
                  && p.permit.value.op == JobOp(job) && Held(p.db, p.permit.value)
                  && (JobOp(job) in d.ops ==> d.ops[JobOp(job)].state.Initial?))
  {
    var key, op := JobRootKey(job, parent), JobOp(job);
    var d1 := AdmitRoot(d, key, device);
    if (key in d.roots || parent.None?) && d1.roots[key].device == device {
      UpsertOpMoves(d1, op, key, Some(parent.Some?), Some(envelope));
      var d2 := UpsertOp(d1, op, key, Some(parent.Some?), Some(envelope));
      var decision := JobDecision(d2, device, key, op, parent.Some?);
      assert decision.Authorised? ==> d2.ops[op].state.Initial?;
      CommitMoves(d, d2, key, op, decision);
      assert PrepareJob(d, device, job, parent, envelope) == Commit(d2, key, op, decision);
    }
  }

  lemma CommitKeepsChild(d: Db, key: RootKey, op: OpKey, decision: Decision)
    requires key in d.roots && op in d.ops
    ensures op in Commit(d, key, op, decision).db.ops
    ensures Commit(d, key, op, decision).db.ops[op].child == d.ops[op].child
    ensures Commit(d, key, op, decision).db.ops[op].root == d.ops[op].root
  {
  }

  // A permitted operation is marked as a child exactly if a workflow was named.
  lemma PrepareJobChild(d: Db, device: Id, job: Id, parent: Option<Id>, envelope: Value)
    ensures var p, op := PrepareJob(d, device, job, parent, envelope), JobOp(job);
            p.permit.Some? && p.permit.value.root == JobRootKey(job, parent) ==>
              op in p.db.ops && p.db.ops[op].child == parent.Some?
  {
    hide Commit, SlotTaken, IsOldest;
    PrepareJobPermits(d, device, job, parent, envelope);
    var key, op := JobRootKey(job, parent), JobOp(job);
    var d1 := AdmitRoot(d, key, device);
    if (key in d.roots || parent.None?) && d1.roots[key].device == device {
      UpsertRegisters(d1, op, key, Some(parent.Some?), Some(envelope));
      var d2 := UpsertOp(d1, op, key, Some(parent.Some?), Some(envelope));
      CommitKeepsChild(d2, key, op, JobDecision(d2, device, key, op, parent.Some?));
    }
  }

  lemma PrepareEdgePermits(d: Db, device: Id, workflow: Id, envelope: Value)
    ensures var p := PrepareEdge(d, device, workflow, envelope);
            && OpsMove(d, p.db)
            && (p.permit.Some? ==> p.permit.value.op == WorkflowOp(workflow) && Held(p.db, p.permit.value))
  {
    var key, op := EdgeRoot(workflow), WorkflowOp(workflow);
    var d1 := AdmitRoot(d, key, device);
    var r := d1.roots[key];
    if r.device == device && !Terminal(r.state) && !Manual(r.state) {
      UpsertOpMoves(d1, op, key, Some(false), Some(envelope));
      var d2 := UpsertOp(d1, op, key, Some(false), Some(envelope));
      CommitMoves(d, d2, key, op, EdgeDecision(d2, device, key));
    }
  }

  lemma CompleteMoves(d: Db, c: Call, sent: bool)
    ensures OpsMove(d, CompleteJob(d, c, sent)) && OpsMove(d, CompleteEdge(d, c, sent))
  {
    BlockOpMoves(d, c.handle.op);
    if c.handle.op in d.ops { FinishOpMoves(d, c.handle.op); }
  }

  lemma ResultMoves(w: World, device: Id, job: Id, reported: Reported, success: bool)
    ensures OpsMove(w.db, JobResult(w, device, job, reported, success).db)
  {
  }

  lemma ConfirmLossMoves(d: Db, h: Handle, timeout: bool)
    requires LossConfirmed(d, h, timeout)
    ensures OpsMove(d, ConfirmLoss(d, h, timeout))
  {
  }

  lemma ResolveMoves(d: Db, root: RootKey, to: State, done: set<OpKey>)
    ensures OpsMove(d, ResolveRoot(d, root, to, done))
  {
  }

  lemma ReconcileMoves(d: Db)
    ensures OpsMove(d, ReconcileInFlight(d))
  {
  }

  lemma SettleMoves(w: World, call: Id)
    requires call in w.calls && w.calls[call].progress.Egressed?
    ensures OpsMove(w.db, Settle(w, call).db)
  {
    CompleteMoves(w.db, w.calls[call], w.calls[call].progress.sent);
  }

  lemma WaiterGoneMoves(w: World, job: Id, timeout: bool)
    ensures OpsMove(w.db, WaiterGone(w, job, timeout).db)
  {
    var permit := Pending(w, job);
    if permit.Some? && LossConfirmed(w.db, permit.value, timeout) { ConfirmLossMoves(w.db, permit.value, timeout); }
  }

  lemma PrepareMovesOps(w: World, e: Event)
    requires e.PrepareJobSend? || e.PrepareEdgeSend?
    ensures OpsMove(w.db, Step(w, e).db)
  {
    match e
    case PrepareJobSend(call, device, job, parent, envelope) =>
      PrepareJobPermits(w.db, device, job, parent, envelope);
    case PrepareEdgeSend(call, device, workflow, envelope) =>
      PrepareEdgePermits(w.db, device, workflow, envelope);
  }

  lemma StepMovesOps(w: World, e: Event)
    ensures OpsMove(w.db, Step(w, e).db)
  {
    hide PrepareJob, PrepareEdge, CompleteJob, CompleteEdge, ConfirmLoss, AcceptResult, ReconcileInFlight, ResolveRoot;
    match e
    case Admit(root, device) => UpsertOpMoves(AdmitRoot(w.db, root, device), RootOperation(root), root, None, None);
    case PrepareJobSend(_, _, _, _, _) => PrepareMovesOps(w, e);
    case PrepareEdgeSend(_, _, _, _) => PrepareMovesOps(w, e);
    case Complete(call) =>
      if call in w.calls && w.calls[call].progress.Egressed? { SettleMoves(w, call); }
    case Result(device, job, reported, success) => ResultMoves(w, device, job, reported, success);
    case LoseWaiter(job, timeout) => WaiterGoneMoves(w, job, timeout);
    case Corrupt(root, generation, op) => BlockOpMoves(w.db, JobOp(op));
    case Resolve(root, to, done) => ResolveMoves(w.db, root, to, done);
    case StartupReconcile => ReconcileMoves(w.db);
    case _ => assert Step(w, e).db.ops == w.db.ops;
  }

  // ---- Invariant ------------------------------------------------------------

  predicate Backed(w: World) {
    && (forall c :: c in w.calls ==> Held(w.db, w.calls[c].handle))
    && (forall i :: 0 <= i < |w.frames| ==> Held(w.db, w.frames[i].handle))
  }

  // One running call per job, and no frame of its job before or unless it wrote one.
  predicate OneCall(w: World) {
    && (forall c, c' | c in w.calls && c' in w.calls ::
          w.calls[c].handle.op.JobOp? && w.calls[c].handle.op == w.calls[c'].handle.op ==> c == c')
    && (forall c, i | c in w.calls && 0 <= i < |w.frames| ::
          w.calls[c].handle.op.JobOp? && w.frames[i].handle.op == w.calls[c].handle.op
          ==> !w.calls[c].progress.Permitted? && w.calls[c].progress.sent)
  }

  predicate OneFrame(w: World) {
    forall i, j :: 0 <= i < j < |w.frames| && w.frames[i].handle.op.JobOp?
                   ==> w.frames[i].handle.op != w.frames[j].handle.op
  }

  // A waiter with a permit is there for a frame of this process, or for a call that is about to remove it.
  predicate Awaited(w: World, h: Handle) {
    || Frame(h, w.epoch) in w.frames
    || exists c ::
         c in w.calls && w.calls[c].handle == h && !w.calls[c].progress.Permitted? && !w.calls[c].progress.sent
  }

  predicate WaitersAwaited(w: World) {
    forall j :: j in w.waiters && w.waiters[j].permit.Some?
                ==> w.waiters[j].permit.value.op == JobOp(j) && Awaited(w, w.waiters[j].permit.value)
  }

  // The operation or its root has left flight for good.
  predicate Closed(d: Db, h: Handle) {
    || (h.op in d.ops && Rank(d.ops[h.op].state) == 4)
    || (h.root in d.roots && Rank(d.roots[h.root].state) == 4)
  }

  predicate HasWaiter(w: World, h: Handle) {
    h.op.id in w.waiters && w.waiters[h.op.id].permit == Some(h)
  }

  predicate FramesWaited(w: World) {
    forall i :: 0 <= i < |w.frames| && w.frames[i].epoch == w.epoch && w.frames[i].handle.op.JobOp?
                ==> HasWaiter(w, w.frames[i].handle) || Closed(w.db, w.frames[i].handle)
  }

  predicate Lane(w: World) {
    Backed(w) && OneCall(w) && OneFrame(w) && WaitersAwaited(w) && FramesWaited(w)
    && (forall i :: 0 <= i < |w.frames| ==> w.frames[i].epoch <= w.epoch)
  }

  // ---- Every event keeps it -------------------------------------------------

  // What the invariant needs from the tables' side of an event.
  predicate DbMoves(d: Db, d': Db) {
    OpsMove(d, d') && forall k :: k in d.roots ==> k in d'.roots && Rank(d.roots[k].state) <= Rank(d'.roots[k].state)
  }

  lemma StepMovesDb(w: World, e: Event)
    requires StagesAgree(w.db)
    ensures DbMoves(w.db, Step(w, e).db)
  {
    StepMovesOps(w, e);
    StepMovesRoots(w, e);
    var d, d' := w.db, Step(w, e).db;
    if !Settles(d, d') {
      var key :| Advances(d, d', key);
      assert key in d.roots ==> Moves(d.roots[key], d'.roots[key]);
    }
  }

  lemma DbKeepsLane(w: World, d': Db)
    requires Lane(w) && DbMoves(w.db, d')
    ensures Lane(w.(db := d'))
  {
  }

  predicate Unused(w: World, op: OpKey) {
    && (forall c :: c in w.calls ==> w.calls[c].handle.op != op)
    && (forall i :: 0 <= i < |w.frames| ==> w.frames[i].handle.op != op)
  }

  // No call and no frame belongs to an operation that is still registered.
  lemma RegisteredUnused(w: World, op: OpKey)
    requires Backed(w) && (op in w.db.ops ==> w.db.ops[op].state.Initial?)
    ensures Unused(w, op)
  {
  }

  predicate Unsent(w: World, c: Id, h: Handle) {
    c in w.calls && w.calls[c].handle == h && !w.calls[c].progress.Permitted? && !w.calls[c].progress.sent
  }

  lemma StillAwaited(w: World, w': World, h: Handle)
    requires Awaited(w, h) && w'.epoch == w.epoch && w.frames <= w'.frames
    requires forall c :: Unsent(w, c, h) ==> Unsent(w', c, h)
    ensures Awaited(w', h)
  {
    if Frame(h, w.epoch) in w.frames {
      assert Frame(h, w.epoch) in w'.frames;
    } else {
      var c :| c in w.calls && w.calls[c].handle == h && !w.calls[c].progress.Permitted? && !w.calls[c].progress.sent;
      assert Unsent(w, c, h);
      assert Unsent(w', c, h);
    }
  }

  // Waiters that stay are still awaited, and frames still waited for, when only the calls change this way.
  lemma SameWaits(w: World, w': World)
    requires Lane(w) && w' == w.(calls := w'.calls)
    requires forall c, h :: Unsent(w, c, h) ==> Unsent(w', c, h)
    ensures WaitersAwaited(w') && FramesWaited(w')
  {
    forall j | j in w.waiters && w.waiters[j].permit.Some? ensures Awaited(w', w.waiters[j].permit.value) {
      StillAwaited(w, w', w.waiters[j].permit.value);
    }
    forall i | 0 <= i < |w.frames| && w.frames[i].epoch == w.epoch && w.frames[i].handle.op.JobOp?
      ensures HasWaiter(w', w.frames[i].handle) || Closed(w'.db, w.frames[i].handle)
    {
      assert HasWaiter(w, w.frames[i].handle) || Closed(w.db, w.frames[i].handle);
    }
  }

  lemma NewCallKeepsLane(w: World, call: Id, c: Call)
    requires Lane(w) && call !in w.calls && Held(w.db, c.handle) && c.progress.Permitted?
    requires c.handle.op.JobOp? ==> Unused(w, c.handle.op)
    ensures Lane(w.(calls := w.calls[call := c]))
  {
    SameWaits(w, w.(calls := w.calls[call := c]));
  }

  lemma SettledKeepsLane(w: World, call: Id)
    requires Lane(w) && call in w.calls && w.calls[call].progress.Egressed?
    ensures Lane(w.(calls := w.calls[call := w.calls[call].(progress := Settled(w.calls[call].progress.sent))]))
  {
    var w' := w.(calls := w.calls[call := w.calls[call].(progress := Settled(w.calls[call].progress.sent))]);
    forall c | c in w'.calls
      ensures c in w.calls && w'.calls[c].handle == w.calls[c].handle
      ensures !w.calls[c].progress.Permitted? ==>
              !w'.calls[c].progress.Permitted? && w'.calls[c].progress.sent == w.calls[c].progress.sent
    {
    }
    SameWaits(w, w');
  }

  // A call about to write is the only one of its job, and nothing of that job is on the wire.
  lemma EgressJobKeepsFrames(w: World, call: Id, online: bool)
    requires Lane(w) && call in w.calls && w.calls[call].progress.Permitted? && w.calls[call].handle.op.JobOp?
    ensures var w' := EgressJob(w, call, online); Backed(w') && OneCall(w') && OneFrame(w')
  {
    var w' := EgressJob(w, call, online);
    assert forall i :: 0 <= i < |w.frames| ==>
           w'.frames[i] == w.frames[i] && w.frames[i].handle.op != w.calls[call].handle.op;
  }

  lemma EgressJobKeepsLane(w: World, call: Id, online: bool)
    requires Lane(w) && call in w.calls && w.calls[call].progress.Permitted? && w.calls[call].handle.op.JobOp?
    ensures Lane(EgressJob(w, call, online))
  {
    var w' := EgressJob(w, call, online);
    var h := w.calls[call].handle;
    EgressJobKeepsFrames(w, call, online);
    forall j | j in w'.waiters && w'.waiters[j].permit.Some?
      ensures w'.waiters[j].permit.value.op == JobOp(j) && Awaited(w', w'.waiters[j].permit.value)
    {
      if j in w.waiters {
        StillAwaited(w, w', w.waiters[j].permit.value);
      } else if w'.calls[call].progress.sent {
        assert w'.frames[|w.frames|] == Frame(h, w.epoch);
      } else {
        assert Unsent(w', call, h);
      }
    }
    forall i | 0 <= i < |w'.frames| && w'.frames[i].epoch == w.epoch && w'.frames[i].handle.op.JobOp?
      ensures HasWaiter(w', w'.frames[i].handle) || Closed(w'.db, w'.frames[i].handle)
    {
      if i < |w.frames| {
        assert HasWaiter(w, w.frames[i].handle) || Closed(w.db, w.frames[i].handle);
      }
    }
  }

  lemma EgressEdgeKeepsLane(w: World, call: Id, online: bool)
    requires Lane(w) && call in w.calls && w.calls[call].progress.Permitted? && !w.calls[call].handle.op.JobOp?
    ensures Lane(EgressEdge(w, call, online))
  {
    var w' := EgressEdge(w, call, online);
    forall j | j in w'.waiters && w'.waiters[j].permit.Some? ensures Awaited(w', w'.waiters[j].permit.value) {
      StillAwaited(w, w', w.waiters[j].permit.value);
    }
    forall i | 0 <= i < |w'.frames| && w'.frames[i].epoch == w.epoch && w'.frames[i].handle.op.JobOp?
      ensures HasWaiter(w', w'.frames[i].handle) || Closed(w'.db, w'.frames[i].handle)
    {
      assert HasWaiter(w, w.frames[i].handle) || Closed(w.db, w.frames[i].handle);
    }
  }

  lemma DropKeepsLane(w: World, job: Id)
    requires Lane(w)
    requires forall i :: 0 <= i < |w.frames| && w.frames[i].epoch == w.epoch && w.frames[i].handle.op == JobOp(job)
                         ==> Closed(w.db, w.frames[i].handle)
    ensures Lane(w.(waiters := w.waiters - {job}))
  {
  }

  // A call that wrote nothing takes its waiter away before it returns.
  lemma ReturnKeepsLane(w: World, call: Id)
    requires Lane(w) && call in w.calls && w.calls[call].progress.Settled?
    ensures Lane(Return(w, call))
  {
    var w', c := Return(w, call), w.calls[call];
    forall j | j in w'.waiters && w'.waiters[j].permit.Some? ensures Awaited(w', w'.waiters[j].permit.value) {
      var h := w.waiters[j].permit.value;
      assert Awaited(w, h);
      assert Pending(w, j) == Some(h);
      StillAwaited(w, w', h);
    }
    forall i | 0 <= i < |w.frames| && w.frames[i].epoch == w.epoch && w.frames[i].handle.op.JobOp?
      ensures HasWaiter(w', w.frames[i].handle) || Closed(w'.db, w.frames[i].handle)
    {
      assert HasWaiter(w, w.frames[i].handle) || Closed(w.db, w.frames[i].handle);
    }
  }

  // The permit of a waiter names the row of its job.
  lemma WaiterHeld(w: World, job: Id)
    requires Lane(w) && Pending(w, job).Some?
    ensures Pending(w, job).value.op == JobOp(job) && Held(w.db, Pending(w, job).value)
  {
  }

  // A waiter may go once the ledger has closed its job.
  lemma ClosedDropKeepsLane(w: World, d': Db, job: Id)
    requires Lane(w) && DbMoves(w.db, d')
    requires JobOp(job) in d'.ops && Closed(d', OpHandle(d', JobOp(job)))
    ensures Lane(w.(db := d', waiters := w.waiters - {job}))
  {
    DbKeepsLane(w, d');
    var w1 := w.(db := d');
    forall i | 0 <= i < |w1.frames| && w1.frames[i].handle.op == JobOp(job) ensures Closed(d', w1.frames[i].handle) {
      assert Held(d', w1.frames[i].handle);
    }
    DropKeepsLane(w1, job);
  }

  lemma ResultDrops(w: World, device: Id, job: Id, reported: Reported, success: bool)
    requires StagesAgree(w.db) && ResultAccepted(w.db, Pending(w, job), device, job, reported)
    ensures var d' := AcceptResult(w.db, job, success);
            DbMoves(w.db, d') && JobOp(job) in d'.ops && Closed(d', OpHandle(d', JobOp(job)))
  {
  }

  // Deliveries are not part of the invariant.
  lemma SameLane(w: World, w': World)
    requires Lane(w) && w' == w.(delivered := w'.delivered)
    ensures Lane(w')
  {
  }

  lemma ResultKeepsLane(w: World, device: Id, job: Id, reported: Reported, success: bool)
    requires Lane(w) && StagesAgree(w.db)
    ensures Lane(JobResult(w, device, job, reported, success))
  {
    if ResultAccepted(w.db, Pending(w, job), device, job, reported) {
      ResultDrops(w, device, job, reported, success);
      var d' := AcceptResult(w.db, job, success);
      ClosedDropKeepsLane(w, d', job);
      SameLane(w.(db := d', waiters := w.waiters - {job}), JobResult(w, device, job, reported, success));
    }
  }

  lemma AmbiguityCloses(d: Db, h: Handle)
    requires StagesAgree(d) && AmbiguityConfirmed(d, h)
    ensures h.root in MarkAmbiguous(d, h).roots && Rank(MarkAmbiguous(d, h).roots[h.root].state) == 4
  {
  }

  // The ledger confirms the loss of a waiter only by closing its job.
  lemma ConfirmLossCloses(d: Db, h: Handle, timeout: bool)
    requires StagesAgree(d) && LossConfirmed(d, h, timeout) && Held(d, h)
    ensures var d' := ConfirmLoss(d, h, timeout); DbMoves(d, d') && Held(d', h) && Closed(d', h)
  {
    var d' := ConfirmLoss(d, h, timeout);
    ConfirmLossMoves(d, h, timeout);
    ConfirmLossSettles(d, h, timeout);
    assert DbMoves(d, d');
    assert h.op in d'.ops && OpMoves(d.ops[h.op], d'.ops[h.op]);
    if !(timeout && h.root.ServerRoot?) { AmbiguityCloses(d, h); }
  }

  lemma WaiterGoneKeepsLane(w: World, job: Id, timeout: bool)
    requires Lane(w) && StagesAgree(w.db)
    ensures Lane(WaiterGone(w, job, timeout))
  {
    var permit := Pending(w, job);
    if permit.Some? && LossConfirmed(w.db, permit.value, timeout) {
      WaiterHeld(w, job);
      var d' := ConfirmLoss(w.db, permit.value, timeout);
      ConfirmLossCloses(w.db, permit.value, timeout);
      ClosedDropKeepsLane(w, d', job);
    }
  }

  lemma PlainKeepsLane(w: World, job: Id)
    requires Lane(w)
    ensures Lane(Step(w, PlainWait(job))) && Lane(Step(w, PlainGone(job)))
  {
    if job !in w.waiters {
      var w' := w.(waiters := w.waiters[job := Waiter(None)]);
      forall j | j in w.waiters && w.waiters[j].permit.Some? ensures Awaited(w', w.waiters[j].permit.value) {
        StillAwaited(w, w', w.waiters[j].permit.value);
      }
      forall i | 0 <= i < |w.frames| && w.frames[i].epoch == w.epoch && w.frames[i].handle.op.JobOp?
        ensures HasWaiter(w', w.frames[i].handle) || Closed(w'.db, w.frames[i].handle)
      {
        assert HasWaiter(w, w.frames[i].handle) || Closed(w.db, w.frames[i].handle);
      }
    } else if w.waiters[job].permit.None? {
      forall i | 0 <= i < |w.frames| && w.frames[i].epoch == w.epoch && w.frames[i].handle.op == JobOp(job)
        ensures Closed(w.db, w.frames[i].handle)
      {
        assert !HasWaiter(w, w.frames[i].handle);
      }
      DropKeepsLane(w, job);
    }
  }

  lemma PrepareKeepsLane(w: World, e: Event)
    requires Lane(w) && StagesAgree(w.db) && (e.PrepareJobSend? || e.PrepareEdgeSend?)
    ensures Lane(Step(w, e))
  {
    StepMovesDb(w, e);
    var w' := Step(w, e);
    var w1 := w.(db := w'.db);
    DbKeepsLane(w, w'.db);
    if e.call !in w.calls && e.call in w'.calls {
      var c := w'.calls[e.call];
      if e.PrepareJobSend? {
        PrepareJobPermits(w.db, e.device, e.job, e.parent, e.envelope);
        RegisteredUnused(w, c.handle.op);
        assert Unused(w1, c.handle.op);
      } else {
        PrepareEdgePermits(w.db, e.device, e.workflow, e.envelope);
      }
      NewCallKeepsLane(w1, e.call, c);
    }
  }

  // The later events of a send.
  lemma CallKeepsLane(w: World, e: Event)
    requires Lane(w) && StagesAgree(w.db) && (e.Egress? || e.Complete? || e.Finish?)
    ensures Lane(Step(w, e))
  {
    match e
    case Egress(call, online) =>
      if call in w.calls && w.calls[call].progress.Permitted? {
        if w.calls[call].handle.op.JobOp? { EgressJobKeepsLane(w, call, online); }
        else { EgressEdgeKeepsLane(w, call, online); }
      }
    case Complete(call) =>
      StepMovesDb(w, e);
      DbKeepsLane(w, Step(w, e).db);
      if call in w.calls && w.calls[call].progress.Egressed? { SettledKeepsLane(w.(db := Step(w, e).db), call); }
    case Finish(call) =>
      if call in w.calls && w.calls[call].progress.Settled? { ReturnKeepsLane(w, call); }
  }

  lemma StepKeepsLane(w: World, e: Event)
    requires Lane(w) && StagesAgree(w.db)
    ensures Lane(Step(w, e))
  {
    match e
    case PrepareJobSend(_, _, _, _, _) => PrepareKeepsLane(w, e);
    case PrepareEdgeSend(_, _, _, _) => PrepareKeepsLane(w, e);
    case Egress(_, _) => CallKeepsLane(w, e);
    case Complete(_) => CallKeepsLane(w, e);
    case Finish(_) => CallKeepsLane(w, e);
    case Result(device, job, reported, success) => ResultKeepsLane(w, device, job, reported, success);
    case LoseWaiter(job, timeout) => WaiterGoneKeepsLane(w, job, timeout);
    case PlainWait(job) => PlainKeepsLane(w, job);
    case PlainGone(job) => PlainKeepsLane(w, job);
    case Crash =>
    case _ =>
      StepMovesDb(w, e);
      DbKeepsLane(w, Step(w, e).db);
      assert Step(w, e) == w.(db := Step(w, e).db);
  }

  // ---- What all runs keep ---------------------------------------------------

  lemma {:induction false} RunKeepsLane(w: World, events: seq<Event>)
    requires Lane(w) && SlotInvariant(w.db)
    ensures Lane(Run(w, events)) && SlotInvariant(Run(w, events).db)
    decreases |events|
  {
    if events != [] {
      StepKeepsLane(w, events[0]);
      StepKeepsSlots(w, events[0]);
      RunKeepsLane(Step(w, events[0]), events[1..]);
    }
  }

  // Over every run, crashes and boots included, no two frames carry the same job.
  lemma JobFrameWrittenOnce(blocksQueued: bool, events: seq<Event>, i: nat, j: nat)
    requires var frames := Run(Empty(blocksQueued), events).frames;
             i < j < |frames| && frames[i].handle.op.JobOp?
    ensures var frames := Run(Empty(blocksQueued), events).frames;
            frames[i].handle.op != frames[j].handle.op
  {
    RunKeepsLane(Empty(blocksQueued), events);
  }

  // Once no send of a job is running, its permit waiter is there only if its frame was written.
  lemma NoWaiterLeaks(blocksQueued: bool, events: seq<Event>, job: Id)
    requires var w := Run(Empty(blocksQueued), events);
             Pending(w, job).Some? && forall c :: c in w.calls ==> w.calls[c].handle != Pending(w, job).value
    ensures var w := Run(Empty(blocksQueued), events);
            Frame(Pending(w, job).value, w.epoch) in w.frames
  {
    RunKeepsLane(Empty(blocksQueued), events);
    var w := Run(Empty(blocksQueued), events);
    assert Awaited(w, Pending(w, job).value);
  }
}
