/**
 A result finds its job: when the device answers a frame of this process, the
 waiter is there and the ledger accepts the result, with one exact exception.
 */
module JobResults {
  import opened Json
  import opened Ledger
  import opened Protocol
  import opened DeviceSlot
  import opened PermitLane

  // The jobs table: the server workflow of each child job. Every event that
  // names a job agrees with it.
  function Home(parents: map<Id, Id>, job: Id): RootKey {
    if job in parents then ServerRoot(parents[job]) else JobRoot(job)
  }

  predicate Agrees(parents: map<Id, Id>, e: Event) {
    match e
    case Admit(JobRoot(job), _) => Home(parents, job) == JobRoot(job)
    case PrepareJobSend(_, _, job, parent, _) => Home(parents, job) == JobRootKey(job, parent)
    case _ => true
  }

  // A job in flight runs under its own root, under the root's generation, and not ahead of it.
  predicate Placed(d: Db, op: OpKey, home: RootKey)
    requires op in d.ops
  {
    var o := d.ops[op];
    o.root == home && home in d.roots &&
    var r := d.roots[home];
    && r.device == o.device
    && !o.state.Claimed?
    && (o.state.Dispatching? ==> o.furthest.WasDispatching?)
    && (o.state.Dispatched? ==> o.furthest.WasDispatched?)
    && (InFlight(o.state) ==> r.generation == o.generation && Rank(o.state) <= Rank(r.state))
  }

  predicate AllPlaced(d: Db, parents: map<Id, Id>) {
    forall op :: op in d.ops && op.JobOp? ==> Placed(d, op, Home(parents, op.id))
  }

  predicate RowsMove(d: Db, d': Db) {
    forall k :: k in d.roots ==> k in d'.roots && Moves(d.roots[k], d'.roots[k])
  }

  lemma StepMovesRows(w: World, e: Event)
    requires StagesAgree(w.db)
    ensures RowsMove(w.db, Step(w, e).db) && StagesAgree(Step(w, e).db)
  {
    StepMovesRoots(w, e);
    var d, d' := w.db, Step(w, e).db;
    if !Settles(d, d') {
      var key :| Advances(d, d', key);
      assert key in d.roots ==> Moves(d.roots[key], d'.roots[key]);
    }
  }

  // The operation did not advance: it is as it was, or it left flight.
  predicate Rests(o: Operation, p: Operation) {
    && p.root == o.root && p.device == o.device
    && (Rank(p.state) == 4
        || (p.state == o.state && p.furthest == o.furthest && (o.state.Initial? || p.generation == o.generation)))
  }

  // Only `moved` may have advanced or be new.
  lemma OthersStayPlaced(d: Db, d': Db, parents: map<Id, Id>, moved: set<OpKey>)
    requires AllPlaced(d, parents) && RowsMove(d, d')
    requires forall op :: op in d'.ops && op !in moved ==> op in d.ops && Rests(d.ops[op], d'.ops[op])
    requires forall op :: op in moved && op.JobOp? && op in d'.ops ==> Placed(d', op, Home(parents, op.id))
    ensures AllPlaced(d', parents)
  {
  }

  // The rows a first transaction writes before it decides.
  lemma RegisteredPlaced(d: Db, parents: map<Id, Id>, device: Id, job: Id, key: RootKey, child: bool, envelope: Value)
    requires AllPlaced(d, parents) && StagesAgree(d) && Home(parents, job) == key
    requires AdmitRoot(d, key, device).roots[key].device == device
    ensures var d2 := UpsertOp(AdmitRoot(d, key, device), JobOp(job), key, Some(child), Some(envelope));
            && key in d2.roots && Coherent(d2.roots[key]) && d2.ops.Keys == d.ops.Keys + {JobOp(job)}
            && d2.ops[JobOp(job)].device == d2.roots[key].device && Placed(d2, JobOp(job), key)
            && forall op :: op in d.ops && op != JobOp(job) ==> d2.ops[op] == d.ops[op]
  {
  }

  lemma CommitPlaced(d2: Db, key: RootKey, op: OpKey, decision: Decision)
    requires key in d2.roots && op in d2.ops && Placed(d2, op, key) && Coherent(d2.roots[key])
    requires decision.Authorised? ==>
               d2.ops[op].state.Initial? && !Terminal(d2.roots[key].state) && !Manual(d2.roots[key].state)
    ensures var d' := Commit(d2, key, op, decision).db;
            op in d'.ops && Placed(d', op, key) && d'.ops == d2.ops[op := d'.ops[op]]
  {
  }

  // Whatever a first transaction goes on to write touches the job's own rows only.
  lemma DecidedPlaced(d: Db, d2: Db, d': Db, parents: map<Id, Id>, job: Id, key: RootKey)
    requires AllPlaced(d, parents) && RowsMove(d, d') && Home(parents, job) == key
    requires d2.ops.Keys == d.ops.Keys + {JobOp(job)}
    requires forall op :: op in d.ops && op != JobOp(job) ==> d2.ops[op] == d.ops[op]
    requires JobOp(job) in d'.ops && d'.ops == d2.ops[JobOp(job) := d'.ops[JobOp(job)]] && Placed(d', JobOp(job), key)
    ensures AllPlaced(d', parents)
  {
  }

  lemma PrepareJobPlaced(d: Db, parents: map<Id, Id>, device: Id, job: Id, parent: Option<Id>, envelope: Value)
    requires AllPlaced(d, parents) && StagesAgree(d) && Home(parents, job) == JobRootKey(job, parent)
    requires RowsMove(d, PrepareJob(d, device, job, parent, envelope).db)
    ensures AllPlaced(PrepareJob(d, device, job, parent, envelope).db, parents)
  {
    var key, op := JobRootKey(job, parent), JobOp(job);
    var p := PrepareJob(d, device, job, parent, envelope);
    if p.decision.MissingRoot? || p.decision.WrongDevice? {
      OthersStayPlaced(d, p.db, parents, {});
    } else {
      RegisteredPlaced(d, parents, device, job, key, parent.Some?, envelope);
      var d2 := UpsertOp(AdmitRoot(d, key, device), op, key, Some(parent.Some?), Some(envelope));
      var decision := JobDecision(d2, device, key, op, parent.Some?);
      CommitPlaced(d2, key, op, decision);
      DecidedPlaced(d, d2, Commit(d2, key, op, decision).db, parents, job, key);
    }
  }

  // Transactions that advance nothing but `moved`.
  predicate RestsExcept(d: Db, d': Db, moved: set<OpKey>) {
    forall op :: op in d'.ops && op !in moved ==> op in d.ops && Rests(d.ops[op], d'.ops[op])
  }

  lemma PrepareEdgeRests(d: Db, device: Id, workflow: Id, envelope: Value)
    ensures RestsExcept(d, PrepareEdge(d, device, workflow, envelope).db, {WorkflowOp(workflow)})
  {
    var d1 := AdmitRoot(d, EdgeRoot(workflow), device);
    var r := d1.roots[EdgeRoot(workflow)];
    if r.device == device && !Terminal(r.state) && !Manual(r.state) {
      var d2 := UpsertOp(d1, WorkflowOp(workflow), EdgeRoot(workflow), Some(false), Some(envelope));
      CommitRests(d, d2, EdgeRoot(workflow), WorkflowOp(workflow), EdgeDecision(d2, device, EdgeRoot(workflow)));
    }
  }

  lemma CommitRests(d: Db, d2: Db, key: RootKey, op: OpKey, decision: Decision)
    requires RestsExcept(d, d2, {op}) && key in d2.roots && op in d2.ops
    ensures RestsExcept(d, Commit(d2, key, op, decision).db, {op})
  {
  }

  lemma CompleteRests(d: Db, c: Call, sent: bool)
    ensures RestsExcept(d, CompleteJob(d, c, sent), {c.handle.op})
            && RestsExcept(d, CompleteEdge(d, c, sent), {c.handle.op})
  {
  }

  // A job advances to dispatched only with, or after, its root.
  lemma CompleteJobPlaced(d: Db, c: Call, sent: bool, home: RootKey)
    requires c.handle.op in d.ops && Held(d, c.handle) && Placed(d, c.handle.op, home) && StagesAgree(d)
    requires RowsMove(d, CompleteJob(d, c, sent))
    ensures c.handle.op in CompleteJob(d, c, sent).ops && Placed(CompleteJob(d, c, sent), c.handle.op, home)
  {
  }

  lemma ResultRests(w: World, device: Id, job: Id, reported: Reported, success: bool)
    ensures RestsExcept(w.db, JobResult(w, device, job, reported, success).db, {})
  {
  }

  lemma ConfirmLossRests(d: Db, h: Handle, timeout: bool)
    requires LossConfirmed(d, h, timeout)
    ensures RestsExcept(d, ConfirmLoss(d, h, timeout), {})
  {
  }

  lemma ResolveRests(d: Db, root: RootKey, to: State, done: set<OpKey>)
    ensures RestsExcept(d, ResolveRoot(d, root, to, done), {})
  {
  }

  lemma ReconcileRests(d: Db)
    ensures RestsExcept(d, ReconcileInFlight(d), {})
  {
  }

  lemma CorruptRests(d: Db, root: RootKey, generation: nat, op: Id)
    ensures RestsExcept(d, MarkCorrupt(d, root, generation, op), {})
  {
  }

  lemma AdmitRests(d: Db, parents: map<Id, Id>, root: RootKey, device: Id)
    requires AllPlaced(d, parents) && Agrees(parents, Admit(root, device))
    ensures var d' := UpsertOp(AdmitRoot(d, root, device), RootOperation(root), root, None, None);
            && RestsExcept(d, d', {RootOperation(root)})
            && (root.JobRoot? ==> Placed(d', RootOperation(root), root))
  {
    var op := RootOperation(root);
    assert op in d.ops && op.JobOp? ==> Placed(d, op, Home(parents, op.id));
  }

  // Which operation an event may advance.
  function Moved(w: World, e: Event): set<OpKey> {
    match e
    case Admit(root, _) => {RootOperation(root)}
    case PrepareEdgeSend(_, _, workflow, _) => {WorkflowOp(workflow)}
    case Complete(call) => if call in w.calls then {w.calls[call].handle.op} else {}
    case _ => {}
  }

  lemma StepRests(w: World, e: Event, parents: map<Id, Id>)
    requires AllPlaced(w.db, parents) && Agrees(parents, e) && !e.PrepareJobSend?
    ensures RestsExcept(w.db, Step(w, e).db, Moved(w, e))
  {
    match e
    case Admit(root, device) => AdmitRests(w.db, parents, root, device);
    case PrepareEdgeSend(call, device, workflow, envelope) => PrepareEdgeRests(w.db, device, workflow, envelope);
    case Complete(call) =>
      if call in w.calls && w.calls[call].progress.Egressed? {
        CompleteRests(w.db, w.calls[call], w.calls[call].progress.sent);
      }
    case Result(device, job, reported, success) => ResultRests(w, device, job, reported, success);
    case LoseWaiter(job, timeout) =>
      var permit := Pending(w, job);
      if permit.Some? && LossConfirmed(w.db, permit.value, timeout) { ConfirmLossRests(w.db, permit.value, timeout); }
    case Resolve(root, to, done) => ResolveRests(w.db, root, to, done);
    case Corrupt(root, generation, op) => CorruptRests(w.db, root, generation, op);
    case StartupReconcile => ReconcileRests(w.db);
    case _ =>
  }

  lemma CompleteKeepsPlaced(w: World, call: Id, parents: map<Id, Id>)
    requires AllPlaced(w.db, parents) && Lane(w) && StagesAgree(w.db) && call in w.calls
             && w.calls[call].progress.Egressed?
    requires RowsMove(w.db, Settle(w, call).db)
    ensures AllPlaced(Settle(w, call).db, parents)
  {
    var d, d', c := w.db, Settle(w, call).db, w.calls[call];
    CompleteRests(d, c, c.progress.sent);
    if c.handle.op.JobOp? { CompleteJobPlaced(d, c, c.progress.sent, Home(parents, c.handle.op.id)); }
    OthersStayPlaced(d, d', parents, {c.handle.op});
  }

  lemma AdmitKeepsPlaced(d: Db, parents: map<Id, Id>, root: RootKey, device: Id)
    requires AllPlaced(d, parents) && Agrees(parents, Admit(root, device))
    requires RowsMove(d, UpsertOp(AdmitRoot(d, root, device), RootOperation(root), root, None, None))
    ensures AllPlaced(UpsertOp(AdmitRoot(d, root, device), RootOperation(root), root, None, None), parents)
  {
    AdmitRests(d, parents, root, device);
    OthersStayPlaced(d, UpsertOp(AdmitRoot(d, root, device), RootOperation(root), root, None, None), parents,
                     {RootOperation(root)});
  }

  lemma StepKeepsPlaced(w: World, e: Event, parents: map<Id, Id>)
    requires AllPlaced(w.db, parents) && Agrees(parents, e) && Lane(w) && StagesAgree(w.db)
    ensures AllPlaced(Step(w, e).db, parents)
  {
    var d, d' := w.db, Step(w, e).db;
    StepMovesRows(w, e);
    match e
    case PrepareJobSend(call, device, job, parent, envelope) =>
      if call !in w.calls { PrepareJobPlaced(d, parents, device, job, parent, envelope); }
    case Admit(root, device) => AdmitKeepsPlaced(d, parents, root, device);
    case Complete(call) =>
      if call in w.calls && w.calls[call].progress.Egressed? { CompleteKeepsPlaced(w, call, parents); }
    case _ =>
      StepRests(w, e, parents);
      OthersStayPlaced(d, d', parents, Moved(w, e));
  }

  // ---- What all runs keep ---------------------------------------------------

  predicate AllAgree(parents: map<Id, Id>, events: seq<Event>) {
    forall e :: e in events ==> Agrees(parents, e)
  }

  lemma {:induction false} RunKeepsPlaced(w: World, events: seq<Event>, parents: map<Id, Id>)
    requires AllPlaced(w.db, parents) && AllAgree(parents, events) && Lane(w) && SlotInvariant(w.db)
    ensures AllPlaced(Run(w, events).db, parents)
    decreases |events|
  {
    if events != [] {
      StepKeepsPlaced(w, events[0], parents);
      StepKeepsLane(w, events[0]);
      StepKeepsSlots(w, events[0]);
      RunKeepsPlaced(Step(w, events[0]), events[1..], parents);
    }
  }

  lemma LiveFrameFindsWaiter(w: World, i: nat, parents: map<Id, Id>, reported: Reported)
    requires Lane(w) && StagesAgree(w.db) && AllPlaced(w.db, parents)
    requires i < |w.frames| && w.frames[i].epoch == w.epoch && w.frames[i].handle.op.JobOp?
    requires !Closed(w.db, w.frames[i].handle)
    requires reported == Omitted || reported == Echo(w.frames[i].handle)
    ensures var h := w.frames[i].handle;
            && Pending(w, h.op.id) == Some(h) && h.op in w.db.ops && h.root in w.db.roots
            && (ResultAccepted(w.db, Pending(w, h.op.id), h.device, h.op.id, reported) <==>
                !(w.db.ops[h.op].child && h.root.ServerRoot? && RootDispatching(w.db.roots[h.root])))
  {
  }

  // No result is lost: over every run in which each job keeps its workflow, the
  // device's answer to a frame of this process, the dispatched update done or
  // not, meets the waiter and is accepted. The one exception, exactly, is a child
  // job whose server root is still dispatching.
  lemma ResultFindsWaiter(blocksQueued: bool, events: seq<Event>, parents: map<Id, Id>, i: nat, reported: Reported)
    requires AllAgree(parents, events)
    requires var w := Run(Empty(blocksQueued), events);
             && i < |w.frames| && w.frames[i].epoch == w.epoch && w.frames[i].handle.op.JobOp?
             && !Closed(w.db, w.frames[i].handle)
             && (reported == Omitted || reported == Echo(w.frames[i].handle))
    ensures var w := Run(Empty(blocksQueued), events);
            var h := w.frames[i].handle;
            && Pending(w, h.op.id) == Some(h) && h.op in w.db.ops && h.root in w.db.roots
            && (ResultAccepted(w.db, Pending(w, h.op.id), h.device, h.op.id, reported) <==>
                !(w.db.ops[h.op].child && h.root.ServerRoot? && RootDispatching(w.db.roots[h.root])))
  {
    RunKeepsLane(Empty(blocksQueued), events);
    RunKeepsPlaced(Empty(blocksQueued), events, parents);
    LiveFrameFindsWaiter(Run(Empty(blocksQueued), events), i, parents, reported);
  }

  // ---- ... and the exception is met

  // A first child job of a server workflow, authorised and not yet completed.
  predicate ChildBegun(w: World, call: Id, device: Id, job: Id, parent: Id) {
    var key, op := ServerRoot(parent), JobOp(job);
    && key in w.db.roots && w.db.roots[key].device == device && w.db.roots[key].generation == 1
    && w.db.roots[key].state.Dispatching? && w.db.roots[key].furthest.WasDispatching?
    && op in w.db.ops && ChildHandle(device, job, parent) == OpHandle(w.db, op) && w.db.ops[op].child
    && w.db.ops[op].state.Dispatching? && w.db.ops[op].furthest.WasDispatching?
    && call in w.calls && w.calls[call].handle == ChildHandle(device, job, parent)
    && w.calls[call].device == device && w.calls[call].child
  }

  function ChildHandle(device: Id, job: Id, parent: Id): Handle {
    Handle(ServerRoot(parent), device, 1, JobOp(job))
  }

  function Admitted(blocksQueued: bool, device: Id, parent: Id): World {
    Step(Empty(blocksQueued), Admit(ServerRoot(parent), device))
  }

  lemma ChildBegins(blocksQueued: bool, call: Id, device: Id, job: Id, parent: Id, envelope: Value)
    ensures var w := Step(Admitted(blocksQueued, device, parent),
                          PrepareJobSend(call, device, job, Some(parent), envelope));
            && ChildBegun(w, call, device, job, parent) && w.calls[call].progress.Permitted?
            && w.waiters == map[] && w.frames == [] && w.epoch == 0
  {
    var d, key, op := Admitted(blocksQueued, device, parent).db, ServerRoot(parent), JobOp(job);
    assert d.roots == map[key := Root(device, 0, 0, Initial, Waiting, 0)] && d.ops.Keys == {WorkflowOp(parent)};
    assert !SlotTaken(d, device, key) && IsOldest(d, device, key);
    var d2 := UpsertOp(d, op, key, Some(true), Some(envelope));
    assert d2.ops[op] == Operation(key, device, 0, Initial, Waiting, true, Some(envelope));
    assert JobDecision(d2, device, key, op, true).Authorised?;
  }

  lemma ChildWrites(w: World, call: Id, device: Id, job: Id, parent: Id)
    requires ChildBegun(w, call, device, job, parent) && w.calls[call].progress.Permitted?
    requires w.waiters == map[] && w.frames == []
    ensures var w', h := Step(w, Egress(call, true)), ChildHandle(device, job, parent);
            && ChildBegun(w', call, device, job, parent) && w'.calls[call].progress == Egressed(true)
            && w'.frames == [Frame(h, w.epoch)] && Pending(w', job) == Some(h) && w'.epoch == w.epoch
  {
  }

  lemma ChildAnswered(w: World, call: Id, device: Id, job: Id, parent: Id, success: bool)
    requires ChildBegun(w, call, device, job, parent) && w.calls[call].progress == Egressed(true)
    requires Pending(w, job) == Some(ChildHandle(device, job, parent))
    ensures var h := ChildHandle(device, job, parent);
            var w' := Step(w, Complete(call));
            && Step(w, Result(device, job, Echo(h), success)) == w
            && ResultAccepted(w'.db, Pending(w', job), device, job, Echo(h))
  {
  }

  // A reachable loss: the device answers the frame of a workflow's first child job
  // before the send's second transaction, and nothing changes; the same answer is
  // accepted right after that transaction.
  lemma EarlyChildResultDropped(blocksQueued: bool, call: Id, device: Id, job: Id, parent: Id, envelope: Value,
                                success: bool)
    ensures var send := PrepareJobSend(call, device, job, Some(parent), envelope);
            var h := ChildHandle(device, job, parent);
            var w := Run(Empty(blocksQueued),
                         [Admit(ServerRoot(parent), device)] + ([send] + ([Egress(call, true)] + [])));
            var w' := Step(w, Complete(call));
            && w.frames == [Frame(h, w.epoch)] && Pending(w, job) == Some(h)
            && Step(w, Result(device, job, Echo(h), success)) == w
            && ResultAccepted(w'.db, Pending(w', job), device, job, Echo(h))
  {
    var admit, send := Admit(ServerRoot(parent), device), PrepareJobSend(call, device, job, Some(parent), envelope);
    var w1 := Step(Empty(blocksQueued), admit);
    var w2 := Step(w1, send);
    var w3 := Step(w2, Egress(call, true));
    RunFrom(Empty(blocksQueued), admit, [send] + ([Egress(call, true)] + []));
    RunFrom(w1, send, [Egress(call, true)] + []);
    RunFrom(w2, Egress(call, true), []);
    ChildBegins(blocksQueued, call, device, job, parent, envelope);
    ChildWrites(w2, call, device, job, parent);
    ChildAnswered(w3, call, device, job, parent, success);
  }

  // ---- A result is delivered at most once -----------------------------------

  predicate DeliveredEnded(w: World) {
    && (forall i :: 0 <= i < |w.delivered| ==>
          JobOp(w.delivered[i]) in w.db.ops && Terminal(w.db.ops[JobOp(w.delivered[i])].state))
    && (forall i, j :: 0 <= i < j < |w.delivered| ==> w.delivered[i] != w.delivered[j])
  }

  lemma StepKeepsDelivered(w: World, e: Event)
    requires DeliveredEnded(w)
    ensures DeliveredEnded(Step(w, e))
  {
    StepMovesOps(w, e);
    var w' := Step(w, e);
    assert w'.delivered == w.delivered || (e.Result? && w'.delivered == w.delivered + [e.job]);
    if w'.delivered != w.delivered {
      assert ResultAccepted(w.db, Pending(w, e.job), e.device, e.job, e.reported);
    }
  }

  lemma {:induction false} RunKeepsDelivered(w: World, events: seq<Event>)
    requires DeliveredEnded(w)
    ensures DeliveredEnded(Run(w, events))
    decreases |events|
  {
    if events != [] {
      StepKeepsDelivered(w, events[0]);
      RunKeepsDelivered(Step(w, events[0]), events[1..]);
    }
  }

  lemma ResultDeliveredOnce(blocksQueued: bool, events: seq<Event>, i: nat, j: nat)
    requires i < j < |Run(Empty(blocksQueued), events).delivered|
    ensures var delivered := Run(Empty(blocksQueued), events).delivered; delivered[i] != delivered[j]
  {
    RunKeepsDelivered(Empty(blocksQueued), events);
  }

  // ---- What results and losses do to the device ------------------------------

  // An accepted result ends its job as the device reported it, and the root of a
  // standalone job alike; a child's root, every other row, the running sends and
  // the wire stay as they were, and of the waiters only the job's own goes.
  lemma ResultEnds(w: World, device: Id, job: Id, reported: Reported, success: bool)
    requires ResultAccepted(w.db, Pending(w, job), device, job, reported)
    ensures var w', o := JobResult(w, device, job, reported, success), w.db.ops[JobOp(job)];
            var ended := if success then Completed else Failed;
            && w'.db.ops.Keys == w.db.ops.Keys && w'.db.roots.Keys == w.db.roots.Keys && o.root in w.db.roots
            && w'.db.ops[JobOp(job)] == o.(state := ended)
            && (forall op :: op in w.db.ops && op != JobOp(job) ==> w'.db.ops[op] == w.db.ops[op])
            && (forall k :: k in w.db.roots && k != o.root ==> w'.db.roots[k] == w.db.roots[k])
            && (if o.child && o.root.ServerRoot? then w'.db.roots[o.root] == w.db.roots[o.root]
                else w'.db.roots[o.root] == w.db.roots[o.root].(state := ended, touched := w.db.clock))
            && w'.waiters == w.waiters - {job} && w'.delivered == w.delivered + [job]
            && w'.calls == w.calls && w'.frames == w.frames && w'.epoch == w.epoch
  {
  }

  // With it a standalone job frees its device; a child job leaves its root where it was.
  lemma ResultFreesDevice(w: World, device: Id, job: Id, reported: Reported, success: bool)
    requires SlotInvariant(w.db) && OneActive(w.db)
    requires ResultAccepted(w.db, Pending(w, job), device, job, reported)
    ensures var w', o := JobResult(w, device, job, reported, success), w.db.ops[JobOp(job)];
            var ended := if success then Completed else Failed;
            && Pending(w', job).None? && w'.delivered == w.delivered + [job] && JobOp(job) in w'.db.ops
            && w'.db.ops[JobOp(job)].state == ended
            && if o.child && o.root.ServerRoot? then w'.db.roots == w.db.roots
               else && o.root in w'.db.roots && w'.db.roots[o.root].state == ended
                    && (forall a :: !ActiveOn(w'.db, device, a))
                    && forall k :: IsOldest(w'.db, device, k) ==> Claimable(w'.db, device, k)
  {
  }

  // What is never accepted: a result of another device, one whose handle is not the
  // row's, or missing where no permit is waiting, one the waiting permit does not
  // fit, and one for a job or root that is over or not sent.
  lemma AcceptedMeans(d: Db, pending: Option<Handle>, device: Id, job: Id, reported: Reported)
    requires ResultAccepted(d, pending, device, job, reported)
    ensures JobOp(job) in d.ops && d.ops[JobOp(job)].root in d.roots
    ensures var o := d.ops[JobOp(job)];
            var r, h := d.roots[o.root], Handle(o.root, o.device, o.generation, JobOp(job));
            && r.device == device && o.device == device && r.generation == o.generation
            && !Terminal(o.state) && InFlight(r.state) && (r.furthest.WasDispatching? || r.furthest.WasDispatched?)
            && (pending.Some? ==> pending == Some(h))
            && (reported == Echo(h) || (reported.Omitted? && pending.Some?))
            && !(o.child && o.root.ServerRoot? && r.furthest.WasDispatching?)
  {
  }

  // A result that is not accepted changes nothing at all.
  lemma RefusedResultChangesNothing(w: World, device: Id, job: Id, reported: Reported, success: bool)
    ensures ResultAccepted(w.db, Pending(w, job), device, job, reported)
            || JobResult(w, device, job, reported, success) == w
  {
  }

  // A waiter is given up only when its job cannot be accepted any more. A child
  // that timed out fails alone; otherwise the root is over, or fails closed: it
  // stays active, by hand to resolve, and nothing else can enter its device.
  lemma LostWaiterFailsClosed(w: World, job: Id, timeout: bool)
    requires Lane(w) && StagesAgree(w.db) && Pending(w, job).Some?
    ensures var w', h := WaiterGone(w, job, timeout), Pending(w, job).value;
            if job in w'.waiters then w' == w
            else if timeout && h.root.ServerRoot? then
              w'.db.roots == w.db.roots && h.op in w'.db.ops && w'.db.ops[h.op].state.Failed?
            else
              && h.root in w.db.roots && h.root in w'.db.roots && Rank(w'.db.roots[h.root].state) == 4
              && (Manual(w'.db.roots[h.root].state) ==> forall k :: !Claimable(w'.db, h.device, k))
              // Ended roots stay; one whose send was not over is blocked, others are to be reconciled.
              && match w.db.roots[h.root].state
                 case Completed => w'.db == w.db
                 case Failed => w'.db == w.db
                 case Cancelled => w'.db == w.db
                 case Dispatching => w'.db.roots[h.root].state.Blocked?
                 case Initial => w'.db.roots[h.root].state.Blocked? && w.db.blocksQueued
                 case _ => w'.db.roots[h.root].state.Reconciling?
  {
  }

  // The operation goes the way of its root.
  lemma LostWaiterOperation(w: World, job: Id, timeout: bool)
    requires Lane(w) && StagesAgree(w.db) && Pending(w, job).Some?
    ensures var w', h := WaiterGone(w, job, timeout), Pending(w, job).value;
            job !in w'.waiters && !(timeout && h.root.ServerRoot?) && h.root in w.db.roots
            && !Terminal(w.db.roots[h.root].state) ==>
              && h.op in w.db.ops && h.op in w'.db.ops
              && match w.db.ops[h.op].state
                 case Dispatching => w'.db.ops[h.op] == w.db.ops[h.op].(state := Blocked, furthest := WasDispatched)
                 case Dispatched => w'.db.ops[h.op] == w.db.ops[h.op].(state := Reconciling, furthest := WasDispatched)
                 case Claimed => w'.db.ops[h.op] == w.db.ops[h.op].(state := Reconciling, furthest := WasDispatched)
                 case _ => w'.db.ops[h.op] == w.db.ops[h.op]
  {
    WaiterHeld(w, job);
  }

  // When the ledger confirms a loss. For a child that timed out: its operation is
  // sent, the permit names it, and its root is in flight under the permit's
  // generation. Otherwise: the root is over, or is the permit's, generation
  // included, and has a way to a state to be resolved by hand.
  lemma LossMeans(d: Db, h: Handle, timeout: bool)
    ensures timeout && h.root.ServerRoot? ==>
              (LossConfirmed(d, h, timeout) <==>
                && h.op in d.ops && h == OpHandle(d, h.op) && d.ops[h.op].child && d.ops[h.op].root in d.roots
                && (d.ops[h.op].state.Dispatching? || d.ops[h.op].state.Dispatched?)
                && d.roots[h.root].device == h.device && d.roots[h.root].generation == h.generation
                && (d.roots[h.root].state.Initial? || InFlight(d.roots[h.root].state)))
    ensures !(timeout && h.root.ServerRoot?) ==>
              (LossConfirmed(d, h, timeout) <==>
                && h.root in d.roots && d.roots[h.root].device == h.device
                && (Terminal(d.roots[h.root].state)
                    || (d.roots[h.root].generation == h.generation
                        && (InFlight(d.roots[h.root].state) || (d.roots[h.root].state.Initial? && d.blocksQueued)))))
  {
  }

  // Whatever the loss of a waiter does, it does to the rows of its permit, and to
  // the job's own waiter.
  lemma LostWaiterElsewhere(w: World, job: Id, timeout: bool, root: RootKey, op: OpKey)
    ensures var w' := WaiterGone(w, job, timeout);
            && w'.calls == w.calls && w'.frames == w.frames && w'.delivered == w.delivered
            && (w'.waiters == w.waiters || w'.waiters == w.waiters - {job})
            && (root in w.db.roots && (Pending(w, job).None? || root != Pending(w, job).value.root) ==>
                  root in w'.db.roots && w'.db.roots[root] == w.db.roots[root])
            && (op in w.db.ops && (Pending(w, job).None? || op != Pending(w, job).value.op) ==>
                  op in w'.db.ops && w'.db.ops[op] == w.db.ops[op])
  {
  }
}
