/**
 The device execution ledger in enforced mode: what PostgreSQL holds (roots,
 operations), what one server process holds (running sends, result waiters),
 and the wire. Every transaction, every in-memory stretch between two awaits
 and every crash is one event; `Step` is deterministic, and all nondeterminism
 (order of events, whether a socket took a frame, what a device reports) is in
 the events, so a run is a sequence of events.

 The lifecycle rows (which status is initial, terminal or manual, and which
 automatic transitions exist) are those the repository configures for its own
 database tests.
 */
module Ledger {
  import opened Json

  type Id = string

  // ---- Lifecycle ------------------------------------------------------------

  // Initial is "queued" for a root and "registered" for an operation.
  datatype State = Initial | Claimed | Dispatching | Dispatched | Blocked | Reconciling
                 | Completed | Failed | Cancelled

  predicate Terminal(s: State) { s.Completed? || s.Failed? || s.Cancelled? }

  // The non-terminal manual states: only recovery or an administrator leaves them.
  predicate Manual(s: State) { s.Blocked? || s.Reconciling? }

  predicate Active(s: State) { !s.Initial? && !Terminal(s) }

  predicate InFlight(s: State) { Active(s) && !Manual(s) }

  // The automatic transition to a non-terminal manual state. Whether a queued
  // root has one is left to the configuration.
  function AmbiguousTarget(s: State, blocksQueued: bool): Option<State> {
    match s
    case Claimed => Some(Reconciling)
    case Dispatching => Some(Blocked)
    case Dispatched => Some(Reconciling)
    case Initial => if blocksQueued then Some(Blocked) else None
    case _ => None
  }

  // How far the timestamps of a row have got: claimed_at, dispatching_at, dispatched_at.
  datatype Stage = Waiting | WasClaimed | WasDispatching | WasDispatched

  // ---- Rows -----------------------------------------------------------------

  // (root_kind, external_id) is unique and identifies a root.
  datatype RootKey = JobRoot(id: Id) | ServerRoot(id: Id) | EdgeRoot(id: Id)

  // (operation_kind, operation_id) is unique and identifies an operation.
  datatype OpKey = JobOp(id: Id) | WorkflowOp(id: Id)

  datatype Root = Root(device: Id, fifo: nat, generation: nat, state: State, furthest: Stage, touched: nat)

  datatype Operation = Operation(root: RootKey, device: Id, generation: nat, state: State, furthest: Stage,
                                 child: bool, envelope: Option<Value>)

  datatype Handle = Handle(root: RootKey, device: Id, generation: nat, op: OpKey)

  // ---- Process memory and wire ----------------------------------------------

  datatype Progress = Permitted | Egressed(sent: bool) | Settled(sent: bool)

  // One running send that holds a permit. `child` says that its boundary
  // requires an existing root.
  datatype Call = Call(handle: Handle, device: Id, child: bool, progress: Progress)

  datatype Waiter = Waiter(permit: Option<Handle>)

  datatype Frame = Frame(handle: Handle, epoch: nat)

  // The tables. `clock` orders updated_at; `nextFifo` is the identity sequence.
  datatype Db = Db(blocksQueued: bool, roots: map<RootKey, Root>, ops: map<OpKey, Operation>, nextFifo: nat, clock: nat)

  datatype World = World(db: Db, calls: map<Id, Call>, waiters: map<Id, Waiter>,
                         frames: seq<Frame>, epoch: nat, delivered: seq<Id>)

  function Empty(blocksQueued: bool): World {
    World(Db(blocksQueued, map[], map[], 0, 0), map[], map[], [], 0, [])
  }

  // ---- Timestamps -----------------------------------------------------------

  predicate RootInitialPhase(r: Root) { r.furthest.Waiting? && !Terminal(r.state) && !Manual(r.state) }
  predicate RootDispatching(r: Root) { r.furthest.WasDispatching? && !Terminal(r.state) }
  predicate RootDispatched(r: Root) { r.furthest.WasDispatched? && !Terminal(r.state) }
  predicate OpDispatching(o: Operation) { o.furthest.WasDispatching? && !Terminal(o.state) }
  predicate OpDispatched(o: Operation) { o.furthest.WasDispatched? && !Terminal(o.state) }

  // ---- Row updates ----------------------------------------------------------

  function SetRoot(d: Db, key: RootKey, r: Root): Db {
    d.(roots := d.roots[key := r.(touched := d.clock)], clock := d.clock + 1)
  }

  function SetOp(d: Db, key: OpKey, o: Operation): Db {
    d.(ops := d.ops[key := o])
  }

  function AdmitRoot(d: Db, key: RootKey, device: Id): Db {
    if key in d.roots then d
    else SetRoot(d, key, Root(device, d.nextFifo, 0, Initial, Waiting, 0)).(nextFifo := d.nextFifo + 1)
  }

  function RootOperation(key: RootKey): OpKey {
    if key.JobRoot? then JobOp(key.id) else WorkflowOp(key.id)
  }

  // INSERT ... ON CONFLICT (operation_kind, operation_id) DO UPDATE ... WHERE root_id is the same.
  function UpsertOp(d: Db, key: OpKey, root: RootKey, child: Option<bool>, envelope: Option<Value>): (d': Db)
    requires root in d.roots
    ensures key in d'.ops && d'.roots == d.roots && d'.nextFifo == d.nextFifo && d'.blocksQueued == d.blocksQueued
  {
    var r := d.roots[root];
    if key !in d.ops then
      SetOp(d, key, Operation(root, r.device, r.generation, Initial, Waiting, child.Some? && child.value, envelope))
    else
      var o := d.ops[key];
      if o.root != root then d
      else SetOp(d, key, o.(generation := if o.state.Initial? then r.generation else o.generation,
                            child := if child.Some? then child.value else o.child,
                            envelope := if o.envelope.Some? then o.envelope else envelope))
  }

  // From queued (which takes the next owner generation) or claimed to dispatching.
  function BeginRoot(d: Db, key: RootKey): (d': Db)
    requires key in d.roots
    ensures d'.roots.Keys == d.roots.Keys && d'.ops == d.ops && d'.nextFifo == d.nextFifo
            && d'.blocksQueued == d.blocksQueued
  {
    var r := d.roots[key];
    if r.state.Initial? then
      SetRoot(d, key, r.(state := Dispatching, furthest := WasDispatching, generation := r.generation + 1))
    else if r.state.Claimed? then
      SetRoot(d, key, r.(state := Dispatching, furthest := WasDispatching))
    else d
  }

  function FinishRoot(d: Db, key: RootKey): (d': Db)
    requires key in d.roots
    ensures d'.roots.Keys == d.roots.Keys && d'.ops == d.ops && d'.nextFifo == d.nextFifo
            && d'.blocksQueued == d.blocksQueued
  {
    var r := d.roots[key];
    if r.state.Dispatching? then SetRoot(d, key, r.(state := Dispatched, furthest := WasDispatched)) else d
  }

  function FinishOp(d: Db, key: OpKey): (d': Db)
    requires key in d.ops
    ensures d'.ops.Keys == d.ops.Keys && d'.roots == d.roots && d'.nextFifo == d.nextFifo
            && d'.blocksQueued == d.blocksQueued
  {
    var o := d.ops[key];
    if o.state.Dispatching? then SetOp(d, key, o.(state := Dispatched, furthest := WasDispatched)) else d
  }

  function BlockRoot(d: Db, key: RootKey): (d': Db)
    requires key in d.roots
    ensures d'.roots.Keys == d.roots.Keys && d'.ops == d.ops && d'.nextFifo == d.nextFifo
            && d'.blocksQueued == d.blocksQueued
  {
    var r := d.roots[key];
    var target := AmbiguousTarget(r.state, d.blocksQueued);
    if target.Some? then SetRoot(d, key, r.(state := target.value)) else d
  }

  // Registered operations have no transition to a manual state. Leaving
  // dispatching this way also stamps dispatched_at.
  function BlockOp(d: Db, key: OpKey): (d': Db)
    ensures d'.ops.Keys == d.ops.Keys && d'.roots == d.roots && d'.nextFifo == d.nextFifo
            && d'.blocksQueued == d.blocksQueued
  {
    if key !in d.ops then d
    else
      var o := d.ops[key];
      var target := AmbiguousTarget(o.state, false);
      if target.Some? then SetOp(d, key, o.(state := target.value, furthest := WasDispatched)) else d
  }

  function OpHandle(d: Db, key: OpKey): Handle
    requires key in d.ops
  {
    var o := d.ops[key];
    Handle(o.root, o.device, o.generation, key)
  }

  // ---- Queries --------------------------------------------------------------

  predicate ActiveOn(d: Db, device: Id, key: RootKey) {
    key in d.roots && d.roots[key].device == device && Active(d.roots[key].state)
  }

  predicate QueuedOn(d: Db, device: Id, key: RootKey) {
    key in d.roots && d.roots[key].device == device && d.roots[key].state.Initial?
  }

  predicate MostRecentActive(d: Db, device: Id, key: RootKey) {
    ActiveOn(d, device, key)
    && forall b | b in d.roots :: ActiveOn(d, device, b) ==> d.roots[b].touched <= d.roots[key].touched
  }

  // The most recently updated active root of the device is another root.
  predicate SlotTaken(d: Db, device: Id, key: RootKey) {
    exists a | a in d.roots :: MostRecentActive(d, device, a) && a != key
  }

  predicate IsOldest(d: Db, device: Id, key: RootKey) {
    QueuedOn(d, device, key)
    && forall k | k in d.roots :: QueuedOn(d, device, k) ==> d.roots[key].fifo <= d.roots[k].fifo
  }

  // ---- First transactions ---------------------------------------------------

  datatype Decision = MissingRoot | WrongDevice | SlotBusy | AlreadyTerminal | Ambiguous
                    | AlreadyDispatched | NotOldest | NotRegistered | Authorised

  // What a first transaction commits, and the permit it hands to its caller, if any.
  datatype Prepared = Prepared(db: Db, decision: Decision, permit: Option<Handle>)

  // A registered operation moves to dispatching under the root's generation.
  function BeginOp(d: Db, op: OpKey, generation: nat): (d': Db)
    requires op in d.ops
    ensures op in d'.ops && d'.roots == d.roots && d'.nextFifo == d.nextFifo && d'.blocksQueued == d.blocksQueued
  {
    if !d.ops[op].state.Initial? then d
    else SetOp(d, op, d.ops[op].(state := Dispatching, furthest := WasDispatching, generation := generation))
  }

  // What a decision writes on top of the admitted root and registered operation.
  function Commit(d: Db, key: RootKey, op: OpKey, decision: Decision): Prepared
    requires key in d.roots && op in d.ops
  {
    match decision
    case Authorised =>
      var d1 := BeginRoot(d, key);
      var d2 := BeginOp(d1, op, d1.roots[key].generation);
      Prepared(d2, Authorised, Some(OpHandle(d2, op)))
    case NotRegistered => Prepared(BeginRoot(d, key), NotRegistered, None)
    case _ => Prepared(d, decision, None)
  }

  function JobRootKey(job: Id, parent: Option<Id>): RootKey {
    if parent.Some? then ServerRoot(parent.value) else JobRoot(job)
  }

  // Why the permit lane authorises, or not, once root and operation rows are written.
  function JobDecision(d: Db, device: Id, key: RootKey, op: OpKey, child: bool): Decision
    requires key in d.roots && op in d.ops
  {
    var r := d.roots[key];
    if SlotTaken(d, device, key) then SlotBusy
    else if Terminal(r.state) then AlreadyTerminal
    else if Manual(r.state) then Ambiguous
    else if RootDispatched(r) && !child then AlreadyDispatched
    else if RootInitialPhase(r) && !IsOldest(d, device, key) then NotOldest
    else if !d.ops[op].state.Initial? then NotRegistered
    else Authorised
  }

  // runStandaloneJobEgress. `parent` is the server workflow of a child job.
  function PrepareJob(d: Db, device: Id, job: Id, parent: Option<Id>, envelope: Value): Prepared {
    var key, op := JobRootKey(job, parent), JobOp(job);
    if key !in d.roots && parent.Some? then Prepared(d, MissingRoot, None)
    else
      var d1 := AdmitRoot(d, key, device);
      if d1.roots[key].device != device then Prepared(d1, WrongDevice, None)
      else
        var d2 := UpsertOp(d1, op, key, Some(parent.Some?), Some(envelope));
        Commit(d2, key, op, JobDecision(d2, device, key, op, parent.Some?))
  }

  // Why the edge workflow lane authorises, or not, once the root is known to be live.
  function EdgeDecision(d: Db, device: Id, key: RootKey): Decision
    requires key in d.roots
  {
    var r := d.roots[key];
    if RootInitialPhase(r) && SlotTaken(d, device, key) then SlotBusy
    else if RootInitialPhase(r) && !IsOldest(d, device, key) then NotOldest
    else Authorised
  }

  // runObservedEgress for an edge workflow. The operation moves to dispatching
  // if it is registered, and is used as it is otherwise.
  function PrepareEdge(d: Db, device: Id, workflow: Id, envelope: Value): Prepared {
    var key, op := EdgeRoot(workflow), WorkflowOp(workflow);
    var d1 := AdmitRoot(d, key, device);
    var r := d1.roots[key];
    if r.device != device then Prepared(d1, WrongDevice, None)
    else if Terminal(r.state) then Prepared(d1, AlreadyTerminal, None)
    else if Manual(r.state) then Prepared(d1, Ambiguous, None)
    else
      var d2 := UpsertOp(d1, op, key, Some(false), Some(envelope));
      Commit(d2, key, op, EdgeDecision(d2, device, key))
  }

  // ---- Second transactions --------------------------------------------------

  predicate SameOwner(d: Db, c: Call)
    requires c.handle.root in d.roots && c.handle.op in d.ops
  {
    var r, o := d.roots[c.handle.root], d.ops[c.handle.op];
    r.device == c.device && o.root == c.handle.root && o.device == c.device
    && r.generation == c.handle.generation && o.generation == c.handle.generation
  }

  function CompleteJob(d: Db, c: Call, sent: bool): Db {
    var key, op := c.handle.root, c.handle.op;
    if key !in d.roots || op !in d.ops || !SameOwner(d, c) then d
    else
      var r := d.roots[key];
      if Terminal(r.state) || (c.child && RootDispatched(r) && Terminal(d.ops[op].state)) then d
      else if !RootDispatching(r) && !(c.child && RootDispatched(r)) then d
      else if !sent then BlockOp(BlockRoot(d, key), op)
      else if RootDispatched(r) then FinishOp(d, op)
      else if r.state.Dispatching? then FinishOp(FinishRoot(d, key), op)
      else d
  }

  function CompleteEdge(d: Db, c: Call, sent: bool): Db {
    var key, op := c.handle.root, c.handle.op;
    if key !in d.roots || op !in d.ops then d
    else
      var r := d.roots[key];
      if SameOwner(d, c) && Terminal(r.state) && Terminal(d.ops[op].state) then d
      else if sent then FinishOp(FinishRoot(d, key), op)
      else if r.device == c.device && r.generation == c.handle.generation then BlockOp(BlockRoot(d, key), op)
      else BlockOp(d, op)
  }

  // ---- Results --------------------------------------------------------------

  datatype Reported = Omitted | Malformed | Echo(handle: Handle)

  // acceptJobResult, with the permit of the waiter pending for the job, if any.
  predicate ResultAccepted(d: Db, pending: Option<Handle>, device: Id, job: Id, reported: Reported) {
    JobOp(job) in d.ops &&
    var o, h := d.ops[JobOp(job)], OpHandle(d, JobOp(job));
    var key := if pending.Some? then pending.value.root else o.root;
    key in d.roots &&
    var r := d.roots[key];
    InFlight(r.state)
    && (pending.Some? ==> pending.value == h)
    && !reported.Malformed?
    && (reported.Omitted? ==> pending.Some?)
    && (reported.Echo? ==> reported.handle == h)
    && o.root == key && r.device == device && o.device == device && r.generation == o.generation
    && ((OpDispatching(o) && (RootDispatching(r) || RootDispatched(r))) || (OpDispatched(o) && RootDispatched(r)))
       // For a child under a dispatching root two automatic transitions match and the transaction throws.
    && !(o.child && key.ServerRoot? && RootDispatching(r))
  }

  function AcceptResult(d: Db, job: Id, success: bool): Db
    requires JobOp(job) in d.ops && d.ops[JobOp(job)].root in d.roots
  {
    var o := d.ops[JobOp(job)];
    var to := if success then Completed else Failed;
    var d1 := if o.child && o.root.ServerRoot? then d else SetRoot(d, o.root, d.roots[o.root].(state := to));
    SetOp(d1, JobOp(job), o.(state := to))
  }

  // ---- Ambiguity: result timeout or disconnect ------------------------------

  // markAmbiguous answers "transition applied".
  predicate AmbiguityConfirmed(d: Db, h: Handle) {
    h.root in d.roots &&
    var r := d.roots[h.root];
    r.device == h.device &&
    (Terminal(r.state) || (r.generation == h.generation && AmbiguousTarget(r.state, d.blocksQueued).Some?))
  }

  function MarkAmbiguous(d: Db, h: Handle): Db
    requires h.root in d.roots
  {
    if Terminal(d.roots[h.root].state) then d else BlockOp(BlockRoot(d, h.root), h.op)
  }

  // expireServerWorkflowChild answers "transition applied".
  predicate ChildExpires(d: Db, h: Handle) {
    h.op in d.ops && d.ops[h.op].root in d.roots &&
    var o := d.ops[h.op];
    var r := d.roots[o.root];
    o.child && o.root.ServerRoot? && r.device == h.device && h == OpHandle(d, h.op) && o.generation == r.generation
    && !Terminal(r.state) && !Manual(r.state) && (o.state.Dispatching? || o.state.Dispatched?)
  }

  // ---- Other writers --------------------------------------------------------

  predicate Claimable(d: Db, device: Id, key: RootKey) {
    IsOldest(d, device, key) && forall a | a in d.roots :: !ActiveOn(d, device, a)
  }

  function ClaimRoot(d: Db, key: RootKey): Db
    requires key in d.roots
  {
    SetRoot(d, key, d.roots[key].(state := Claimed, furthest := WasClaimed, generation := d.roots[key].generation + 1))
  }

  // Any authority that ends a root: its own terminal report, cancellation, an
  // administrator, or evidence-based recovery. `done` are operations it closes with it.
  function ResolveRoot(d: Db, key: RootKey, to: State, done: set<OpKey>): Db {
    if key in d.roots && !Terminal(d.roots[key].state) && Terminal(to) then
      SetRoot(d, key, d.roots[key].(state := to))
        .(ops := map o | o in d.ops :: if o in done && d.ops[o].root == key then d.ops[o].(state := to) else d.ops[o])
    else d
  }

  // markCorruptQueueHead
  function MarkCorrupt(d: Db, key: RootKey, generation: nat, op: Id): Db {
    if key in d.roots && d.roots[key].generation == generation then BlockOp(BlockRoot(d, key), JobOp(op)) else d
  }

  function ReconciledOp(o: Operation): Operation {
    var target := AmbiguousTarget(o.state, false);
    if target.Some? then o.(state := target.value) else o
  }

  // reconcileInFlightAtStartup: every in-flight root, and its operations, become manual.
  function ReconcileInFlight(d: Db): Db {
    d.(roots := map k | k in d.roots ::
         if InFlight(d.roots[k].state)
         then d.roots[k].(state := AmbiguousTarget(d.roots[k].state, d.blocksQueued).value, touched := d.clock)
         else d.roots[k],
       ops := map o | o in d.ops ::
         if d.ops[o].root in d.roots && InFlight(d.roots[d.ops[o].root].state) then ReconciledOp(d.ops[o])
         else d.ops[o],
       clock := d.clock + 1)
  }
}
