/**
 One device, one root at a time, in FIFO order: what every run of the protocol keeps.

 `StepMovesRoots` reads off, from each of the events, the few ways a root row can
 change; the invariants below are then about that relation only.
 */
module DeviceSlot {
  import opened Json
  import opened Ledger
  import opened Protocol

  // ---- How one event may change the roots -----------------------------------

  // How far a send has got; manual and terminal states come last.
  function Rank(s: State): nat {
    match s
    case Initial => 0
    case Claimed => 1
    case Dispatching => 2
    case Dispatched => 3
    case _ => 4
  }

  // From `r` to `s`, once the row exists. Leaving the queue for the slot is the
  // only change of generation; nothing goes back, and a terminal state is final.
  predicate Moves(r: Root, s: Root) {
    && s.device == r.device && s.fifo == r.fifo
    && s.generation == r.generation + (if r.state.Initial? && InFlight(s.state) then 1 else 0)
    && Rank(r.state) <= Rank(s.state)
    && (Terminal(r.state) ==> s.state == r.state)
  }

  // The row a root has at the start of the event: its own, or a freshly queued one.
  function Before(d: Db, device: Id, key: RootKey): Root {
    if key in d.roots then d.roots[key] else Root(device, d.nextFifo, 0, Initial, Waiting, d.clock)
  }

  ghost predicate Enters(d: Db, d': Db, key: RootKey) {
    key in d'.roots && InFlight(d'.roots[key].state) && Before(d, d'.roots[key].device, key).state.Initial?
  }

  // The root that enters the slot was the queue's head and the slot was free.
  ghost predicate Fair(d: Db, d': Db, key: RootKey)
    requires key in d'.roots
  {
    var r := d'.roots[key];
    && (forall a :: !ActiveOn(d, r.device, a))
    && (forall a :: QueuedOn(d, r.device, a) ==> r.fifo <= d.roots[a].fifo)
  }

  // A queued root that does not enter the slot stays queued, ends, or is blocked where that is configured.
  predicate StaysOut(d: Db, s: State) {
    !InFlight(s) && (Manual(s) ==> d.blocksQueued)
  }

  // Rows move in place and none enters a slot.
  ghost predicate Settles(d: Db, d': Db) {
    && d'.roots.Keys == d.roots.Keys && d'.nextFifo == d.nextFifo && d'.blocksQueued == d.blocksQueued
    && forall k :: k in d.roots ==> Moves(d.roots[k], d'.roots[k])
                                    && (d.roots[k].state.Initial? ==> StaysOut(d, d'.roots[k].state))
  }

  // One row is written; it may be new, and it may enter the slot if that is fair.
  ghost predicate Advances(d: Db, d': Db, key: RootKey) {
    && key in d'.roots && d'.roots == d.roots[key := d'.roots[key]] && d'.blocksQueued == d.blocksQueued
    && d'.nextFifo == d.nextFifo + (if key in d.roots then 0 else 1)
    && Moves(Before(d, d'.roots[key].device, key), d'.roots[key])
    && (Enters(d, d', key) ==> Fair(d, d', key))
    && (Manual(d'.roots[key].state) ==> Manual(Before(d, d'.roots[key].device, key).state))
  }

  ghost predicate RootMoves(d: Db, d': Db) {
    Settles(d, d') || exists k :: Advances(d, d', k)
  }

  // A nonempty set of roots has a most recently updated one.
  lemma {:induction false} MostRecent(d: Db, s: set<RootKey>) returns (m: RootKey)
    requires s != {} && s <= d.roots.Keys
    ensures m in s && forall k :: k in s ==> d.roots[k].touched <= d.roots[m].touched
  {
    m :| m in s;
    if s != {m} {
      var n := MostRecent(d, s - {m});
      if d.roots[m].touched < d.roots[n].touched { m := n; }
    }
  }

  // With the slot not taken by another root, a root that is not active itself finds no active root at all.
  lemma FreeSlot(d: Db, device: Id, key: RootKey)
    requires !SlotTaken(d, device, key) && !ActiveOn(d, device, key)
    ensures forall a :: !ActiveOn(d, device, a)
  {
    var s := set a | a in d.roots && ActiveOn(d, device, a);
    if s != {} {
      var m := MostRecent(d, s);
      forall b | ActiveOn(d, device, b) ensures d.roots[b].touched <= d.roots[m].touched {
        assert b in s;
      }
      assert MostRecentActive(d, device, m);
    }
    forall a ensures !ActiveOn(d, device, a) {
      assert a in s <==> ActiveOn(d, device, a);
    }
  }

  // ---- Every transaction moves roots that way -------------------------------

  // State and timestamps of a root tell the same story.
  predicate Coherent(r: Root) {
    match r.state
    case Initial => r.furthest.Waiting?
    case Claimed => r.furthest.WasClaimed?
    case Dispatching => r.furthest.WasDispatching?
    case Dispatched => r.furthest.WasDispatched?
    case _ => true
  }

  predicate StagesAgree(d: Db) {
    forall k :: k in d.roots ==> Coherent(d.roots[k])
  }

  // Both relations read the roots only.
  lemma SameSettles(d: Db, d1: Db, d2: Db)
    requires d2.roots == d1.roots && d2.nextFifo == d1.nextFifo && d2.blocksQueued == d1.blocksQueued
    requires Settles(d, d1) && StagesAgree(d1)
    ensures Settles(d, d2) && StagesAgree(d2)
  {
  }

  lemma SameAdvances(d: Db, d1: Db, d2: Db, key: RootKey)
    requires d2.roots == d1.roots && d2.nextFifo == d1.nextFifo && d2.blocksQueued == d1.blocksQueued
    requires Advances(d, d1, key) && StagesAgree(d1)
    ensures Advances(d, d2, key) && StagesAgree(d2)
  {
  }

  lemma Stays(d: Db)
    ensures Settles(d, d)
  {
  }

  lemma AdmitAdvances(d: Db, key: RootKey, device: Id)
    ensures Advances(d, AdmitRoot(d, key, device), key)
    ensures StagesAgree(d) ==> StagesAgree(AdmitRoot(d, key, device))
  {
  }

  lemma BeginIsFair(d: Db, d1: Db, device: Id, key: RootKey)
    requires d1.roots == AdmitRoot(d, key, device).roots
    requires QueuedOn(d1, device, key) && !SlotTaken(d1, device, key) && IsOldest(d1, device, key)
    ensures forall a :: !ActiveOn(d, device, a)
    ensures forall a :: QueuedOn(d, device, a) ==> d1.roots[key].fifo <= d.roots[a].fifo
  {
    FreeSlot(d1, device, key);
    forall a ensures !ActiveOn(d, device, a) {
      assert ActiveOn(d, device, a) ==> ActiveOn(d1, device, a);
    }
    forall a | QueuedOn(d, device, a) ensures d1.roots[key].fifo <= d.roots[a].fifo {
      assert QueuedOn(d1, device, a);
    }
  }

  // Beginning an admitted root after the checks of either first transaction.
  lemma BeginAdvances(d: Db, d1: Db, device: Id, key: RootKey)
    requires d1.roots == AdmitRoot(d, key, device).roots && d1.nextFifo == AdmitRoot(d, key, device).nextFifo
    requires d1.blocksQueued == d.blocksQueued
    requires key in d1.roots && d1.roots[key].device == device && StagesAgree(d)
    requires d1.roots[key].state.Initial? ==> !SlotTaken(d1, device, key) && IsOldest(d1, device, key)
    ensures Advances(d, BeginRoot(d1, key), key) && StagesAgree(BeginRoot(d1, key))
  {
    AdmitAdvances(d, key, device);
    if d1.roots[key].state.Initial? {
      BeginIsFair(d, d1, device, key);
    }
  }

  // The roots a first transaction leaves: untouched, admitted, or admitted and begun.
  lemma CommitAdvances(d: Db, d2: Db, device: Id, key: RootKey, op: OpKey, decision: Decision)
    requires d2.roots == AdmitRoot(d, key, device).roots && d2.nextFifo == AdmitRoot(d, key, device).nextFifo
    requires d2.blocksQueued == d.blocksQueued && StagesAgree(d)
    requires key in d2.roots && d2.roots[key].device == device && op in d2.ops
    requires decision.Authorised? || decision.NotRegistered? ==>
               d2.roots[key].state.Initial? ==> !SlotTaken(d2, device, key) && IsOldest(d2, device, key)
    ensures var d' := Commit(d2, key, op, decision).db; Advances(d, d', key) && StagesAgree(d')
  {
    var d' := Commit(d2, key, op, decision).db;
    if decision.Authorised? || decision.NotRegistered? {
      BeginAdvances(d, d2, device, key);
      SameAdvances(d, BeginRoot(d2, key), d', key);
    } else {
      AdmitAdvances(d, key, device);
      SameAdvances(d, AdmitRoot(d, key, device), d', key);
    }
  }

  lemma PrepareJobAdvances(d: Db, device: Id, job: Id, parent: Option<Id>, envelope: Value)
    requires StagesAgree(d)
    ensures var d' := PrepareJob(d, device, job, parent, envelope).db;
            (d' == d || Advances(d, d', JobRootKey(job, parent))) && StagesAgree(d')
  {
    var key, op := JobRootKey(job, parent), JobOp(job);
    if key in d.roots || parent.None? {
      AdmitAdvances(d, key, device);
      var d1 := AdmitRoot(d, key, device);
      if d1.roots[key].device == device {
        var d2 := UpsertOp(d1, op, key, Some(parent.Some?), Some(envelope));
        CommitAdvances(d, d2, device, key, op, JobDecision(d2, device, key, op, parent.Some?));
      }
    }
  }

  lemma PrepareEdgeAdvances(d: Db, device: Id, workflow: Id, envelope: Value)
    requires StagesAgree(d)
    ensures var d' := PrepareEdge(d, device, workflow, envelope).db;
            Advances(d, d', EdgeRoot(workflow)) && StagesAgree(d')
  {
    var key, op := EdgeRoot(workflow), WorkflowOp(workflow);
    AdmitAdvances(d, key, device);
    var d1 := AdmitRoot(d, key, device);
    var r := d1.roots[key];
    if r.device == device && !Terminal(r.state) && !Manual(r.state) {
      var d2 := UpsertOp(d1, op, key, Some(false), Some(envelope));
      CommitAdvances(d, d2, device, key, op, EdgeDecision(d2, device, key));
    }
  }

  lemma ClaimAdvances(d: Db, key: RootKey)
    requires StagesAgree(d) && key in d.roots && Claimable(d, d.roots[key].device, key)
    ensures Advances(d, ClaimRoot(d, key), key) && StagesAgree(ClaimRoot(d, key))
  {
  }

  lemma BlockSettles(d: Db, key: RootKey)
    requires StagesAgree(d) && key in d.roots
    ensures Settles(d, BlockRoot(d, key)) && StagesAgree(BlockRoot(d, key))
  {
  }

  lemma FinishSettles(d: Db, key: RootKey)
    requires StagesAgree(d) && key in d.roots
    ensures Settles(d, FinishRoot(d, key)) && StagesAgree(FinishRoot(d, key))
  {
  }

  lemma CompleteJobSettles(d: Db, c: Call, sent: bool)
    requires StagesAgree(d)
    ensures Settles(d, CompleteJob(d, c, sent)) && StagesAgree(CompleteJob(d, c, sent))
  {
    var key, d' := c.handle.root, CompleteJob(d, c, sent);
    if key in d.roots {
      BlockSettles(d, key);
      FinishSettles(d, key);
      if d'.roots == BlockRoot(d, key).roots { SameSettles(d, BlockRoot(d, key), d'); }
      else if d'.roots == FinishRoot(d, key).roots { SameSettles(d, FinishRoot(d, key), d'); }
      else { Stays(d); SameSettles(d, d, d'); }
    }
  }

  lemma CompleteEdgeSettles(d: Db, c: Call, sent: bool)
    requires StagesAgree(d)
    ensures Settles(d, CompleteEdge(d, c, sent)) && StagesAgree(CompleteEdge(d, c, sent))
  {
    var key, d' := c.handle.root, CompleteEdge(d, c, sent);
    if key in d.roots {
      BlockSettles(d, key);
      FinishSettles(d, key);
      if d'.roots == BlockRoot(d, key).roots { SameSettles(d, BlockRoot(d, key), d'); }
      else if d'.roots == FinishRoot(d, key).roots { SameSettles(d, FinishRoot(d, key), d'); }
      else { Stays(d); SameSettles(d, d, d'); }
    }
  }

  lemma ConfirmLossSettles(d: Db, h: Handle, timeout: bool)
    requires StagesAgree(d) && LossConfirmed(d, h, timeout)
    ensures Settles(d, ConfirmLoss(d, h, timeout)) && StagesAgree(ConfirmLoss(d, h, timeout))
  {
  }

  lemma AcceptSettles(d: Db, job: Id, success: bool)
    requires StagesAgree(d) && JobOp(job) in d.ops && d.ops[JobOp(job)].root in d.roots
    requires InFlight(d.roots[d.ops[JobOp(job)].root].state)
    ensures Settles(d, AcceptResult(d, job, success)) && StagesAgree(AcceptResult(d, job, success))
  {
  }

  lemma ResultSettles(w: World, device: Id, job: Id, reported: Reported, success: bool)
    requires StagesAgree(w.db)
    ensures var d' := JobResult(w, device, job, reported, success).db; Settles(w.db, d') && StagesAgree(d')
  {
    Stays(w.db);
    if ResultAccepted(w.db, Pending(w, job), device, job, reported) { AcceptSettles(w.db, job, success); }
  }

  lemma ResolveSettles(d: Db, key: RootKey, to: State, done: set<OpKey>)
    requires StagesAgree(d)
    ensures Settles(d, ResolveRoot(d, key, to, done)) && StagesAgree(ResolveRoot(d, key, to, done))
  {
  }

  lemma CorruptSettles(d: Db, key: RootKey, generation: nat, op: Id)
    requires StagesAgree(d)
    ensures Settles(d, MarkCorrupt(d, key, generation, op)) && StagesAgree(MarkCorrupt(d, key, generation, op))
  {
    if key in d.roots {
      BlockSettles(d, key);
      SameSettles(d, BlockRoot(d, key), BlockOp(BlockRoot(d, key), JobOp(op)));
    }
  }

  lemma ReconcileSettles(d: Db)
    requires StagesAgree(d)
    ensures Settles(d, ReconcileInFlight(d)) && StagesAgree(ReconcileInFlight(d))
  {
  }

  lemma RegisterAdvances(d: Db, root: RootKey, device: Id)
    requires StagesAgree(d)
    ensures var d' := UpsertOp(AdmitRoot(d, root, device), RootOperation(root), root, None, None);
            Advances(d, d', root) && StagesAgree(d')
  {
  }

  lemma PrepareMoves(w: World, e: Event)
    requires StagesAgree(w.db) && (e.PrepareJobSend? || e.PrepareEdgeSend?)
    ensures RootMoves(w.db, Step(w, e).db) && StagesAgree(Step(w, e).db)
  {
    Stays(w.db);
    match e
    case PrepareJobSend(call, device, job, parent, envelope) =>
      if call !in w.calls { PrepareJobAdvances(w.db, device, job, parent, envelope); }
    case PrepareEdgeSend(call, device, workflow, envelope) =>
      if call !in w.calls { PrepareEdgeAdvances(w.db, device, workflow, envelope); }
  }

  predicate MayAdvance(e: Event) {
    e.Admit? || e.Claim? || e.PrepareJobSend? || e.PrepareEdgeSend?
  }

  lemma StepAdvances(w: World, e: Event)
    requires StagesAgree(w.db) && MayAdvance(e)
    ensures RootMoves(w.db, Step(w, e).db) && StagesAgree(Step(w, e).db)
  {
    var d, d' := w.db, Step(w, e).db;
    Stays(d);
    match e
    case Admit(root, device) => RegisterAdvances(d, root, device);
    case Claim(root) =>
      if root in d.roots && Claimable(d, d.roots[root].device, root) { ClaimAdvances(d, root); }
    case _ => PrepareMoves(w, e);
  }

  lemma StepSettles(w: World, e: Event)
    requires StagesAgree(w.db) && !MayAdvance(e)
    ensures Settles(w.db, Step(w, e).db) && StagesAgree(Step(w, e).db)
  {
    var d, d' := w.db, Step(w, e).db;
    Stays(d);
    match e
    case Complete(call) =>
      if call in w.calls && w.calls[call].progress.Egressed? {
        CompleteJobSettles(d, w.calls[call], w.calls[call].progress.sent);
        CompleteEdgeSettles(d, w.calls[call], w.calls[call].progress.sent);
      }
    case Result(device, job, reported, success) => ResultSettles(w, device, job, reported, success);
    case LoseWaiter(job, timeout) =>
      var permit := Pending(w, job);
      if permit.Some? && LossConfirmed(d, permit.value, timeout) { ConfirmLossSettles(d, permit.value, timeout); }
    case Resolve(root, to, done) => ResolveSettles(d, root, to, done);
    case Corrupt(root, generation, op) => CorruptSettles(d, root, generation, op);
    case StartupReconcile => ReconcileSettles(d);
    case _ =>
  }

  lemma StepMovesRoots(w: World, e: Event)
    requires StagesAgree(w.db)
    ensures RootMoves(w.db, Step(w, e).db) && StagesAgree(Step(w, e).db)
  {
    if MayAdvance(e) { StepAdvances(w, e); } else { StepSettles(w, e); }
  }

  // ---- What all runs keep ---------------------------------------------------

  // Owner generations count entries into the slot: none in the queue, one afterwards.
  predicate Numbered(d: Db) {
    forall k :: k in d.roots ==>
      && d.roots[k].fifo < d.nextFifo
      && (d.roots[k].state.Initial? ==> d.roots[k].generation == 0)
      && (InFlight(d.roots[k].state) ==> d.roots[k].generation > 0)
  }

  predicate FifoUnique(d: Db) {
    forall j, k :: j in d.roots && k in d.roots && d.roots[j].fifo == d.roots[k].fifo ==> j == k
  }

  predicate OneInFlight(d: Db) {
    forall j, k | j in d.roots && k in d.roots && d.roots[j].device == d.roots[k].device ::
      InFlight(d.roots[j].state) && InFlight(d.roots[k].state) ==> j == k
  }

  // Root `k` has held the slot while `j`, older and of the same device, is still queued.
  predicate Overtakes(d: Db, j: RootKey, k: RootKey) {
    && j in d.roots && k in d.roots && d.roots[j].device == d.roots[k].device
    && d.roots[j].state.Initial? && d.roots[k].generation > 0 && d.roots[j].fifo < d.roots[k].fifo
  }

  ghost predicate InOrder(d: Db) {
    forall j, k :: !Overtakes(d, j, k)
  }

  ghost predicate SlotInvariant(d: Db) {
    StagesAgree(d) && Numbered(d) && FifoUnique(d) && OneInFlight(d) && InOrder(d)
  }

  // No device has two active roots, blocked and reconciling ones included.
  predicate OneActive(d: Db) {
    forall j, k | j in d.roots && k in d.roots && d.roots[j].device == d.roots[k].device ::
      Active(d.roots[j].state) && Active(d.roots[k].state) ==> j == k
  }

  lemma SettlesNumbers(d: Db, d': Db)
    requires SlotInvariant(d) && Settles(d, d')
    ensures Numbered(d') && FifoUnique(d')
  {
  }

  lemma SettlesInPlace(d: Db, d': Db, k: RootKey)
    requires SlotInvariant(d) && Settles(d, d') && k in d'.roots
    ensures k in d.roots && d.roots[k].device == d'.roots[k].device
    ensures InFlight(d'.roots[k].state) ==> InFlight(d.roots[k].state)
    ensures !d.blocksQueued && Active(d'.roots[k].state) ==> Active(d.roots[k].state)
  {
  }

  lemma SettlesExcludes(d: Db, d': Db)
    requires SlotInvariant(d) && Settles(d, d')
    ensures OneInFlight(d') && (!d.blocksQueued && OneActive(d) ==> OneActive(d'))
  {
    forall k | k in d'.roots
      ensures k in d.roots && d.roots[k].device == d'.roots[k].device
      ensures InFlight(d'.roots[k].state) ==> InFlight(d.roots[k].state)
      ensures !d.blocksQueued && Active(d'.roots[k].state) ==> Active(d.roots[k].state)
    {
      SettlesInPlace(d, d', k);
    }
  }

  lemma SettlesOrders(d: Db, d': Db)
    requires SlotInvariant(d) && Settles(d, d')
    ensures InOrder(d')
  {
    forall j, k ensures !Overtakes(d', j, k) {
      assert !Overtakes(d, j, k);
    }
  }

  // A root that enters finds no active root, and no older queued one.
  lemma EntersAlone(d: Db, d': Db, key: RootKey, a: RootKey)
    requires SlotInvariant(d) && Advances(d, d', key) && Enters(d, d', key)
    requires a in d.roots && a != key && d.roots[a].device == d'.roots[key].device
    ensures !Active(d.roots[a].state)
    ensures d.roots[a].state.Initial? ==> d'.roots[key].fifo <= d.roots[a].fifo
  {
    assert !ActiveOn(d, d'.roots[key].device, a);
    assert QueuedOn(d, d'.roots[key].device, a) <==> d.roots[a].state.Initial?;
  }

  lemma AdvancesNumbers(d: Db, d': Db, key: RootKey)
    requires SlotInvariant(d) && Advances(d, d', key)
    ensures Numbered(d') && FifoUnique(d')
  {
  }

  lemma AdvancesExcludes(d: Db, d': Db, key: RootKey)
    requires SlotInvariant(d) && Advances(d, d', key)
    ensures OneInFlight(d') && (OneActive(d) ==> OneActive(d'))
  {
    if Enters(d, d', key) {
      forall a | a in d.roots && a != key && d.roots[a].device == d'.roots[key].device
        ensures !Active(d.roots[a].state)
      {
        EntersAlone(d, d', key, a);
      }
    }
  }

  lemma AdvancesOrders(d: Db, d': Db, key: RootKey)
    requires SlotInvariant(d) && Advances(d, d', key)
    ensures InOrder(d')
  {
    forall j, k | Overtakes(d', j, k) ensures false {
      if k == key && Enters(d, d', key) {
        EntersAlone(d, d', key, j);
      } else if j != key || key in d.roots {
        assert Overtakes(d, j, k);
      }
    }
  }

  lemma StepKeepsSlots(w: World, e: Event)
    requires SlotInvariant(w.db)
    ensures SlotInvariant(Step(w, e).db)
    ensures !w.db.blocksQueued && OneActive(w.db) ==> OneActive(Step(w, e).db)
    ensures Step(w, e).db.blocksQueued == w.db.blocksQueued
  {
    StepMovesRoots(w, e);
    var d, d' := w.db, Step(w, e).db;
    if Settles(d, d') {
      SettlesNumbers(d, d');
      SettlesExcludes(d, d');
      SettlesOrders(d, d');
    } else {
      var key :| Advances(d, d', key);
      AdvancesNumbers(d, d', key);
      AdvancesExcludes(d, d', key);
      AdvancesOrders(d, d', key);
    }
  }

  lemma {:induction false} RunKeepsSlots(w: World, events: seq<Event>)
    requires SlotInvariant(w.db)
    ensures SlotInvariant(Run(w, events).db)
    ensures !w.db.blocksQueued && OneActive(w.db) ==> OneActive(Run(w, events).db)
    decreases |events|
  {
    if events != [] {
      StepKeepsSlots(w, events[0]);
      RunKeepsSlots(Step(w, events[0]), events[1..]);
    }
  }

  // Over every run: a device never has two roots in flight, an older root is
  // never overtaken in the queue, and generations never exceed one entry.
  lemma OneRootPerDevice(blocksQueued: bool, events: seq<Event>, j: RootKey, k: RootKey)
    requires var d := Run(Empty(blocksQueued), events).db;
             j in d.roots && k in d.roots && j != k && d.roots[j].device == d.roots[k].device
    ensures var d := Run(Empty(blocksQueued), events).db;
            && !(InFlight(d.roots[j].state) && InFlight(d.roots[k].state))
            && (!blocksQueued ==> !(Active(d.roots[j].state) && Active(d.roots[k].state)))
            && (d.roots[k].generation > 0 && d.roots[j].state.Initial? ==> d.roots[k].fifo < d.roots[j].fifo)
  {
    RunKeepsSlots(Empty(blocksQueued), events);
    assert !Overtakes(Run(Empty(blocksQueued), events).db, j, k);
  }

  lemma EntersAfter(d: Db, d': Db, j: RootKey, k: RootKey)
    requires SlotInvariant(d) && RootMoves(d, d') && Enters(d, d', k)
    requires j in d.roots && d.roots[j].generation > 0 && d.roots[j].device == d'.roots[k].device
    ensures d.roots[j].fifo < d'.roots[k].fifo
  {
    if !Settles(d, d') {
      var key :| Advances(d, d', key);
      assert key == k;
      assert !Overtakes(d, k, j);
    }
  }

  // Roots take the slot of a device in the order they were admitted: what enters
  // now is younger than everything that entered before.
  lemma EntersYoungest(blocksQueued: bool, events: seq<Event>, e: Event, j: RootKey, k: RootKey)
    ensures var w := Run(Empty(blocksQueued), events);
            var d, d' := w.db, Step(w, e).db;
            j in d.roots && d.roots[j].generation > 0 && Enters(d, d', k) && d'.roots[k].device == d.roots[j].device
            ==> d.roots[j].fifo < d'.roots[k].fifo
  {
    var w := Run(Empty(blocksQueued), events);
    RunKeepsSlots(Empty(blocksQueued), events);
    StepMovesRoots(w, e);
    var d, d' := w.db, Step(w, e).db;
    if j in d.roots && d.roots[j].generation > 0 && Enters(d, d', k) && d'.roots[k].device == d.roots[j].device {
      EntersAfter(d, d', j, k);
    }
  }

  lemma CorruptRoots(d: Db, key: RootKey, generation: nat, op: Id)
    ensures MarkCorrupt(d, key, generation, op).roots
            == if key in d.roots && d.roots[key].generation == generation then BlockRoot(d, key).roots else d.roots
  {
  }

  // Blocking activates a queued root, where that is configured, and changes activity in no other way.
  lemma BlockActivates(d: Db, key: RootKey, k: RootKey)
    requires key in d.roots && k in d.roots
    ensures var roots := BlockRoot(d, key).roots;
            && roots[k].device == d.roots[k].device
            && (Active(roots[k].state) <==>
                  Active(d.roots[k].state) || (k == key && d.roots[k].state.Initial? && d.blocksQueued))
  {
  }

  // A corrupt head becomes a second active root of its device exactly when queued
  // roots may be blocked and another root of the device is already active.
  lemma CorruptSecondActive(d: Db, key: RootKey, generation: nat, op: Id)
    requires SlotInvariant(d) && OneActive(d)
    ensures !OneActive(MarkCorrupt(d, key, generation, op)) <==>
            && key in d.roots && d.roots[key].state.Initial? && generation == 0 && d.blocksQueued
            && exists a :: ActiveOn(d, d.roots[key].device, a)
  {
    CorruptRoots(d, key, generation, op);
    var activates := d.blocksQueued && generation == 0;
    forall k | k in d.roots
      ensures var roots := MarkCorrupt(d, key, generation, op).roots;
              && k in roots && roots[k].device == d.roots[k].device
              && (Active(roots[k].state) <==>
                    Active(d.roots[k].state) || (k == key && d.roots[k].state.Initial? && activates))
    {
      if key in d.roots { BlockActivates(d, key, k); }
    }
    OneMore(d, MarkCorrupt(d, key, generation, op), key, activates);
  }

  // The mark also takes a job of that id out of flight, and does nothing else.
  lemma CorruptOps(d: Db, key: RootKey, generation: nat, op: Id, o: OpKey)
    requires o in d.ops
    ensures var d' := MarkCorrupt(d, key, generation, op);
            && o in d'.ops
            && if key in d.roots && d.roots[key].generation == generation && o == JobOp(op)
               then match d.ops[o].state
                    case Dispatching => d'.ops[o].state.Blocked?
                    case Dispatched => d'.ops[o].state.Reconciling?
                    case Claimed => d'.ops[o].state.Reconciling?
                    case _ => d'.ops[o] == d.ops[o]
               else d'.ops[o] == d.ops[o]
  {
  }

  // What another authority ends: the root, in the state it gives, and with it those
  // of the root's operations it names. A root that is over stays as it is.
  lemma ResolveEnds(d: Db, key: RootKey, to: State, done: set<OpKey>)
    ensures var d' := ResolveRoot(d, key, to, done);
            && d'.roots.Keys == d.roots.Keys && d'.ops.Keys == d.ops.Keys
            && (forall k :: k in d.roots && k != key ==> d'.roots[k] == d.roots[k])
            && if key in d.roots && !Terminal(d.roots[key].state) && Terminal(to)
               then && d'.roots[key].state == to
                    && forall o :: o in d.ops ==>
                         d'.ops[o] == if d.ops[o].root == key && o in done then d.ops[o].(state := to) else d.ops[o]
               else d' == d
  {
  }

  // One queued root becoming active, if `activates`.
  lemma OneMore(d: Db, d': Db, key: RootKey, activates: bool)
    requires OneActive(d) && d'.roots.Keys == d.roots.Keys
    requires forall k :: k in d.roots ==>
               && d'.roots[k].device == d.roots[k].device
               && (Active(d'.roots[k].state) <==>
                     Active(d.roots[k].state) || (k == key && d.roots[k].state.Initial? && activates))
    ensures !OneActive(d') <==>
            && key in d.roots && d.roots[key].state.Initial? && activates
            && exists a :: ActiveOn(d, d.roots[key].device, a)
  {
    if key in d.roots && d.roots[key].state.Initial? && activates {
      if a :| ActiveOn(d, d.roots[key].device, a) {
        assert a in d'.roots && key in d'.roots && Active(d'.roots[a].state) && Active(d'.roots[key].state);
      }
      forall i, j | i in d'.roots && j in d'.roots && d'.roots[i].device == d'.roots[j].device
                    && Active(d'.roots[i].state) && Active(d'.roots[j].state) && i != j
        ensures exists a :: ActiveOn(d, d.roots[key].device, a)
      {
        assert ActiveOn(d, d.roots[key].device, if i == key then j else i);
      }
    }
  }

  // Such a run: `first` has been claimed, `second` waits in the queue of the same
  // device, and its envelope is found corrupt.
  function SecondActiveRun(first: Id, second: Id, device: Id, op: Id): seq<Event> {
    [Admit(JobRoot(first), device)]
    + ([Claim(JobRoot(first))]
       + ([Admit(JobRoot(second), device)] + ([Corrupt(JobRoot(second), 0, op)] + [])))
  }

  // The claimed root is the only one there is.
  predicate LoneClaim(d: Db, key: RootKey, device: Id) {
    d.roots.Keys == {key} && d.roots[key].device == device && d.roots[key].state.Claimed? && d.blocksQueued
  }

  lemma ClaimsFirst(key: RootKey, device: Id)
    ensures LoneClaim(Step(Step(Empty(true), Admit(key, device)), Claim(key)).db, key, device)
  {
    var w := Step(Empty(true), Admit(key, device));
    assert w.db.roots == map[key := Root(device, 0, 0, Initial, Waiting, 0)];
    assert IsOldest(w.db, device, key);
  }

  lemma CorruptsSecond(w: World, a: RootKey, b: RootKey, device: Id, op: Id)
    requires LoneClaim(w.db, a, device) && a != b
    ensures var d := Step(Step(w, Admit(b, device)), Corrupt(b, 0, op)).db;
            ActiveOn(d, device, a) && ActiveOn(d, device, b) && !OneActive(d)
  {
    var d := Step(w, Admit(b, device)).db;
    assert a in d.roots && d.roots[a] == w.db.roots[a];
    CorruptRoots(d, b, 0, op);
    BlockActivates(d, b, a);
    BlockActivates(d, b, b);
  }

  // The exception is met: a reachable ledger with two active roots of one device.
  lemma SecondActiveReached(first: Id, second: Id, device: Id, op: Id)
    requires first != second
    ensures var d := Run(Empty(true), SecondActiveRun(first, second, device, op)).db;
            && ActiveOn(d, device, JobRoot(first)) && ActiveOn(d, device, JobRoot(second)) && !OneActive(d)
  {
    var a, b := JobRoot(first), JobRoot(second);
    var w0 := Empty(true);
    var w1 := Step(w0, Admit(a, device));
    var w2 := Step(w1, Claim(a));
    RunFrom(w0, Admit(a, device), [Claim(a)] + ([Admit(b, device)] + ([Corrupt(b, 0, op)] + [])));
    RunFrom(w1, Claim(a), [Admit(b, device)] + ([Corrupt(b, 0, op)] + []));
    RunFrom(w2, Admit(b, device), [Corrupt(b, 0, op)] + []);
    RunFrom(Step(w2, Admit(b, device)), Corrupt(b, 0, op), []);
    ClaimsFirst(a, device);
    CorruptsSecond(w2, a, b, device, op);
  }
}
