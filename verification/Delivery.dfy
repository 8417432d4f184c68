/**
 From a sender to the pump: what a sender persists with a queued root is what the
 pump reads, replays and puts on the wire when the root's turn comes.
 */
module Delivery {
  import opened Json
  import opened Ledger
  import opened Protocol
  import opened DeviceSlot
  import opened PermitLane
  import opened EdgeLane
  import opened Transport
  import Replay

  // ---- A built envelope replays under the row it was filed with -------------

  // The root a job sender's call is filed under.
  predicate FiledAt(policies: map<string, Replay.Policy>, send: Replay.JobSend, root: RootKey) {
    Replay.Configured(policies, send) && Replay.TypedPayload(send.payload) &&
    match root
    case JobRoot(id) =>
      && Replay.EffectiveRootKind(policies, send) == "job" && !Replay.RequiresExisting(policies, send)
      && id == Replay.JobId(send.payload)
    case ServerRoot(id) =>
      && Replay.EffectiveRootKind(policies, send) == "server_workflow" && Replay.RequiresExisting(policies, send)
      && id == Replay.OrElse(send.rootExternalId, "")
    case EdgeRoot(_) => false
  }

  // The row a job's send leaves in the queue.
  function JobHead(policies: map<string, Replay.Policy>, send: Replay.JobSend, root: RootKey, generation: nat): Head
    requires FiledAt(policies, send, root)
  {
    Head(root, generation, JobOp(Replay.JobId(send.payload)), Some(Replay.JobEnvelope(policies, send)))
  }

  // The caller named the root the send is filed under, or named none where none is looked up.
  predicate NamesRoot(policies: map<string, Replay.Policy>, send: Replay.JobSend, root: RootKey)
    requires FiledAt(policies, send, root)
  {
    match root
    case JobRoot(id) => send.rootExternalId.None? || send.rootExternalId.value == id
    case _ => send.rootExternalId.Some? || Replay.JobId(send.payload) == ""
  }

  lemma SentJobReplays(policies: map<string, Replay.Policy>, send: Replay.JobSend, root: RootKey, generation: nat)
    requires FiledAt(policies, send, root)
    ensures ReplaysJob(send.device, JobHead(policies, send, root, generation)) <==> NamesRoot(policies, send, root)
  {
    Replay.JobEnvelopeFields(policies, send);
  }

  // The standalone sender's call, as its boundary is configured.
  predicate Standalone(policies: map<string, Replay.Policy>, send: Replay.JobSend) {
    && send.boundary == Some("standalone_job") && send.rootKind == Some("job") && send.rootExternalId.None?
    && "standalone_job" in policies && !policies["standalone_job"].requiresExisting
    && Replay.TypedPayload(send.payload)
  }

  lemma StandaloneReplays(policies: map<string, Replay.Policy>, send: Replay.JobSend, generation: nat)
    requires Standalone(policies, send)
    ensures var job := Replay.JobId(send.payload);
            ReplaysJob(send.device,
                       Head(JobRoot(job), generation, JobOp(job), Some(Replay.JobEnvelope(policies, send))))
  {
    SentJobReplays(policies, send, JobRoot(Replay.JobId(send.payload)), generation);
  }

  // A child job's call names its workflow, under a boundary that requires it.
  lemma ChildReplays(policies: map<string, Replay.Policy>, send: Replay.JobSend, parent: Id, generation: nat)
    requires send.boundary.Some? && send.boundary.value in policies && Replay.TypedPayload(send.payload)
    requires policies[send.boundary.value] == Replay.Policy("server_workflow", true)
    requires send.rootExternalId == Some(parent)
    ensures var job := Replay.JobId(send.payload);
            ReplaysJob(send.device,
                       Head(ServerRoot(parent), generation, JobOp(job), Some(Replay.JobEnvelope(policies, send))))
  {
    SentJobReplays(policies, send, ServerRoot(parent), generation);
  }

  lemma SentEdgeReplays(hydrate: Value -> Value, send: Replay.EdgeSend, generation: nat)
    ensures ReplaysEdge(send.device, Head(EdgeRoot(send.workflow), generation, WorkflowOp(send.workflow),
                                          Some(Replay.EdgeEnvelope(hydrate, send))))
            <==> Replay.ObjectLike(Some(hydrate(send.template)))
  {
    Replay.EdgeEnvelopeFields(hydrate, send);
  }

  // ---- A stored envelope stays ----------------------------------------------

  predicate EnvelopesStay(d: Db, d': Db) {
    forall op :: op in d.ops && d.ops[op].envelope.Some? ==>
      op in d'.ops && d'.ops[op].envelope == d.ops[op].envelope && d'.ops[op].root == d.ops[op].root
  }

  lemma UpsertKeepsEnvelopes(d: Db, op: OpKey, root: RootKey, child: Option<bool>, envelope: Option<Value>)
    requires root in d.roots
    ensures EnvelopesStay(d, UpsertOp(d, op, root, child, envelope))
  {
  }

  lemma CommitKeepsEnvelopes(d: Db, d2: Db, key: RootKey, op: OpKey, decision: Decision)
    requires EnvelopesStay(d, d2) && key in d2.roots && op in d2.ops
    ensures EnvelopesStay(d, Commit(d2, key, op, decision).db)
  {
  }

  lemma PrepareJobKeepsEnvelopes(d: Db, device: Id, job: Id, parent: Option<Id>, envelope: Value)
    ensures EnvelopesStay(d, PrepareJob(d, device, job, parent, envelope).db)
  {
    var key, op := JobRootKey(job, parent), JobOp(job);
    var d1 := AdmitRoot(d, key, device);
    if (key in d.roots || parent.None?) && d1.roots[key].device == device {
      UpsertKeepsEnvelopes(d1, op, key, Some(parent.Some?), Some(envelope));
      var d2 := UpsertOp(d1, op, key, Some(parent.Some?), Some(envelope));
      CommitKeepsEnvelopes(d, d2, key, op, JobDecision(d2, device, key, op, parent.Some?));
    }
  }

  lemma PrepareEdgeKeepsEnvelopes(d: Db, device: Id, workflow: Id, envelope: Value)
    ensures EnvelopesStay(d, PrepareEdge(d, device, workflow, envelope).db)
  {
    var key, op := EdgeRoot(workflow), WorkflowOp(workflow);
    var d1 := AdmitRoot(d, key, device);
    var r := d1.roots[key];
    if r.device == device && !Terminal(r.state) && !Manual(r.state) {
      UpsertKeepsEnvelopes(d1, op, key, Some(false), Some(envelope));
      var d2 := UpsertOp(d1, op, key, Some(false), Some(envelope));
      CommitKeepsEnvelopes(d, d2, key, op, EdgeDecision(d2, device, key));
    }
  }

  lemma FinishKeepsEnvelopes(d: Db, root: RootKey, op: OpKey)
    requires root in d.roots && op in d.ops
    ensures EnvelopesStay(d, FinishOp(d, op)) && EnvelopesStay(d, FinishOp(FinishRoot(d, root), op))
    ensures EnvelopesStay(d, BlockOp(d, op)) && EnvelopesStay(d, BlockOp(BlockRoot(d, root), op))
  {
  }

  lemma CompleteKeepsEnvelopes(d: Db, c: Call, sent: bool)
    ensures EnvelopesStay(d, CompleteJob(d, c, sent)) && EnvelopesStay(d, CompleteEdge(d, c, sent))
  {
    hide FinishOp, FinishRoot, BlockOp, BlockRoot;
    if c.handle.root in d.roots && c.handle.op in d.ops { FinishKeepsEnvelopes(d, c.handle.root, c.handle.op); }
  }

  lemma ConfirmLossKeepsEnvelopes(d: Db, h: Handle, timeout: bool)
    requires LossConfirmed(d, h, timeout)
    ensures EnvelopesStay(d, ConfirmLoss(d, h, timeout))
  {
  }

  lemma RecoveryKeepsEnvelopes(d: Db, root: RootKey, to: State, done: set<OpKey>)
    ensures EnvelopesStay(d, ResolveRoot(d, root, to, done)) && EnvelopesStay(d, ReconcileInFlight(d))
  {
  }

  lemma SendKeepsEnvelopes(w: World, e: Event)
    requires e.PrepareJobSend? || e.PrepareEdgeSend? || e.Complete?
    ensures EnvelopesStay(w.db, Step(w, e).db)
  {
    hide PrepareJob, PrepareEdge, CompleteJob, CompleteEdge;
    match e
    case PrepareJobSend(_, device, job, parent, envelope) =>
      PrepareJobKeepsEnvelopes(w.db, device, job, parent, envelope);
    case PrepareEdgeSend(_, device, workflow, envelope) => PrepareEdgeKeepsEnvelopes(w.db, device, workflow, envelope);
    case Complete(call) =>
      if call in w.calls && w.calls[call].progress.Egressed? {
        CompleteKeepsEnvelopes(w.db, w.calls[call], w.calls[call].progress.sent);
      }
  }

  lemma StepKeepsEnvelopes(w: World, e: Event)
    ensures EnvelopesStay(w.db, Step(w, e).db)
  {
    hide PrepareJob, PrepareEdge, CompleteJob, CompleteEdge, ConfirmLoss, ReconcileInFlight, ResolveRoot, UpsertOp;
    match e
    case PrepareJobSend(_, _, _, _, _) => SendKeepsEnvelopes(w, e);
    case PrepareEdgeSend(_, _, _, _) => SendKeepsEnvelopes(w, e);
    case Complete(_) => SendKeepsEnvelopes(w, e);
    case Admit(root, device) =>
      UpsertKeepsEnvelopes(AdmitRoot(w.db, root, device), RootOperation(root), root, None, None);
    case LoseWaiter(job, timeout) =>
      var permit := Pending(w, job);
      if permit.Some? && LossConfirmed(w.db, permit.value, timeout) {
        ConfirmLossKeepsEnvelopes(w.db, permit.value, timeout);
      }
    case Resolve(root, to, done) => RecoveryKeepsEnvelopes(w.db, root, to, done);
    case StartupReconcile => RecoveryKeepsEnvelopes(w.db, JobRoot(""), Failed, {});
    case _ =>
  }

  // Over every run, crashes included.
  lemma {:induction false} RunKeepsEnvelopes(w: World, events: seq<Event>)
    ensures EnvelopesStay(w.db, Run(w, events).db)
    decreases |events|
  {
    if events != [] {
      StepKeepsEnvelopes(w, events[0]);
      RunKeepsEnvelopes(Step(w, events[0]), events[1..]);
    }
  }

  // ---- What a queued send leaves --------------------------------------------

  // A new job that is given no permit waits in the queue of its device, with its envelope.
  lemma JobEnqueued(w: World, call: Id, device: Id, job: Id, envelope: Value)
    requires JobRoot(job) !in w.db.roots && JobOp(job) !in w.db.ops && call !in w.calls
    ensures var w' := Step(w, PrepareJobSend(call, device, job, None, envelope));
            call !in w'.calls ==>
              && QueuedOn(w'.db, device, JobRoot(job)) && JobOp(job) in w'.db.ops
              && w'.db.ops[JobOp(job)] == Operation(JobRoot(job), device, 0, Initial, Waiting, false, Some(envelope))
  {
  }

  lemma EdgeEnqueued(w: World, call: Id, device: Id, workflow: Id, envelope: Value)
    requires EdgeRoot(workflow) !in w.db.roots && WorkflowOp(workflow) !in w.db.ops && call !in w.calls
    ensures var w', op := Step(w, PrepareEdgeSend(call, device, workflow, envelope)), WorkflowOp(workflow);
            call !in w'.calls ==>
              && QueuedOn(w'.db, device, EdgeRoot(workflow)) && op in w'.db.ops
              && w'.db.ops[op] == Operation(EdgeRoot(workflow), device, 0, Initial, Waiting, false, Some(envelope))
  {
  }

  // ---- ... and what the pump makes of it ------------------------------------

  // The head query answers the oldest root's own operation, where it has no other.
  lemma OldestSeen(d: Db, device: Id, root: RootKey, row: Option<Head>)
    requires FifoUnique(d) && Filed(d) && !root.ServerRoot? && IsOldest(d, device, root)
    requires RootOperation(root) in d.ops && d.ops[RootOperation(root)].root == root
    requires Seen(d, device, row)
    ensures row == Some(Head(root, d.roots[root].generation, RootOperation(root), d.ops[RootOperation(root)].envelope))
  {
    assert QueueRow(d, device, RootOperation(root));
    assert d.roots[d.ops[row.value.op].root].fifo <= d.roots[root].fifo;
  }

  // An undisturbed pump of an online device starts with its oldest root.
  lemma OldestFirst(w: World, device: Id, call: Id, env: nat -> Round, rows: seq<Option<Head>>, roots: seq<RootKey>,
                    outcome: Outcome, root: RootKey)
    requires Good(w) && call !in w.calls && AllAlone(env) && PumpRun(w, device, call, env, rows, roots, outcome)
    requires IsOldest(w.db, device, root) && !root.ServerRoot? && env(0).online
    requires RootOperation(root) in w.db.ops && w.db.ops[RootOperation(root)].root == root
    ensures var head := Head(root, w.db.roots[root].generation, RootOperation(root),
                             w.db.ops[RootOperation(root)].envelope);
            && IsHead(w.db, device, head) && rows != [] && rows[0] == Some(head)
            && (roots != [] <==> env(0).connected && Sendable(w, device, head))
            && (roots != [] ==> roots[0] == root)
            && (roots == [] ==> !outcome.Sent? && outcome == AttemptOutcome(w, device, call, head, env(0)))
  {
    hide Good, Sendable, AttemptOutcome;
    assert FifoUnique(w.db) && Filed(w.db) by { GoodRows(w); }
    assert Alone(env(0)) && rows[..0] == [];
    FirstTurnSends(w, device, call, env, rows, roots, outcome);
    var ends := if |roots| > 0 then Sent(roots[0]) else outcome;
    assert TurnEnds(w, device, call, env, rows, 0, ends);
    OldestSeen(w.db, device, root, rows[0]);
    AttemptRoot(w, device, call, rows[0].value, env(0));
  }

  lemma GoodRows(w: World)
    requires Good(w)
    ensures FifoUnique(w.db) && Filed(w.db)
  {
  }

  lemma AttemptRoot(w: World, device: Id, call: Id, head: Head, r: Round)
    ensures var outcome := AttemptOutcome(w, device, call, head, r);
            !outcome.NoHead? && !outcome.WentOffline? && outcome.root == head.root
  {
  }

  lemma EmptyGood(blocksQueued: bool)
    ensures Good(Empty(blocksQueued))
  {
  }

  // A row filed with an envelope is still there, whatever happened since.
  lemma StillFiled(blocksQueued: bool, past: seq<Event>, e: Event, later: seq<Event>, op: OpKey)
    requires var d := Step(Run(Empty(blocksQueued), past), e).db; op in d.ops && d.ops[op].envelope.Some?
    ensures var d, w := Step(Run(Empty(blocksQueued), past), e).db, Run(Step(Run(Empty(blocksQueued), past), e), later);
            && Good(w) && op in w.db.ops
            && w.db.ops[op].envelope == d.ops[op].envelope && w.db.ops[op].root == d.ops[op].root
  {
    hide Good, Step, Empty;
    var w := Run(Empty(blocksQueued), past);
    EmptyGood(blocksQueued);
    RunKeepsGood(Empty(blocksQueued), past);
    StepKeepsGood(w, e);
    RunKeepsGood(Step(w, e), later);
    RunKeepsEnvelopes(Step(w, e), later);
  }

  lemma QueuedJobPumped(w: World, policies: map<string, Replay.Policy>, send: Replay.JobSend, pump: Id,
                        env: nat -> Round, rows: seq<Option<Head>>, roots: seq<RootKey>, outcome: Outcome)
    requires Good(w) && Standalone(policies, send) && AllAlone(env) && env(0).online && pump !in w.calls
    requires PumpRun(w, send.device, pump, env, rows, roots, outcome)
    requires var job := Replay.JobId(send.payload);
             && IsOldest(w.db, send.device, JobRoot(job)) && JobOp(job) in w.db.ops
             && w.db.ops[JobOp(job)].root == JobRoot(job)
             && w.db.ops[JobOp(job)].envelope == Some(Replay.JobEnvelope(policies, send))
    ensures var job := Replay.JobId(send.payload);
            && (roots != [] <==> env(0).connected && NoneActive(w.db, send.device)
                                 && w.db.ops[JobOp(job)].state.Initial? && job !in w.waiters)
            && (roots != [] ==> roots[0] == JobRoot(job))
            && (roots == [] ==> outcome == Unsent(JobRoot(job)))
  {
    hide Good, PumpRun, AllAlone, Seen, ReplaysEdge, Replay.JobEnvelope, Replay.IsJobEnvelope;
    var job := Replay.JobId(send.payload);
    OldestFirst(w, send.device, pump, env, rows, roots, outcome, JobRoot(job));
    StandaloneReplays(policies, send, w.db.roots[JobRoot(job)].generation);
    AttemptEnds(w, send.device, pump, rows[0].value, env(0));
  }

  lemma QueuedEdgePumped(w: World, hydrate: Value -> Value, send: Replay.EdgeSend, pump: Id, env: nat -> Round,
                         rows: seq<Option<Head>>, roots: seq<RootKey>, outcome: Outcome)
    requires Good(w) && AllAlone(env) && env(0).online && pump !in w.calls
    requires PumpRun(w, send.device, pump, env, rows, roots, outcome)
    requires var key, op := EdgeRoot(send.workflow), WorkflowOp(send.workflow);
             && IsOldest(w.db, send.device, key) && op in w.db.ops && w.db.ops[op].root == key
             && w.db.ops[op].envelope == Some(Replay.EdgeEnvelope(hydrate, send))
    ensures var key, fine := EdgeRoot(send.workflow), Replay.ObjectLike(Some(hydrate(send.template)));
            && (roots != [] <==> env(0).connected && NoneActive(w.db, send.device) && fine)
            && (roots != [] ==> roots[0] == key)
            && (roots == [] ==> outcome == if fine then Unsent(key) else CorruptHead(key))
  {
    hide Good, PumpRun, AllAlone, Seen, Replay.EdgeEnvelope, Replay.IsEdgeEnvelope;
    var key := EdgeRoot(send.workflow);
    OldestFirst(w, send.device, pump, env, rows, roots, outcome, key);
    SentEdgeReplays(hydrate, send, w.db.roots[key].generation);
    AttemptEnds(w, send.device, pump, rows[0].value, env(0));
  }

  // How an attempt that sends nothing ends.
  lemma AttemptEnds(w: World, device: Id, call: Id, head: Head, r: Round)
    ensures var outcome := AttemptOutcome(w, device, call, head, r);
            !outcome.Sent? ==> outcome == if ReplaysJob(device, head) || ReplaysEdge(device, head)
                                          then Unsent(head.root) else CorruptHead(head.root)
  {
  }

  // A standalone job that had to wait: whatever happened since, crashes included,
  // once its root is the oldest of its device the next undisturbed pump sends it,
  // exactly if the device is online, connected and idle, and the job is still
  // registered and not waited for by somebody else.
  lemma QueuedJobGoesOut(blocksQueued: bool, past: seq<Event>, policies: map<string, Replay.Policy>,
                         send: Replay.JobSend, call: Id, later: seq<Event>, pump: Id, env: nat -> Round,
                         rows: seq<Option<Head>>, roots: seq<RootKey>, outcome: Outcome)
    requires Standalone(policies, send) && AllAlone(env) && env(0).online
    requires var w, job := Run(Empty(blocksQueued), past), Replay.JobId(send.payload);
             && call !in w.calls && JobRoot(job) !in w.db.roots && JobOp(job) !in w.db.ops
             && var w1 := Step(w, PrepareJobSend(call, send.device, job, None, Replay.JobEnvelope(policies, send)));
                var w2 := Run(w1, later);
                && call !in w1.calls && pump !in w2.calls && IsOldest(w2.db, send.device, JobRoot(job))
                && PumpRun(w2, send.device, pump, env, rows, roots, outcome)
    ensures var w, job := Run(Empty(blocksQueued), past), Replay.JobId(send.payload);
            var w2 := Run(Step(w, PrepareJobSend(call, send.device, job, None, Replay.JobEnvelope(policies, send))),
                          later);
            && JobOp(job) in w2.db.ops
            && (roots != [] <==> env(0).connected && NoneActive(w2.db, send.device)
                                 && w2.db.ops[JobOp(job)].state.Initial? && job !in w2.waiters)
            && (roots != [] ==> roots[0] == JobRoot(job))
            && (roots == [] ==> outcome == Unsent(JobRoot(job)))
  {
    var job, envelope := Replay.JobId(send.payload), Replay.JobEnvelope(policies, send);
    hide *;
    var w, e := Run(Empty(blocksQueued), past), PrepareJobSend(call, send.device, job, None, envelope);
    JobEnqueued(w, call, send.device, job, envelope);
    StillFiled(blocksQueued, past, e, later, JobOp(job));
    QueuedJobPumped(Run(Step(w, e), later), policies, send, pump, env, rows, roots, outcome);
  }

  // The same for an edge workflow, if its template was an object; otherwise the
  // envelope the sender itself persisted is found corrupt.
  lemma QueuedEdgeGoesOut(blocksQueued: bool, past: seq<Event>, hydrate: Value -> Value, send: Replay.EdgeSend,
                          call: Id, later: seq<Event>, pump: Id, env: nat -> Round,
                          rows: seq<Option<Head>>, roots: seq<RootKey>, outcome: Outcome)
    requires AllAlone(env) && env(0).online
    requires var w, key := Run(Empty(blocksQueued), past), EdgeRoot(send.workflow);
             && call !in w.calls && key !in w.db.roots && WorkflowOp(send.workflow) !in w.db.ops
             && var e := PrepareEdgeSend(call, send.device, send.workflow, Replay.EdgeEnvelope(hydrate, send));
                var w2 := Run(Step(w, e), later);
                && call !in Step(w, e).calls && pump !in w2.calls && IsOldest(w2.db, send.device, key)
                && PumpRun(w2, send.device, pump, env, rows, roots, outcome)
    ensures var w, key := Run(Empty(blocksQueued), past), EdgeRoot(send.workflow);
            var e := PrepareEdgeSend(call, send.device, send.workflow, Replay.EdgeEnvelope(hydrate, send));
            var w2 := Run(Step(w, e), later);
            && (roots != [] <==> env(0).connected && NoneActive(w2.db, send.device)
                                 && Replay.ObjectLike(Some(hydrate(send.template))))
            && (roots != [] ==> roots[0] == key)
            && (roots == [] ==> outcome == if Replay.ObjectLike(Some(hydrate(send.template))) then Unsent(key)
                                           else CorruptHead(key))
  {
    hide *;
    var op, envelope := WorkflowOp(send.workflow), Replay.EdgeEnvelope(hydrate, send);
    var w, e := Run(Empty(blocksQueued), past), PrepareEdgeSend(call, send.device, send.workflow, envelope);
    EdgeEnqueued(w, call, send.device, send.workflow, envelope);
    StillFiled(blocksQueued, past, e, later, op);
    QueuedEdgePumped(Run(Step(w, e), later), hydrate, send, pump, env, rows, roots, outcome);
  }
}
