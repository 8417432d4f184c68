/**
 The dispatch protocol: the ledger of module `Ledger`, the process that runs
 sends against it, and the wire. `Step` gives one event; a run is a fold.
 Memory between two awaits changes in one event, because nothing else runs then.
 */
module Protocol {
  import opened Json
  import opened Ledger

  datatype Event =
    | Admit(root: RootKey, device: Id)
    | Claim(root: RootKey)
    | PrepareJobSend(call: Id, device: Id, job: Id, parent: Option<Id>, envelope: Value)
    | PrepareEdgeSend(call: Id, device: Id, workflow: Id, envelope: Value)
    | Egress(call: Id, online: bool)
    | Complete(call: Id)
    | Finish(call: Id)
    | Result(device: Id, job: Id, reported: Reported, success: bool)
    | LoseWaiter(job: Id, timeout: bool)
    | PlainWait(job: Id)
    | PlainGone(job: Id)
    | Resolve(root: RootKey, to: State, done: set<OpKey>)
    | Corrupt(root: RootKey, generation: nat, op: Id)
    | Crash
    | StartupReconcile

  // ---- Sending --------------------------------------------------------------

  function Begin(w: World, call: Id, device: Id, child: bool, p: Prepared): World {
    if p.permit.Some?
    then w.(db := p.db, calls := w.calls[call := Call(p.permit.value, device, child, Permitted)])
    else w.(db := p.db)
  }

  // registerJobWaiter throws when a waiter with another permit, or without one, is there.
  predicate Registers(w: World, h: Handle) {
    h.op.id in w.waiters ==> w.waiters[h.op.id].permit == Some(h)
  }

  // Waiter registration and wire write; an offline socket takes no frame.
  function EgressJob(w: World, call: Id, online: bool): World
    requires call in w.calls
  {
    var c := w.calls[call];
    var h := c.handle;
    var sent := Registers(w, h) && online && !h.root.EdgeRoot?;
    w.(calls := w.calls[call := c.(progress := Egressed(sent))],
       waiters := if h.op.id in w.waiters then w.waiters else w.waiters[h.op.id := Waiter(Some(h))],
       frames := if sent then w.frames + [Frame(h, w.epoch)] else w.frames)
  }

  function EgressEdge(w: World, call: Id, online: bool): World
    requires call in w.calls
  {
    var c := w.calls[call];
    var sent := online && c.handle.root.EdgeRoot?;
    w.(calls := w.calls[call := c.(progress := Egressed(sent))],
       frames := if sent then w.frames + [Frame(c.handle, w.epoch)] else w.frames)
  }

  function Settle(w: World, call: Id): World
    requires call in w.calls && w.calls[call].progress.Egressed?
  {
    var c := w.calls[call];
    var sent := c.progress.sent;
    w.(db := if c.handle.op.JobOp? then CompleteJob(w.db, c, sent) else CompleteEdge(w.db, c, sent),
       calls := w.calls[call := c.(progress := Settled(sent))])
  }

  function Pending(w: World, job: Id): Option<Handle> {
    if job in w.waiters then w.waiters[job].permit else None
  }

  // rejectJobWaiterWithPermit when nothing was sent; then the send returns.
  function Return(w: World, call: Id): World
    requires call in w.calls && w.calls[call].progress.Settled?
  {
    var c := w.calls[call];
    var pending := Pending(w, c.handle.op.id);
    var rejects := c.handle.op.JobOp? && !c.progress.sent && pending.Some?
                   && pending.value.root == c.handle.root && pending.value.generation == c.handle.generation;
    w.(calls := w.calls - {call}, waiters := if rejects then w.waiters - {c.handle.op.id} else w.waiters)
  }

  // ---- Waiting --------------------------------------------------------------

  function JobResult(w: World, device: Id, job: Id, reported: Reported, success: bool): World {
    if !ResultAccepted(w.db, Pending(w, job), device, job, reported) then w
    else w.(db := AcceptResult(w.db, job, success), waiters := w.waiters - {job}, delivered := w.delivered + [job])
  }

  // What the ledger is asked to confirm before a waiter is dropped: a timed-out
  // child job fails on its own, anything else makes its root ambiguous.
  predicate LossConfirmed(d: Db, h: Handle, timeout: bool) {
    if timeout && h.root.ServerRoot? then ChildExpires(d, h) else AmbiguityConfirmed(d, h)
  }

  function ConfirmLoss(d: Db, h: Handle, timeout: bool): Db
    requires LossConfirmed(d, h, timeout)
  {
    if timeout && h.root.ServerRoot? then SetOp(d, h.op, d.ops[h.op].(state := Failed)) else MarkAmbiguous(d, h)
  }

  function WaiterGone(w: World, job: Id, timeout: bool): World {
    var permit := Pending(w, job);
    if permit.Some? && LossConfirmed(w.db, permit.value, timeout)
    then w.(db := ConfirmLoss(w.db, permit.value, timeout), waiters := w.waiters - {job})
    else w
  }

  // ---- Steps and runs -------------------------------------------------------

  function Step(w: World, e: Event): World {
    match e
    case Admit(root, device) =>
      w.(db := UpsertOp(AdmitRoot(w.db, root, device), RootOperation(root), root, None, None))
    case Claim(root) =>
      if root in w.db.roots && Claimable(w.db, w.db.roots[root].device, root)
      then w.(db := ClaimRoot(w.db, root)) else w
    case PrepareJobSend(call, device, job, parent, envelope) =>
      if call in w.calls then w
      else Begin(w, call, device, parent.Some?, PrepareJob(w.db, device, job, parent, envelope))
    case PrepareEdgeSend(call, device, workflow, envelope) =>
      if call in w.calls then w
      else Begin(w, call, device, false, PrepareEdge(w.db, device, workflow, envelope))
    case Egress(call, online) =>
      if call !in w.calls || !w.calls[call].progress.Permitted? then w
      else if w.calls[call].handle.op.JobOp? then EgressJob(w, call, online)
      else EgressEdge(w, call, online)
    case Complete(call) =>
      if call !in w.calls || !w.calls[call].progress.Egressed? then w else Settle(w, call)
    case Finish(call) =>
      if call !in w.calls || !w.calls[call].progress.Settled? then w else Return(w, call)
    case Result(device, job, reported, success) => JobResult(w, device, job, reported, success)
    case LoseWaiter(job, timeout) => WaiterGone(w, job, timeout)
    case PlainWait(job) =>
      if job in w.waiters then w else w.(waiters := w.waiters[job := Waiter(None)])
    case PlainGone(job) =>
      if job in w.waiters && w.waiters[job].permit.None? then w.(waiters := w.waiters - {job}) else w
    case Resolve(root, to, done) => w.(db := ResolveRoot(w.db, root, to, done))
    case Corrupt(root, generation, op) => w.(db := MarkCorrupt(w.db, root, generation, op))
    case Crash => w.(calls := map[], waiters := map[], epoch := w.epoch + 1)
    case StartupReconcile => w.(db := ReconcileInFlight(w.db))
  }

  function Run(w: World, events: seq<Event>): World
    decreases |events|
  {
    if events == [] then w else Run(Step(w, events[0]), events[1..])
  }

  lemma RunFrom(w: World, e: Event, rest: seq<Event>)
    ensures Run(w, [e] + rest) == Run(Step(w, e), rest)
  {
  }
}
