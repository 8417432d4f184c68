/**
 When the two lanes authorise a send, in terms of the ledger as it was before
 the transaction, and what the edge lane's answer means for duplicates.
 */
module Authorisation {
  import opened Json
  import opened Ledger
  import opened Protocol
  import opened DeviceSlot

  ghost predicate Idle(d: Db, device: Id) {
    (forall a :: !ActiveOn(d, device, a)) && (forall q :: !QueuedOn(d, device, q))
  }

  // An absent root takes the slot of an idle device; a queued one takes a free
  // slot when it is the oldest.
  ghost predicate MayEnter(d: Db, device: Id, key: RootKey) {
    if key !in d.roots then Idle(d, device)
    else (forall a :: !ActiveOn(d, device, a)) && IsOldest(d, device, key)
  }

  lemma SameSlot(d: Db, d1: Db, device: Id, key: RootKey)
    requires d1.roots == AdmitRoot(d, key, device).roots
    ensures forall a :: ActiveOn(d1, device, a) <==> ActiveOn(d, device, a)
    ensures SlotTaken(d1, device, key) <==> SlotTaken(d, device, key)
  {
  }

  // The queue and slot checks, made after implicit admission, amount to `MayEnter` before it.
  lemma QueuedMayEnter(d: Db, d1: Db, device: Id, key: RootKey)
    requires SlotInvariant(d) && d1.roots == AdmitRoot(d, key, device).roots
    requires QueuedOn(d1, device, key)
    ensures !SlotTaken(d1, device, key) && IsOldest(d1, device, key) <==> MayEnter(d, device, key)
  {
    SameSlot(d, d1, device, key);
    assert !ActiveOn(d, device, key);
    if !SlotTaken(d, device, key) { FreeSlot(d, device, key); }
    assert (forall a :: !ActiveOn(d, device, a)) ==> !SlotTaken(d, device, key);
    if key !in d.roots {
      forall q | QueuedOn(d, device, q) ensures QueuedOn(d1, device, q) && d1.roots[q].fifo < d1.roots[key].fifo {}
      forall q | QueuedOn(d1, device, q) && q != key ensures QueuedOn(d, device, q) {}
    } else {
      assert d1.roots == d.roots;
    }
  }

  // The edge lane authorises every live root that is not queued, whether or not
  // it has been sent already; only queued and new roots wait for the slot.
  lemma EdgeAuthorisedIff(d: Db, device: Id, workflow: Id, envelope: Value)
    requires SlotInvariant(d)
    ensures var key := EdgeRoot(workflow);
            PrepareEdge(d, device, workflow, envelope).permit.Some? <==>
            if key in d.roots && !d.roots[key].state.Initial?
            then d.roots[key].device == device && InFlight(d.roots[key].state)
            else (key in d.roots ==> d.roots[key].device == device) && MayEnter(d, device, key)
  {
    var key := EdgeRoot(workflow);
    var d1 := AdmitRoot(d, key, device);
    AdmitAdvances(d, key, device);
    var r := d1.roots[key];
    if r.device == device && !Terminal(r.state) && !Manual(r.state) {
      var d2 := UpsertOp(d1, WorkflowOp(workflow), key, Some(false), Some(envelope));
      assert Coherent(r);
      if r.state.Initial? { QueuedMayEnter(d, d2, device, key); }
    }
  }

  // A queued or new root: the slot and queue checks decide.
  lemma QueuedJobDecision(d: Db, d1: Db, device: Id, key: RootKey, op: OpKey, child: bool)
    requires SlotInvariant(d) && d1.roots == AdmitRoot(d, key, device).roots
    requires QueuedOn(d1, device, key) && Coherent(d1.roots[key]) && op in d1.ops
    ensures JobDecision(d1, device, key, op, child).Authorised? <==>
            d1.ops[op].state.Initial? && MayEnter(d, device, key)
  {
    QueuedMayEnter(d, d1, device, key);
  }

  // A root that has left the queue.
  lemma StartedJobDecision(d: Db, d1: Db, device: Id, key: RootKey, op: OpKey, child: bool)
    requires key in d.roots && d1.roots == d.roots && op in d1.ops
    requires Coherent(d.roots[key]) && !d.roots[key].state.Initial?
    ensures JobDecision(d1, device, key, op, child).Authorised? <==>
            && d1.ops[op].state.Initial? && InFlight(d.roots[key].state) && !SlotTaken(d, device, key)
            && (d.roots[key].state.Dispatched? ==> child)
  {
    assert SlotTaken(d1, device, key) <==> SlotTaken(d, device, key);
  }

  // The permit lane: a registered job, on its root's device, while no other root
  // holds the slot; a standalone root only once, the root of child jobs repeatedly.
  lemma JobAuthorisedIff(d: Db, device: Id, job: Id, parent: Option<Id>, envelope: Value)
    requires SlotInvariant(d)
    ensures var key := JobRootKey(job, parent);
            PrepareJob(d, device, job, parent, envelope).permit.Some? <==>
            && (JobOp(job) in d.ops ==> d.ops[JobOp(job)].state.Initial?)
            && (key in d.roots ==> d.roots[key].device == device)
            && if key in d.roots && !d.roots[key].state.Initial?
               then InFlight(d.roots[key].state) && !SlotTaken(d, device, key)
                    && (d.roots[key].state.Dispatched? ==> parent.Some?)
               else (key !in d.roots ==> parent.None?) && MayEnter(d, device, key)
  {
    var key, op := JobRootKey(job, parent), JobOp(job);
    if key in d.roots || parent.None? {
      var d1 := AdmitRoot(d, key, device);
      AdmitAdvances(d, key, device);
      if d1.roots[key].device == device {
        var d2 := UpsertOp(d1, op, key, Some(parent.Some?), Some(envelope));
        assert Coherent(d1.roots[key]);
        if d1.roots[key].state.Initial? {
          QueuedJobDecision(d, d2, device, key, op, parent.Some?);
        } else {
          StartedJobDecision(d, d2, device, key, op, parent.Some?);
        }
      }
    }
  }

  // Slot, queue and state let a send of the root go ahead.
  ghost predicate Eligible(d: Db, device: Id, key: RootKey, child: bool) {
    if key in d.roots && !d.roots[key].state.Initial?
    then && d.roots[key].device == device && InFlight(d.roots[key].state) && !SlotTaken(d, device, key)
         && (d.roots[key].state.Dispatched? ==> child)
    else (key in d.roots ==> d.roots[key].device == device) && (key !in d.roots ==> !child) && MayEnter(d, device, key)
  }

  lemma UnregisteredDecision(d: Db, d1: Db, device: Id, key: RootKey, op: OpKey, child: bool)
    requires SlotInvariant(d) && d1.roots == AdmitRoot(d, key, device).roots && op in d1.ops
    requires key in d1.roots && d1.roots[key].device == device && Coherent(d1.roots[key])
             && (key !in d.roots ==> !child)
    ensures var decision := JobDecision(d1, device, key, op, child);
            decision.Authorised? || decision.NotRegistered? <==> Eligible(d, device, key, child)
  {
    SameSlot(d, d1, device, key);
    if d1.roots[key].state.Initial? { QueuedMayEnter(d, d1, device, key); }
  }

  // What a send leaves that is given no permit: a new standalone root is in the
  // queue, and nothing else moves. Only where everything but the job's own
  // registration lets it go ahead, its root is dispatching all the same.
  lemma RefusedJobLeaves(d: Db, device: Id, job: Id, parent: Option<Id>, envelope: Value)
    requires SlotInvariant(d) && PrepareJob(d, device, job, parent, envelope).permit.None?
    ensures var key, d' := JobRootKey(job, parent), PrepareJob(d, device, job, parent, envelope).db;
            && (forall k :: k in d.roots && k != key ==> k in d'.roots && d'.roots[k] == d.roots[k])
            && if Eligible(d, device, key, parent.Some?)
               then && key in d'.roots && d'.roots[key].device == device
                    && (if key in d.roots && d.roots[key].state.Dispatched? then d'.roots[key] == d.roots[key]
                        else d'.roots[key].state.Dispatching?)
                    && JobOp(job) in d.ops && !d.ops[JobOp(job)].state.Initial?
               else if key in d.roots then key in d'.roots && d'.roots[key] == d.roots[key]
               else if parent.Some? then key !in d'.roots
               else QueuedOn(d', device, key)
  {
    var key, op := JobRootKey(job, parent), JobOp(job);
    if key in d.roots || parent.None? {
      var d1 := AdmitRoot(d, key, device);
      AdmitAdvances(d, key, device);
      if d1.roots[key].device == device {
        var d2 := UpsertOp(d1, op, key, Some(parent.Some?), Some(envelope));
        assert Coherent(d1.roots[key]);
        UnregisteredDecision(d, d2, device, key, op, parent.Some?);
        RefusedCommit(d2, key, op, JobDecision(d2, device, key, op, parent.Some?));
      }
    }
  }

  // In the edge lane nothing ever moves without a permit.
  lemma RefusedEdgeLeaves(d: Db, device: Id, workflow: Id, envelope: Value)
    requires PrepareEdge(d, device, workflow, envelope).permit.None?
    ensures var key, d' := EdgeRoot(workflow), PrepareEdge(d, device, workflow, envelope).db;
            && (forall k :: k in d.roots ==> k in d'.roots && d'.roots[k] == d.roots[k])
            && (key !in d.roots ==> QueuedOn(d', device, key))
            && (forall op :: op in d.ops && op != WorkflowOp(workflow) ==> op in d'.ops && d'.ops[op] == d.ops[op])
            && (WorkflowOp(workflow) in d.ops ==>
                  && WorkflowOp(workflow) in d'.ops
                  && d'.ops[WorkflowOp(workflow)].state == d.ops[WorkflowOp(workflow)].state)
  {
  }

  lemma RefusedCommit(d: Db, key: RootKey, op: OpKey, decision: Decision)
    requires key in d.roots && op in d.ops
    ensures var p := Commit(d, key, op, decision);
            && (p.permit.None? <==> !decision.Authorised?)
            && (p.permit.None? ==>
                  && p.db.ops == d.ops && p.db.roots.Keys == d.roots.Keys
                  && (forall k :: k in d.roots && k != key ==> p.db.roots[k] == d.roots[k])
                  && if decision.NotRegistered? && (d.roots[key].state.Initial? || d.roots[key].state.Claimed?)
                     then p.db.roots[key].state.Dispatching? && p.db.roots[key].device == d.roots[key].device
                     else p.db.roots[key] == d.roots[key])
  {
  }

  predicate InSlot(d: Db, device: Id, workflow: Id) {
    var key, op := EdgeRoot(workflow), WorkflowOp(workflow);
    && key in d.roots && d.roots[key].device == device && d.roots[key].state.Dispatching?
    && op in d.ops && d.ops[op].root == key
  }

  // An edge workflow on an empty ledger, or already in the slot, is given a permit.
  lemma EdgePermitted(d: Db, device: Id, workflow: Id, envelope: Value)
    requires SlotInvariant(d) && ((d.roots == map[] && d.ops == map[]) || InSlot(d, device, workflow))
    ensures var p := PrepareEdge(d, device, workflow, envelope);
            && p.permit.Some? && p.permit.value.op == WorkflowOp(workflow) && p.permit.value.root == EdgeRoot(workflow)
            && InSlot(p.db, device, workflow)
  {
  }

  lemma EdgeEgressWrites(w: World, call: Id)
    requires call in w.calls && w.calls[call].progress.Permitted?
    requires w.calls[call].handle.op.WorkflowOp? && w.calls[call].handle.root.EdgeRoot?
    ensures var w' := Step(w, Egress(call, true));
            w'.frames == w.frames + [Frame(w.calls[call].handle, w.epoch)]
            && w'.calls == w.calls[call := w.calls[call].(progress := Egressed(true))]
  {
  }

  // Two overlapping sends of one edge workflow put its start frame on the wire
  // twice: the edge lane has no counterpart of `PermitLane.JobFrameWrittenOnce`.
  lemma EdgeFrameWrittenTwice(device: Id, workflow: Id, envelope: Value)
    ensures var events := [PrepareEdgeSend("pump", device, workflow, envelope)]
                          + ([PrepareEdgeSend("sweep", device, workflow, envelope)]
                             + ([Egress("pump", true)] + ([Egress("sweep", true)] + [])));
            var frames := Run(Empty(false), events).frames;
            |frames| == 2 && frames[0].handle.op == frames[1].handle.op == WorkflowOp(workflow)
  {
    var w0 := Empty(false);
    var e1 := PrepareEdgeSend("pump", device, workflow, envelope);
    var e2 := PrepareEdgeSend("sweep", device, workflow, envelope);
    var e3, e4 := Egress("pump", true), Egress("sweep", true);
    EdgePermitted(w0.db, device, workflow, envelope);
    var w1 := Step(w0, e1);
    StepKeepsSlots(w0, e1);
    EdgePermitted(w1.db, device, workflow, envelope);
    var w2 := Step(w1, e2);
    EdgeEgressWrites(w2, "pump");
    var w3 := Step(w2, e3);
    EdgeEgressWrites(w3, "sweep");
    RunFrom(w0, e1, [e2] + ([e3] + ([e4] + [])));
    RunFrom(w1, e2, [e3] + ([e4] + []));
    RunFrom(w2, e3, [e4] + []);
    RunFrom(w3, e4, []);
  }
}
