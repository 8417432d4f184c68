/**
 Replay envelopes: what a send persists with its operation, and what the queue
 pump accepts and rebuilds from it.
 */
module Replay {
  import opened Json

  // The configured boundary policy: its root kind, and whether an existing root is required.
  datatype Policy = Policy(rootKind: string, requiresExisting: bool)

  // The row a queued dispatch was found under.
  datatype Identity = Identity(device: string, rootKind: string, rootExternalId: string, operation: string)

  // One call of the job sender.
  datatype JobSend = JobSend(device: string, boundary: Option<string>, rootKind: Option<string>,
                             rootExternalId: Option<string>, payload: Value)

  datatype EdgeSend = EdgeSend(device: string, workflow: string, template: Value, variables: Option<Value>)

  // ---- Builders -------------------------------------------------------------

  // The parameter type of the job sender.
  predicate TypedPayload(payload: Value) {
    payload.Object?
    && Get(payload, "jobId").Some? && Get(payload, "jobId").value.String?
    && Get(payload, "type").Some? && Get(payload, "type").value.String?
  }

  function JobId(payload: Value): string
    requires TypedPayload(payload)
  {
    Get(payload, "jobId").value.text
  }

  function OrElse<T>(option: Option<T>, default: T): T {
    if option.Some? then option.value else default
  }

  // An unconfigured boundary throws before anything is built.
  predicate Configured(policies: map<string, Policy>, send: JobSend) {
    send.boundary.Some? ==> send.boundary.value in policies
  }

  predicate RequiresExisting(policies: map<string, Policy>, send: JobSend)
    requires Configured(policies, send)
  {
    send.boundary.Some? && policies[send.boundary.value].requiresExisting
  }

  function EffectiveRootKind(policies: map<string, Policy>, send: JobSend): string
    requires Configured(policies, send)
  {
    if send.boundary.None? then OrElse(send.rootKind, "job")
    else
      var policy := policies[send.boundary.value];
      if policy.requiresExisting then policy.rootKind else OrElse(send.rootKind, policy.rootKind)
  }

  function JobEnvelope(policies: map<string, Policy>, send: JobSend): Value
    requires Configured(policies, send) && TypedPayload(send.payload)
  {
    var job := JobId(send.payload);
    Object([Field("schemaVersion", String("pnq.job-dispatch/v1")),
            Field("deviceId", String(send.device)),
            Field("rootKind", String(EffectiveRootKind(policies, send))),
            Field("rootExternalId", String(OrElse(send.rootExternalId, job))),
            Field("operationKind", String("job")),
            Field("operationId", String(job)),
            Field("boundary", String(OrElse(send.boundary, "standalone_job"))),
            Field("payload", send.payload)])
  }

  // Undefined variables leave no field once persisted.
  function EdgeEnvelope(hydrate: Value -> Value, send: EdgeSend): Value {
    Object([Field("schemaVersion", String("pnq.edge-workflow-dispatch/v1")),
            Field("deviceId", String(send.device)),
            Field("rootKind", String("edge_workflow")),
            Field("rootExternalId", String(send.workflow)),
            Field("operationKind", String("workflow")),
            Field("operationId", String(send.workflow)),
            Field("boundary", String("edge_workflow")),
            Field("template", hydrate(send.template))]
           + (if send.variables.Some? then [Field("variables", send.variables.value)] else []))
  }

  // The root and operation the arbiter files a job send under: only a boundary
  // that requires an existing root looks at the given external id.
  function FiledUnder(policies: map<string, Policy>, send: JobSend): Identity
    requires Configured(policies, send) && TypedPayload(send.payload)
  {
    var job := JobId(send.payload);
    Identity(send.device, EffectiveRootKind(policies, send),
             if RequiresExisting(policies, send) then OrElse(send.rootExternalId, "") else job, job)
  }

  // ---- Validators -----------------------------------------------------------

  predicate Is(value: Value, key: string, text: string) {
    Get(value, key) == Some(String(text))
  }

  // Truthy and of type "object": arrays count, null does not.
  predicate ObjectLike(value: Option<Value>) {
    value.Some? && (value.value.Object? || value.value.Array?)
  }

  predicate IsJobEnvelope(value: Value, row: Identity) {
    && ObjectLike(Some(value))
    && Is(value, "schemaVersion", "pnq.job-dispatch/v1")
    && Is(value, "deviceId", row.device)
    && Is(value, "rootKind", row.rootKind)
    && Is(value, "rootExternalId", row.rootExternalId)
    && Is(value, "operationKind", "job")
    && Is(value, "operationId", row.operation)
    && Get(value, "boundary").Some? && Get(value, "boundary").value.String?
    && ObjectLike(Get(value, "payload"))
    && Is(Get(value, "payload").value, "jobId", row.operation)
    && Get(Get(value, "payload").value, "type").Some? && Get(Get(value, "payload").value, "type").value.String?
  }

  predicate IsEdgeEnvelope(value: Value, row: Identity) {
    && ObjectLike(Some(value))
    && Is(value, "schemaVersion", "pnq.edge-workflow-dispatch/v1")
    && Is(value, "deviceId", row.device)
    && row.rootKind == "edge_workflow" && Is(value, "rootKind", "edge_workflow")
    && Is(value, "rootExternalId", row.rootExternalId)
    && Is(value, "operationKind", "workflow")
    && Is(value, "operationId", row.operation)
    && Is(value, "boundary", "edge_workflow")
    && ObjectLike(Get(value, "template"))
  }

  // ---- Replays --------------------------------------------------------------

  // The pump's call of the job sender for an accepted envelope.
  function ReplayJob(value: Value, row: Identity): (send: JobSend)
    requires IsJobEnvelope(value, row)
    ensures TypedPayload(send.payload) && JobId(send.payload) == row.operation
  {
    JobSend(row.device, Some(Get(value, "boundary").value.text), Some(row.rootKind), Some(row.rootExternalId),
            Get(value, "payload").value)
  }

  function ReplayEdge(value: Value, row: Identity): EdgeSend
    requires IsEdgeEnvelope(value, row)
  {
    EdgeSend(row.device, row.operation, Get(value, "template").value, Get(value, "variables"))
  }

  // ---- Fields of built envelopes --------------------------------------------

  lemma LookupAt(fields: seq<Field>, i: nat)
    requires i < |fields| && forall j :: 0 <= j < i ==> fields[j].key != fields[i].key
    ensures Lookup(fields, fields[i].key) == Some(fields[i].value)
  {
    if i > 0 { LookupAt(fields[1..], i - 1); }
  }

  lemma LookupAbsent(fields: seq<Field>, key: string)
    requires forall j :: 0 <= j < |fields| ==> fields[j].key != key
    ensures Lookup(fields, key) == None
  {
  }

  lemma JobEnvelopeFields(policies: map<string, Policy>, send: JobSend)
    requires Configured(policies, send) && TypedPayload(send.payload)
    ensures var value := JobEnvelope(policies, send);
            && Is(value, "schemaVersion", "pnq.job-dispatch/v1") && Is(value, "deviceId", send.device)
            && Is(value, "rootKind", EffectiveRootKind(policies, send))
            && Is(value, "rootExternalId", OrElse(send.rootExternalId, JobId(send.payload)))
            && Is(value, "operationKind", "job") && Is(value, "operationId", JobId(send.payload))
            && Is(value, "boundary", OrElse(send.boundary, "standalone_job"))
            && Get(value, "payload") == Some(send.payload)
  {
    var fields := JobEnvelope(policies, send).fields;
    forall i | 0 <= i < 8 ensures Lookup(fields, fields[i].key) == Some(fields[i].value) { LookupAt(fields, i); }
    assert fields[0].key == "schemaVersion" && fields[1].key == "deviceId" && fields[2].key == "rootKind";
    assert fields[3].key == "rootExternalId" && fields[4].key == "operationKind" && fields[5].key == "operationId";
    assert fields[6].key == "boundary" && fields[7].key == "payload";
  }

  lemma EdgeEnvelopeFields(hydrate: Value -> Value, send: EdgeSend)
    ensures var value := EdgeEnvelope(hydrate, send);
            && Is(value, "schemaVersion", "pnq.edge-workflow-dispatch/v1") && Is(value, "deviceId", send.device)
            && Is(value, "rootKind", "edge_workflow") && Is(value, "rootExternalId", send.workflow)
            && Is(value, "operationKind", "workflow") && Is(value, "operationId", send.workflow)
            && Is(value, "boundary", "edge_workflow")
            && Get(value, "template") == Some(hydrate(send.template)) && Get(value, "variables") == send.variables
  {
    var fields := EdgeEnvelope(hydrate, send).fields;
    assert fields[0].key == "schemaVersion" && fields[1].key == "deviceId" && fields[2].key == "rootKind";
    assert fields[3].key == "rootExternalId" && fields[4].key == "operationKind" && fields[5].key == "operationId";
    assert fields[6].key == "boundary" && fields[7].key == "template";
    forall i | 0 <= i < 8 ensures Lookup(fields, fields[i].key) == Some(fields[i].value) { LookupAt(fields, i); }
    if send.variables.Some? { LookupAt(fields, 8); } else { LookupAbsent(fields, "variables"); }
  }

  // ---- Round trips ----------------------------------------------------------

  // The validator accepts a built envelope for the row it is filed under exactly
  // when the caller named the root the arbiter looks up.
  lemma JobEnvelopeAccepted(policies: map<string, Policy>, send: JobSend)
    requires Configured(policies, send) && TypedPayload(send.payload)
    ensures IsJobEnvelope(JobEnvelope(policies, send), FiledUnder(policies, send)) <==>
            if RequiresExisting(policies, send) then send.rootExternalId.Some? || JobId(send.payload) == ""
            else send.rootExternalId.None? || send.rootExternalId.value == JobId(send.payload)
  {
    JobEnvelopeFields(policies, send);
  }

  lemma EdgeEnvelopeAccepted(hydrate: Value -> Value, send: EdgeSend)
    ensures IsEdgeEnvelope(EdgeEnvelope(hydrate, send),
                           Identity(send.device, "edge_workflow", send.workflow, send.workflow))
            <==> ObjectLike(Some(hydrate(send.template)))
  {
    EdgeEnvelopeFields(hydrate, send);
  }

  // No value is both, whatever rows it is read under.
  lemma EnvelopesDisjoint(value: Value, jobRow: Identity, edgeRow: Identity)
    ensures !(IsJobEnvelope(value, jobRow) && IsEdgeEnvelope(value, edgeRow))
  {
  }

  // Rebuilding an accepted envelope gives the same envelope, unless the send
  // named no boundary and the standalone boundary overrides its root kind.
  lemma JobReplayRebuilds(policies: map<string, Policy>, send: JobSend, row: Identity)
    requires Configured(policies, send) && TypedPayload(send.payload)
    requires IsJobEnvelope(JobEnvelope(policies, send), row) && "standalone_job" in policies
    ensures Configured(policies, ReplayJob(JobEnvelope(policies, send), row))
    ensures JobEnvelope(policies, ReplayJob(JobEnvelope(policies, send), row)) == JobEnvelope(policies, send) <==>
            !(send.boundary.None? && policies["standalone_job"].requiresExisting
              && policies["standalone_job"].rootKind != EffectiveRootKind(policies, send))
  {
    JobEnvelopeFields(policies, send);
    var again := ReplayJob(JobEnvelope(policies, send), row);
    JobEnvelopeFields(policies, again);
    assert EffectiveRootKind(policies, again) == EffectiveRootKind(policies, send)
           ==> JobEnvelope(policies, again) == JobEnvelope(policies, send);
  }

  lemma EdgeReplayRebuilds(hydrate: Value -> Value, send: EdgeSend, row: Identity)
    requires IsEdgeEnvelope(EdgeEnvelope(hydrate, send), row)
    ensures EdgeEnvelope(hydrate, ReplayEdge(EdgeEnvelope(hydrate, send), row)) == EdgeEnvelope(hydrate, send) <==>
            hydrate(hydrate(send.template)) == hydrate(send.template)
  {
    EdgeEnvelopeFields(hydrate, send);
    EdgeEnvelopeFields(hydrate, ReplayEdge(EdgeEnvelope(hydrate, send), row));
  }

  // A replayed job is filed under the row it was found under, so the validator
  // accepts it there again, however often it is replayed.
  lemma JobReplayStays(policies: map<string, Policy>, value: Value, row: Identity)
    requires IsJobEnvelope(value, row) && Configured(policies, ReplayJob(value, row))
    ensures var again := ReplayJob(value, row);
            IsJobEnvelope(JobEnvelope(policies, again), row) <==>
            !(RequiresExisting(policies, again) && policies[again.boundary.value].rootKind != row.rootKind)
  {
    JobEnvelopeFields(policies, ReplayJob(value, row));
  }

  // ---- What an accepted envelope says ---------------------------------------

  // An envelope replays under one row only: its own device, root and operation.
  lemma OneRow(value: Value, row: Identity, other: Identity)
    ensures IsJobEnvelope(value, row) && IsJobEnvelope(value, other) ==> row == other
    ensures IsEdgeEnvelope(value, row) && IsEdgeEnvelope(value, other) ==> row == other
  {
  }

  const JOB_FIELDS := ["schemaVersion", "deviceId", "rootKind", "rootExternalId", "operationKind", "operationId",
                       "boundary", "payload"]

  // The replay sends what the accepted envelope says, field by field, unless its
  // boundary overrides the root kind.
  lemma JobReplayFaithful(policies: map<string, Policy>, value: Value, row: Identity)
    requires IsJobEnvelope(value, row) && Configured(policies, ReplayJob(value, row))
    requires var again := ReplayJob(value, row);
             RequiresExisting(policies, again) ==> policies[again.boundary.value].rootKind == row.rootKind
    ensures forall key :: key in JOB_FIELDS ==>
              Get(JobEnvelope(policies, ReplayJob(value, row)), key) == Get(value, key)
  {
    JobEnvelopeFields(policies, ReplayJob(value, row));
    forall key | key in JOB_FIELDS
      ensures Get(JobEnvelope(policies, ReplayJob(value, row)), key) == Get(value, key)
    {
      var i :| 0 <= i < |JOB_FIELDS| && JOB_FIELDS[i] == key;
    }
  }

  const EDGE_FIELDS :=
    ["schemaVersion", "deviceId", "rootKind", "operationKind", "operationId", "boundary", "variables"]

  // The same for an edge workflow, which is named by its operation.
  lemma EdgeReplayFaithful(hydrate: Value -> Value, value: Value, row: Identity)
    requires IsEdgeEnvelope(value, row)
    ensures forall key :: key in EDGE_FIELDS ==>
              Get(EdgeEnvelope(hydrate, ReplayEdge(value, row)), key) == Get(value, key)
    ensures Get(EdgeEnvelope(hydrate, ReplayEdge(value, row)), "rootExternalId") == Get(value, "rootExternalId") <==>
            row.rootExternalId == row.operation
    ensures Get(value, "template").Some?
    ensures Get(EdgeEnvelope(hydrate, ReplayEdge(value, row)), "template")
            == Some(hydrate(Get(value, "template").value))
  {
    EdgeEnvelopeFields(hydrate, ReplayEdge(value, row));
    forall key | key in EDGE_FIELDS
      ensures Get(EdgeEnvelope(hydrate, ReplayEdge(value, row)), key) == Get(value, key)
    {
      var i :| 0 <= i < |EDGE_FIELDS| && EDGE_FIELDS[i] == key;
    }
  }

  // The root kind of a send: its boundary's where that requires an existing root;
  // else its own, its boundary's, and "job", the first of these that is given.
  lemma RootKindOf(policies: map<string, Policy>, send: JobSend, policy: Policy)
    requires send.boundary.Some? ==> send.boundary.value in policies && policies[send.boundary.value] == policy
    ensures send.boundary.Some? && policy.requiresExisting ==> EffectiveRootKind(policies, send) == policy.rootKind
    ensures send.rootKind.Some? && (send.boundary.Some? ==> !policy.requiresExisting) ==>
              EffectiveRootKind(policies, send) == send.rootKind.value
    ensures send.rootKind.None? && send.boundary.Some? ==> EffectiveRootKind(policies, send) == policy.rootKind
    ensures send.rootKind.None? && send.boundary.None? ==> EffectiveRootKind(policies, send) == "job"
  {
  }
}
