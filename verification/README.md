# Device fleet server: a verified model

A Dafny 4.11 model of the parts of the server where work is admitted, queued,
dispatched and recovered, and where reusable workflow artifacts are promoted,
rolled back and purged. `dafny verify dfyconfig.toml` checks all of it.

## What is modelled

**Dispatch** (`Ledger`, `Protocol`, `DeviceSlot`, `PermitLane`, `JobResults`,
`Authorisation`, `EdgeLane`, `Transport`, `Delivery`, `Replay`, `Boot`). The enforced
mode of the device execution arbiter. `Ledger` holds the tables (roots and
operations) and every transaction that writes them; `Protocol` adds the process
(running sends, result waiters), the wire and crashes. One event is one
transaction, one stretch between two awaits, one frame from a device, or a
crash, so a run is a sequence of events and "over every run" means over every
such sequence. `Transport` is the imperative side: the send methods, the queue
pump and the sweep, with arbitrary events of others between their awaits.

The transactions are those of `device-execution-arbiter.ts`. What they take from
the database and not from the code is the lifecycle of roots and operations;
the model uses the one the repository configures for its own database checks
(`tests/fixtures/device-execution-policy.ts`, lines 71 to 118). Whether a queued
root may be blocked is left open there, and is the parameter `blocksQueued`.

**Agency control plane** (`Lifecycle`, `RunCreation`, `StepLibrary`,
`StepCandidates`, `Purge`, `Confidence`, `Definitions`, `PolicyGates`). The
lifecycle tables are a parameter. Run creation is a state machine of interleaved
READ COMMITTED transactions, statement by statement; the other routes are methods
of a class whose fields are the tables. Confidence is counted in exact hundredths
and rounds halves up.

**JSON extraction** (`JsonExtract`) and the **migration runner** (`Migrate`).

`Json` and `Text` hold JSON values, `String.trim` and `String.toLowerCase`.

## Where the code differs from what is said about it

- A send that wrote no frame does not return its root to the queue. The root
  fails closed: blocked, or reconciling for a child of a dispatched root
  (`Transport.CompletedJobSettles`).
- The one-frame rule holds for jobs. The edge workflow lane authorises any live
  root that is not queued, so every further send while it is in flight writes the
  start frame again (`Authorisation.EdgeAuthorisedIff`, `EdgeLane.EdgeFrameWrittenAgain`).
- A child job's result is dropped, and its waiter kept, while the root is still
  dispatching: two automatic transitions match and the selector throws. This is
  the only loss (`JobResults.ResultFindsWaiter`, `JobResults.EarlyChildResultDropped`).
- Where queued roots can be blocked, a corrupt queue head becomes a second active
  root of a busy device (`DeviceSlot.CorruptSecondActive`, `DeviceSlot.SecondActiveReached`);
  where they cannot, it stays in the queue (`Transport.CorruptLeavesQueue`).
- A replay envelope of a job is rejected by its own validator when a boundary
  that needs no existing root was given an external id other than the job's
  (`Replay.JobEnvelopeAccepted`).
- An edge workflow whose hydrated template is no object is queued with an envelope
  its own validator rejects (`Delivery.QueuedEdgeGoesOut`).
- A job whose operation is not registered any more still takes its root to
  dispatching, although it gets no permit (`Authorisation.RefusedJobLeaves`).
- Only safety classes kept in the admission ledger are serialised; for the others
  the two checks do not help and the unique index alone keeps runs apart
  (`RunCreation.ProtectedExactly`).
- Partial feedback on a run without a timeline is accepted and nominates nothing,
  so candidates follow the boundaries accepted with a timeline
  (`StepCandidates.Table.CandidatesArePrefix`).
- The review route takes any manually allowed action, so it makes candidates
  reusable that were never validated, in every table in which validation can
  succeed at all (`StepCandidates.ReviewBypassesValidation`,
  `StepCandidates.ValidationOpensBypass`, `StepCandidates.Table.SealedMeansValidated`).
- The promotion route answers with a row that lacks the view's columns, and shows
  the promoted entry under review at 0.8 (`StepLibrary.PromotionReadBack`).
- The purge preview joins status definitions that the purge does not; the exact
  conditions are `Purge.RunsDefined` and `Purge.ArtifactsDefined`
  (`Purge.PreviewAgrees`).
- A default rollback is refused, although an older version exists, once five newer
  ones do (`Definitions.DefaultTarget`).

## Model

| member | source | states |
|---|---|---|
| `DeviceSlot.OneRootPerDevice` | src/modules/device-execution/device-execution-arbiter.ts:637-968 | over every run, crashes and boots included: no two roots of a device in flight, none overtaken in the queue; without blocking of queued roots, no two even active |
| `DeviceSlot.EntersYoungest` | src/modules/device-execution/device-execution-arbiter.ts:3635-3651 | over every run, roots enter the slot of a device in strictly increasing `fifo_sequence` |
| `DeviceSlot.StepMovesRoots` | src/modules/device-execution/device-execution-arbiter.ts:3778-3860 | any event moves roots forward only, writes at most one into a slot, and that one was the head of the queue of an idle device |
| `DeviceSlot.StepKeepsSlots` | src/modules/device-execution/device-execution-arbiter.ts:620-1198 | every event keeps the slot invariant, and one active root per device where queued roots are not blocked |
| `DeviceSlot.FreeSlot` | src/modules/device-execution/device-execution-arbiter.ts:3617-3633 | the most recently updated active root not being another root means that no other root is active at all |
| `DeviceSlot.CorruptSecondActive` | src/modules/device-execution/device-execution-arbiter.ts:568-618 | marking a corrupt head gives a device a second active root exactly when queued roots may be blocked, the head is still queued and another root is active |
| `DeviceSlot.SecondActiveReached` | src/modules/device-execution/device-execution-arbiter.ts:568-618 | a run that gets there: one root claimed, the next one of the device found corrupt in the queue, both active |
| `DeviceSlot.CorruptOps` | src/modules/device-execution/device-execution-arbiter.ts:568-618 | the mark takes a job of that id out of flight as well, blocked or to be reconciled, and touches no other operation |
| `DeviceSlot.ResolveEnds` | src/modules/device-execution/device-execution-arbiter.ts:2394-2700 | another authority ends the root in the state it gives, with exactly the operations of the root it names; a root that is over stays |
| `Authorisation.JobAuthorisedIff` | src/modules/device-execution/device-execution-arbiter.ts:640-968 | the permit lane authorises exactly: a registered job, its root on the device, the slot held by no other root, and a queued root only as the oldest of an idle device; a standalone root once only |
| `Authorisation.RefusedJobLeaves` | src/modules/device-execution/device-execution-arbiter.ts:790-943 | without a permit nothing moves but that a new standalone root is queued, except exactly where only the registration of the job is missing: then its root is dispatching although nothing will be sent |
| `Authorisation.EdgeAuthorisedIff` | src/modules/device-execution/device-execution-arbiter.ts:1213-1428 | the edge lane authorises exactly: a live root that is not queued, sent or not, and a queued or new one only as the oldest of an idle device |
| `Authorisation.RefusedEdgeLeaves` | src/modules/device-execution/device-execution-arbiter.ts:1213-1428 | without a permit the edge lane moves nothing; a new root is queued |
| `Authorisation.EdgeFrameWrittenTwice` | src/modules/device-execution/device-execution-arbiter.ts:1200-1571 | a run of two overlapping sends that writes one edge workflow's start frame twice |
| `EdgeLane.EdgeFrameWrittenAgain` | src/modules/device-execution/device-execution-arbiter.ts:1213-1428 | over every run: once a start frame is written, one more undisturbed send of the workflow writes the same frame again exactly when the device is online and the root is still in flight on it |
| `PermitLane.JobFrameWrittenOnce` | src/transport/transport.ts:206-228 | over every run, no two frames on the wire carry the same job |
| `PermitLane.NoWaiterLeaks` | src/transport/transport.ts:224-235 | over every run, once no send of a job is running its permit waiter is pending only if the frame was written |
| `PermitLane.StepKeepsLane` | src/ws/direct-ws.server.ts:590-744 | every event keeps calls, frames and waiters tied to the operation that authorised them |
| `PermitLane.PrepareJobPermits` | src/modules/device-execution/device-execution-arbiter.ts:895-960 | a permit goes to a registered operation only, takes it out of that state for good, and names the row it authorised |
| `PermitLane.PrepareJobChild` | src/modules/device-execution/device-execution-arbiter.ts:895-960 | a permitted operation is marked as a child exactly if a workflow was named |
| `PermitLane.UpsertRegisters` | src/modules/device-execution/device-execution-arbiter.ts:3688-3776 | registering an operation: what a new row holds, what a registered one takes over, and that the envelope stored first stays |
| `PermitLane.StepMovesOps` | src/modules/device-execution/device-execution-arbiter.ts:3688-3776 | no event returns an operation to registered, or changes its root, device or settled generation |
| `JobResults.ResultFindsWaiter` | src/ws/direct-ws.server.ts:1445-1545 | over every run in which a job keeps its workflow: an answer to a frame of this process meets the waiter, before the dispatched update or after, and is accepted exactly unless it is a child under a root still dispatching |
| `JobResults.EarlyChildResultDropped` | src/ws/direct-ws.server.ts:1445-1545 | the exception is met: a run after which the answer to a first child job changes nothing, although the same answer is accepted after the second transaction |
| `JobResults.ResultDeliveredOnce` | src/modules/device-execution/device-execution-arbiter.ts:2154-2392 | over every run, no job's result is delivered twice |
| `JobResults.ResultFreesDevice` | src/modules/device-execution/device-execution-arbiter.ts:2154-2392 | an accepted result ends its job and takes its waiter; a standalone job takes its root to the same end and leaves the device idle and its oldest queued root claimable; a child leaves all roots as they were |
| `JobResults.ResultEnds` | src/modules/device-execution/device-execution-arbiter.ts:2154-2392 | the whole effect of an accepted result: operation and standalone root completed or failed as the device reported, every other row, call and waiter as it was |
| `JobResults.AcceptedMeans` | src/modules/device-execution/device-execution-arbiter.ts:2200-2300 | what every accepted result satisfies: device, generation, handle and waiting permit all fit, and job and root are in flight |
| `JobResults.LostWaiterFailsClosed` | src/ws/direct-ws.server.ts:391-428 | a waiter goes only when the ledger closed its job; the root is then over, or blocked, or to be reconciled, by how far its send had got, and nothing else can enter the device |
| `JobResults.LostWaiterOperation` | src/ws/direct-ws.server.ts:391-428 | the operation goes the way of its root |
| `JobResults.LossMeans` | src/modules/device-execution/device-execution-arbiter.ts:2504-2960 | when the ledger confirms the loss of a waiter, by device, generation and state |
| `JobResults.StepKeepsPlaced` | src/modules/device-execution/device-execution-arbiter.ts:986-1197 | a job in flight runs under its own root, under that root's generation, and is never ahead of it |
| `Transport.CompletedJobSettles` | src/modules/device-execution/device-execution-arbiter.ts:986-1197 | the second transaction dispatches root and operation when the frame was written, and fails both closed when it was not |
| `Transport.EdgeClosesAlone` | src/modules/device-execution/device-execution-arbiter.ts:1430-1571 | an edge workflow's root and operation are dispatched when its frame was written, and fail closed when it was not; no other device is touched |
| `Transport.OwnStepElsewhere` | src/transport/transport.ts:178-246 | nothing a send does changes a root of another device |
| `Transport.Transport.Write` | src/transport/transport.ts:224-228 | waiter first, then the frame, which is the newest on the wire; written exactly when the device is online at the write and, for a job, no other waiter holds it by then; the waiter is there either way |
| `Transport.Transport.Close` | src/transport/transport.ts:230-235 | a job send that wrote nothing returns with no waiter under its permit and no frame of its job |
| `Transport.Transport.SendJob` | src/transport/transport.ts:183-246 | with any events in its gaps: exactly when the frame is written, in terms of the world before the send and those events; if not, neither frame nor waiter is left; the root has left the queue before anything is written |
| `Transport.Transport.SendEdge` | src/transport/transport.ts:307-346 | the frame is written exactly when a permit for the workflow's own root was given and the socket took it; undisturbed, the root is then dispatched, and fails closed otherwise |
| `Transport.Transport.NextHead` | src/transport/transport.ts:458-500 | a row of the oldest queued root with an operation, and none only if there is none |
| `Transport.Transport.Attempt` | src/transport/transport.ts:263-280 | what happens to a head, as a function of the world it is made in: its whole send, with when it is sent, or the corrupt mark exactly when no validator accepts the envelope; the marked root leaves the queue where queued roots may be blocked, and stays its head where not |
| `Transport.Transport.Turn` | src/transport/transport.ts:258-290 | the query sees a first row, or nothing only if there is none; the outcome and the world after are the function of what it saw; a sent head is younger than every root of the device that had the slot before; without enqueues it leaves the queue smaller |
| `Transport.HeadSends` | src/transport/transport.ts:258-281 | undisturbed, a head is sent exactly when the device is connected, nothing is active on it, the root is the oldest queued one, the envelope replays, and for a job the operation is registered and nobody waits for it |
| `Transport.CorruptLeavesQueue` | src/modules/device-execution/device-execution-arbiter.ts:568-618 | what the corrupt mark does to the queue of the device |
| `Transport.Transport.DispatchQueuedJobs` | src/transport/transport.ts:248-290 | turn after turn, online, sends the head its query saw; the first turn that sees none, cannot send or marks a corrupt head ends it, and nothing else but going offline does; frames go out in strictly increasing `fifo_sequence`; undisturbed it sends one root at most, exactly when its first head can be sent, and touches no other device; it ends whenever enqueues end |
| `Transport.FirstTurnSends` | src/transport/transport.ts:248-290 | an undisturbed pump sends something exactly when the device is online and connected and the first head it saw can be sent |
| `Transport.Transport.SweepQueuedJobs` | src/transport/transport.ts:292-305 | one whole pump for each device, each starting where the one before ended; sent and attempted are their sums; undisturbed, one root each at most and no other device touched |
| `Delivery.QueuedJobGoesOut` | src/transport/transport.ts:142-303 | over every run, crashes included: a standalone job that had to wait is sent by the first undisturbed pump that finds its root oldest, exactly if the device is connected and idle and the job still registered and not waited for; it is never found corrupt |
| `Delivery.QueuedEdgeGoesOut` | src/transport/transport.ts:248-346 | the same for an edge workflow, exactly if its hydrated template is an object; otherwise its own envelope is found corrupt |
| `Delivery.StandaloneReplays` | src/transport/transport.ts:142-153 | the envelope of a standalone send replays under the job root it is filed with |
| `Delivery.ChildReplays` | src/transport/transport.ts:193-205 | the envelope of a child job replays under the server workflow its boundary requires and its caller names |
| `Delivery.SentJobReplays` | src/transport/transport.ts:193-228 | in general: under the row a send is filed with, exactly if its caller named that root |
| `Delivery.SentEdgeReplays` | src/transport/transport.ts:321-346 | an edge envelope replays under its workflow exactly if the hydrated template is an object |
| `Delivery.RunKeepsEnvelopes` | src/modules/device-execution/device-execution-arbiter.ts:3688-3776 | over every run an operation keeps the first envelope stored with it, and its root |
| `Replay.JobEnvelopeAccepted` | src/transport/transport.ts:193-205 | a built envelope is accepted for the row it is filed under exactly when the caller named the root the arbiter looks up |
| `Replay.EdgeEnvelopeAccepted` | src/transport/transport.ts:321-331 | a built edge envelope is accepted for its own row exactly when the hydrated template is an object |
| `Replay.EnvelopesDisjoint` | src/transport/transport.ts:524-564 | no value passes both validators, under any rows |
| `Replay.OneRow` | src/transport/transport.ts:524-564 | an accepted envelope is accepted under one row only |
| `Replay.JobReplayRebuilds` | src/transport/transport.ts:263-272 | rebuilding from a replay gives the same envelope, except exactly where no boundary was named and the standalone boundary overrides the root kind |
| `Replay.EdgeReplayRebuilds` | src/transport/transport.ts:273-280 | rebuilding gives the same envelope exactly when hydrating the stored template again changes nothing |
| `Replay.JobReplayStays` | src/transport/transport.ts:524-541 | any accepted job envelope, rebuilt, is accepted for the same row again, unless its boundary overrides the root kind |
| `Replay.JobReplayFaithful` | src/transport/transport.ts:263-272 | the replay of an accepted job envelope says the same in every field, unless its boundary overrides the root kind |
| `Replay.EdgeReplayFaithful` | src/transport/transport.ts:273-280 | the same for an edge envelope, whose external id is its operation, and whose template is hydrated again |
| `Replay.RootKindOf` | src/transport/transport.ts:193-194 | where the root kind of a send comes from |
| `Boot.NothingInFlight` | src/index.ts:106-118 | after the boot no root is claimed, dispatching or dispatched, and a queued one is untouched or failed |
| `Boot.BootEndsExplainedRoots` | src/modules/device-execution/device-execution-arbiter.ts:3241-3375 | the boot ends an active root exactly when the tables at the crash held complete evidence for it, or its jobs never started |
| `Boot.BootedRoot` | src/modules/device-execution/device-execution-arbiter.ts:3037-3480 | where the boot leaves every root: an explained one in its workflow's own end state, one whose jobs never started failed, others in flight blocked or to be reconciled, and the rest untouched |
| `Boot.BootedOp` | src/modules/device-execution/device-execution-arbiter.ts:3343-3360 | where it leaves every operation: open ones of an explained root in the workflow's end state |
| `Boot.UndispatchedMeans` | src/modules/device-execution/device-execution-arbiter.ts:3060-3130 | which roots the last step fails: all jobs over, and the started ones long since, under a workflow that is over |
| `Boot.EvidenceBeforeBoot` | src/modules/device-execution/device-execution-arbiter.ts:3405-3480 | the evidence query after the fail-closed step finds exactly the roots with complete evidence at the crash |
| `Boot.BootFreesDevice` | src/index.ts:106-136 | a device whose active roots are all explained is idle after the boot, and its oldest queued root can be claimed |
| `Boot.SwappedOrderBlocks` | src/index.ts:106-110 | in the other order every root in flight stays active, whatever the evidence, unless its jobs never started, and no successor can be claimed |
| `Boot.OrderMatters` | src/index.ts:106-136 | a reachable crash after which the coded order frees the device and the other order blocks it |
| `Boot.RecoveryKeepsSlots` | src/modules/device-execution/device-execution-arbiter.ts:3037-3196 | recovery keeps the slot invariant |
| `Boot.RecoveryKeepsGood` | src/modules/device-execution/device-execution-arbiter.ts:3037-3480 | recovery keeps every invariant the events keep: slots, the permit lane, where operations are filed, and how edge operations begin |
| `Boot.RecoveryKeepsPlaced` | src/modules/device-execution/device-execution-arbiter.ts:3037-3480 | recovery leaves every job under its own root, not ahead of it |
| `Boot.Server.Bootstrap` | src/index.ts:106-136 | the three steps in order, which roots they end and in which state, with their operations, and the counts they report |
| `RunCreation.OneRunPerKey` | src/api/agency-routes.ts:1842-1943 | over every interleaving, with serialising admission and the second check or with the index: one committed run per idempotency key at most |
| `RunCreation.ProtectedExactly` | src/modules/workflows/workflow-safety-admission.service.ts:334-353 | one run per key over every interleaving if and only if there is the unique index, or the second check and one admission lock for all requests of a key |
| `RunCreation.SuccessesAgree` | src/api/agency-routes.ts:1842-1878 | over every interleaving, all successful answers for one key name the same run and asked for the same thing |
| `RunCreation.ConflictMeans` | src/api/agency-routes.ts:1842-1878 | over every interleaving, a conflict is answered only where the key is bound to a run of other content |
| `RunCreation.ErrorMeans` | src/api/agency-routes.ts:1905-1993 | a statement is answered with an error exactly if it failed or the index refused a bound key; whoever waits is neither answered nor moved |
| `RunCreation.BoundRequestAnswered` | src/api/agency-routes.ts:1842-1878 | after any interleaving that bound a key to a run, an explicit request of that key, whatever happens meanwhile, is answered with that run for the same content and with a conflict for other content |
| `RunCreation.BoundCheckAnswers` | src/api/agency-routes.ts:1887-1903 | the same for either check of a request already under way, in any state |
| `RunCreation.TwoRunsWithoutSecondCheck` | src/api/agency-routes.ts:1887-1903 | without the second check two runs of a key are reachable under any admission lock |
| `RunCreation.TwoRunsWithoutSharedLock` | src/modules/workflows/workflow-safety-admission.service.ts:334-353 | with both checks but no index, two runs of a key are reachable wherever two requests of it take no lock, or different ones |
| `RunCreation.RunsAndTasksCorrespond` | src/api/agency-routes.ts:1919-1976 | in every committed state of every interleaving of both routes, runs and their tasks are in one to one correspondence |
| `RunCreation.OnlyCommitWrites` | src/api/agency-routes.ts:1986-1997 | every statement but a commit leaves both tables as they were; a commit adds one run and one task that name each other |
| `RunCreation.Database.CreateRun` | src/api/agency-routes.ts:2939-3037 | either route, with any statements of others in between: a request whose key is bound is answered with its run or a conflict; undisturbed, one whose key and lock are free creates its run, and exactly the linked pair is added; any other answer changes nothing |
| `StepCandidates.Table.GiveFeedback` | src/api/agency-routes.ts:5288-5400 | only the run's candidates up to the boundary change: new ones hold their step, those still in the initial state take over step, boundary and note, all others stay as they were; errors change nothing |
| `StepCandidates.Table.NominateAll` | src/api/agency-routes.ts:5338-5385 | the loop inserts or updates exactly the steps up to the boundary |
| `StepCandidates.Table.CandidatesArePrefix` | src/api/agency-routes.ts:5339-5341 | after any sequence of routes a run's candidate indices are 0 to the largest boundary accepted with a timeline |
| `StepCandidates.Table.SourceStepGateHolds` | src/api/agency-routes.ts:266-268 | after any sequence of routes every candidate passes the source-step gate |
| `StepCandidates.Table.Review` | src/api/agency-routes.ts:4796-4838 | moves the state along a manually allowed transition, and nothing else; it leaves a reusable candidate unvalidated exactly where the action leads to a reusable state and the candidate was not validated |
| `StepCandidates.NamedMeans` | src/api/agency-routes.ts:586-590 | white space around the action and the case of its letters make no difference |
| `StepCandidates.Table.Validate` | src/api/agency-routes.ts:4840-4886 | succeeds exactly with an accepted contract and a unique manual transition to a reusable state; stores the evidence as sent and the contract with its conditions trimmed, moves to where that transition leads, and leaves everything else |
| `StepCandidates.Table.ValidatedPassesGates` | src/api/agency-routes.ts:256-271 | after any sequence of routes a validated candidate passes the contract, precondition, postcondition and evidence gates |
| `StepCandidates.Table.SealedMeansValidated` | src/api/agency-routes.ts:4796-4838 | in tables without such a series, after any sequence of routes every reusable candidate was validated |
| `StepCandidates.Table.Promote` | src/api/agency-routes.ts:4632-4794 | succeeds exactly for a reusable candidate, an allowed configured transition and, where the target enables reuse, an entry the target's policy admits; changes library state, scope and flags only; a review-ready entry reads back ready at 1.0; a revoked one needs the revoked blocker allowed |
| `StepCandidates.ReviewBypassesValidation` | src/api/agency-routes.ts:4810-4823 | for any tables in which a series of reviews leads from the initial state to a reusable one, the routes make a candidate reusable without validation or contract |
| `StepCandidates.ValidationOpensBypass` | src/api/agency-routes.ts:4796-4886 | every table in which validation can succeed has such a series |
| `StepLibrary.ValidationPassesGates` | src/api/agency-routes.ts:608-640 | what a validation accepts passes the four gates once stored, with the conditions that were sent |
| `StepLibrary.ValidationAccepted` | src/api/agency-routes.ts:608-640 | accepted exactly: an object that lists a precondition and a postcondition that are not blank, with evidence, which is kept as sent |
| `StepLibrary.ReadinessMeans` | src/api/agency-routes.ts:243-303 | both ready states characterised by the gates; their scores are 0.9 and 1.0 exactly for reusable candidates |
| `StepLibrary.GatesMean` | src/api/agency-routes.ts:243-275 | what the gates ask of a row, in terms of its contract, evidence and flags |
| `StepLibrary.BlockerMeans` | src/api/agency-routes.ts:276-286 | each blocker is raised exactly for its gate |
| `StepLibrary.PromotionReadBack` | src/api/agency-routes.ts:4724-4767 | a promoted review-ready entry reads back ready at 1.0 exactly when a scope was named; the route's own answer shows it at 0.8 |
| `StepLibrary.VerdictMeans` | src/api/agency-routes.ts:4693-4730 | admitted exactly at the threshold, with all blockers allowed, under a scope the policy takes |
| `StepLibrary.RevokedStaysRevoked` | src/api/agency-routes.ts:4693-4709 | a revoked entry is promotable only where the policy allows the revoked blocker |
| `Lifecycle.SelectManual` | src/modules/lifecycle/lifecycle.service.ts:401-437 | missing exactly without an allowed action, ambiguous exactly with several, and otherwise the one target, which has the wanted flags |
| `Lifecycle.SelectedWay` | src/modules/lifecycle/lifecycle.service.ts:401-437 | the selected state is where the only such transition leads; nothing is selected exactly if there is none |
| `Lifecycle.WaySelected` | src/modules/lifecycle/lifecycle.service.ts:401-437 | the only such transition is always selected |
| `Purge.PreviewAgrees` | src/api/agency-routes.ts:5101-5178 | the preview's sets lie within the purge's, and the counts agree exactly where every touched row has a defined status |
| `Purge.Agency.PurgeFailed` | src/api/agency-routes.ts:5185-5287 | all or nothing; exactly the failed rows and the artifacts they name are gone; the counts are the rows removed, and agree with the preview on those conditions |
| `Purge.PurgeRemoves` | src/api/agency-routes.ts:5185-5287 | row by row what is gone: failed jobs, failed runs, artifacts in a failed state or named by a failed job or run; everything else stays |
| `Purge.PreviewCounts` | src/api/agency-routes.ts:5101-5178 | row by row what the preview counts |
| `Purge.SecondPurgeEmpty` | src/api/agency-routes.ts:5185-5277 | a second purge and a second preview find nothing |
| `Purge.LatePurgeKeepsHandled` | src/api/agency-routes.ts:5188-5236 | with jobs and runs deleted first only artifacts failed by their own state go: the same result exactly when the handles named no others |
| `Purge.LatePurgeLeavesArtifact` | src/api/agency-routes.ts:5188-5236 | tables where that order leaves an artifact behind |
| `Confidence.PromotionMonotone` | src/api/agency-routes.ts:846-848 | promotion confidence never falls with score or coverage |
| `Confidence.PromotionBounds` | src/api/agency-routes.ts:846-851 | always within 0 and 0.99, and at least 0.57 when ready |
| `Confidence.PromotionBoundsMet` | src/api/agency-routes.ts:846-851 | both bounds of a ready promotion are met |
| `Confidence.RoundNearest` | src/api/agency-routes.ts:846-848 | rounding is to the nearest hundredth, halves up |
| `Confidence.DecayBounds` | src/api/agency-routes.ts:983-992 | decay never raises a confidence and takes at most 0.65 |
| `Confidence.DecayMet` | src/api/agency-routes.ts:983-992 | what each failure, each day and an unknown date cost, and that the largest loss is met |
| `Confidence.DecayMonotone` | src/api/agency-routes.ts:983-992 | decayed confidence never rises with failures or days |
| `Confidence.ThresholdAge` | src/api/agency-routes.ts:990-1003 | without failures the 0.6 check passes for exactly confidence minus 60 days, always from 0.85, never below 0.6 |
| `Definitions.Registry.Promote` | src/api/agency-routes.ts:3532-3729 | succeeds exactly for an allowed transition that, where it enables reuse, passes the policy, static, score and coverage gates; the scores that passed are recorded with the policy's, the confidence follows from them, and any other target withdraws |
| `Definitions.Registry.Rollback` | src/api/agency-routes.ts:3820-4067 | without a target it applies exactly when an older version exists, at most four are newer and both transitions are configured, and then to the greatest older one; with a target, exactly to an older one of the same key; the restored version takes over the scope and, if it has none, the confidence, is promoted and where its one transition leads; the source is withdrawn |
| `Definitions.RestoredRows` | src/api/agency-routes.ts:3902-4021 | the two rows of a rollback, field by field |
| `Definitions.DefaultScopesDiffer` | src/api/agency-routes.ts:3902 | the scope given to a version without one names it and no other version |
| `Definitions.Registry.PreviewRows` | src/api/agency-routes.ts:1035-1043 | the five greatest other versions, in descending order |
| `Definitions.Registry.PreviewTarget` | src/api/agency-routes.ts:1045 | an older target exactly when there is one and at most four are newer, and then the greatest |
| `Definitions.DefaultTarget` | src/api/agency-routes.ts:1034-1045 | what the preview selects from any such window |
| `Definitions.RollbackKeeps` | src/api/agency-routes.ts:3948-4021 | a rollback keeps confidence bounds, revoked meaning no scope and no confidence, keys and versions, and how every reusing definition came to be so: through the gates, or restored from a newer version of its own key |
| `Definitions.UpdateKept` | src/api/agency-routes.ts:3625-3729 | any one change of a definition that keeps its own share keeps that of all others |
| `Definitions.ChainsEnd` | src/api/agency-routes.ts:3868-3874 | rollbacks from what the last one restored, with any other changes in between that add no version, strictly descend in version, and are no more than there were older versions before the first |
| `PolicyGates.GatesAnywhere` | src/api/agency-routes.ts:375-397 | the traversal meets exactly the gates in the two arrays of any object at any depth |
| `PolicyGates.AddAllFirst` | src/api/agency-routes.ts:385-393 | every id is bound to its first occurrence |
| `PolicyGates.AddAllHas` | src/api/agency-routes.ts:385-393 | no id is lost and none invented |
| `PolicyGates.GateMap.Collect` | src/api/agency-routes.ts:375-397 | the recursive traversal of the map adds the gates of a tree in that order |
| `PolicyGates.Summarise` | src/api/agency-routes.ts:399-422 | exactly the ids held anywhere in decision or candidates, each with its first gate; total is their number, and every count is at most total |
| `PolicyGates.BlockedMeans` | src/api/agency-routes.ts:408-419 | which gates are counted as blocked, high risk and safe |
| `JsonExtract.ExtractOutermostObject` | src/utils/json-extract.ts:26-38 | the balanced slice from the first opening brace, and none exactly when none closes |
| `JsonExtract.BalancedUnique` | src/utils/json-extract.ts:26-38 | the slice is the shortest that closes, and the only one |
| `JsonExtract.EmbeddedExtracted` | src/utils/json-extract.ts:26-38 | any text from its first brace on is extracted exactly when it is balanced, for any suffix |
| `JsonExtract.ObjectTextExtracted` | src/utils/json-extract.ts:26-38 | the text of any JSON object, with any numbers, escapes and white space but no braces in its strings, is extracted from any text around it |
| `JsonExtract.BraceInStringCut` | src/utils/json-extract.ts:31-36 | a brace in a string cuts the object short |
| `JsonExtract.ExtractJson` | src/utils/json-extract.ts:7-24 | the whole text, else the fenced text, else the extracted object, as far as each parses |
| `JsonExtract.FencedMeans` | src/utils/json-extract.ts:11-15 | the fenced text stands between the first fence and the next one, and is there exactly if both are |
| `JsonExtract.FencedReadBack` | src/utils/json-extract.ts:7-24 | a fenced JSON text, tagged or not, comes back as what it means |
| `JsonExtract.ObjectReadBack` | src/utils/json-extract.ts:7-24 | an embedded object comes back as the value its text means |
| `Migrate.FailedFilesContributeNothing` | src/db/migrate.ts:16-36 | the fold of all files is the fold of exactly those that committed |
| `Migrate.ListingOrderIrrelevant` | src/db/migrate.ts:126-128 | the order of the directory listing makes no difference |
| `Migrate.PlanMeans` | src/db/migrate.ts:121-131 | the plan holds exactly the files named *.sql of the first directory that has migrations, in name order |
| `Migrate.BelowMeans` | src/db/migrate.ts:128 | name order is decided at the first difference |
| `Migrate.FirstSchemaMeans` | src/db/migrate.ts:101-119 | the schema file is that of the first directory that has one |
| `Migrate.Client.ApplyFile` | src/db/migrate.ts:16-36 | commits, skips, fails or throws, case by case, with the error codes and messages that mean a file was applied before, and leaves the tables accordingly |
| `Migrate.Client.ApplyAll` | src/db/migrate.ts:131-140 | the in-order fold up to the first file that stops it, with the number of failures passed over |
| `Migrate.RunMigrations` | src/db/migrate.ts:76-153 | the client is always released; a normal return means every guarded file is in place; a throw leaves nothing of that file or later ones |

## Left out

- The observe-only mode, the version 2 shadow queue, the legacy generated-workflow lane and cancel control egress: they bypass the permit path.
- PostgreSQL, Redis, BullMQ, sockets and files: a transaction that locks its device is one atomic event, the wire is a log with an online or offline outcome, a migration is a function on tables.
- `Protocol.Step`: roots are jobs, server workflows and edge workflows; batch and control roots, sends by row id, and job boundaries that require an existing root of another kind than a server workflow are not modelled.
- Transport.Transport.DispatchQueuedJobs: when others enqueue for ever the pump need not end, and is not modelled; a boundary that is no longer configured throws and is not modelled; a job envelope found under an edge workflow's root, which no sender builds, counts as corrupt; the update of the workflow row after a replayed edge send is left out.
- `JobResults.ResultFindsWaiter`: assumes that every event gives a job the same workflow, as the jobs table does; waiters of another process are gone with it.
- Ledger.ResolveRoot: terminal reports, cancellation, administrators and evidence are one event that may end any root at any time; what each of them checks first is left out, except at boot.
- Boot.Server.Bootstrap: workflow and job rows are reduced to the flags the queries read; the update of the workflow row itself is left out.
- Ledger.MarkCorrupt: a job and a workflow are taken not to share an id; marking a corrupt workflow head would write its generation to the row of a running job with that id.
- Migrate.RunMigrations: a migration file is taken not to end the runner's transaction; nine of the repository's files contain BEGIN and COMMIT (src/db/migrations/004_phase4.sql, lines 4 and 65), with COMMIT as the last statement, so that nothing of them runs outside it.
- JSONB storage: key order and number formats are taken as kept, and an undefined field as absent.
- RunCreation.Database.CreateRun: request validation, the ledger's own limits, approvals and replays, and later changes of status appear only as statements that fail; rows are not deleted.
- StepCandidates.Table: each route is one step; two routes racing on one candidate are not modelled, nor are length checks, notes' trimming, and the notes of reviews and validations.
- Definitions.Registry: each route is one step, although the routes read before their transaction; who promoted or revoked, and the event log, are left out, because a rollback writes one event for two definitions.
- Purge.Agency.PurgeFailed: rows deleted by cascade from runs are left out.
- Floating-point rounding: arithmetic is exact.
- Text.Lower: folds the letters A to Z only.
- Policies of library and promotion states: taken as already parsed from their metadata.
- JsonExtract.ExtractJson: the parser and `String.trim` are parameters.
- Routes for clients, materials, posts and reports, authentication, the dashboard and the scripts: each is settled by one branch.
