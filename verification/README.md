# Verification of the lead engine's compute coordinator and work queues

This project models the leased-task protocol of the lead engine and proves what it keeps over
every run. The centre is the compute coordinator: tasks, execution attempts and per-attempt
participants are three tables changed by about a dozen lock-held public methods, tied together by
lease tokens, generations and a clock. Seven smaller algorithms of the same engine follow: the
specialist work queue, the resilient batch upsert, the pending-lead scan, the placement search, the
buyer progression fold, the route prediction and the referral commission.

## How it is built

* `LeaseState.dfy` holds the tables and one step function per public method; `Step`, `Legal` and
  `Run` make a transition system of them. Random identities, the clock, the scheduler's answer and
  the verdict of evidence checks are parameters of a step. A SHA-256 digest is an injective
  datatype constructor.
* `LeaseInvariant.dfy` proves the lockstep invariant, `LeaseRuns.dfy` what no continuation undoes,
  `LeaseTheorems.dfy` the safety theorems, `Settled.dfy` what grants, reports and outcomes leave
  behind.
* `Outcomes.dfy`, `Grants.dfy` and `WorkerPool.dfy` say when each call takes effect and what it
  writes, in terms of the columns before it: completions, reports, convergence and bindings; both
  kinds of claim; the worker pool and who may come back to it.
* `Conservation.dfy` and `Allocations.dfy` treat worker slots and physical allocations. Both laws
  fail for some calls of the code, as do distinct endpoints of lease holders and resuming from
  checkpoints; each is proved as an exact condition, and `Counterexamples.dfy` gives runs from the
  empty database that break it.
* `Failover.dfy` and `FailoverRuns.dfy` follow an exact-path failover from the failure report to the
  lease that activates the standby. `Recovery.dfy` proves that recovery settles.
* `Coordinator.dfy` is the coordinator as an object whose methods update the tables in place, loops
  included. Each method is proved to take exactly the step of `LeaseState`; the two-phase recovery
  loops (`Batches.dfy`) and the ordered, paged table scans (`Queries.dfy`) are refinements with
  their own proofs. `Controller.dfy` is the fabric controller as its client.
* `Checkpoints.dfy`, `Metrics.dfy` and `LaunchPlan.dfy` cover checkpointed lead preparation, the
  performance caches and the rank assignment of launch plans.
* `AgentQueue.dfy`, `BatchUpsert.dfy`, `SyncScan.dfy`, `Placement.dfy`, `BuyerProgression.dfy`,
  `RoutePrediction.dfy` and `Referral.dfy` are self-contained, over `Base.dfy` and `Sorting.dfy`.

## What the code does that its documentation does not say

The model follows the code in each case.

* `claim` reserves the worker's slot before it parses the queue. A queued payload with malformed
  `required_capabilities` raises out of the scan and the slot stays taken
  (`Conservation.SlotsKeptExactlyWhen`, `Counterexamples.PoisonedClaimLeaksItsSlot`).
* `recover_fabric_attempt` reads the failed path and computes the rebind contract between the
  committed fence and the release of what the attempt held. It raises there when the report's
  `physical_path` is neither empty nor a mapping, and when the failed path's GPU pair has no durable
  route set. The allocation then stays bound to an attempt that is over and a worker stays charged
  (`Conservation.SlotsKeptExactlyWhen`, `Allocations.AllocationsKeptExactlyWhen`,
  `Counterexamples.MalformedReportLeaksBoth`, `Counterexamples.RaisedRecoveryLeaksItsAllocation`).
* `claim_physical` returns the stored payload as it is. Leads that an earlier worker lease
  checkpointed are handed out again, where `claim` would take them out (`Checkpoints.ClaimsResume`,
  `Counterexamples.PhysicalClaimRepeatsCheckpointedLeads`).
* A physical claim whose placement does not activate the required standby releases an allocation
  that was only reserved; the release demands the exact binding and does nothing
  (`Allocations.PhysicalClaimReservations`, `Counterexamples.RefusedPlacementKeepsItsReservation`).
* The rendezvous conflict check looks at running attempts only, so an attempt that has converged but
  still holds its lease does not block its endpoint. Lease holders keep distinct endpoints exactly
  while no call binds one of a converged holder (`LeaseTheorems.HoldersStayDistinctExactlyWhen`,
  `Counterexamples.ConvergedHolderAndRunnerShareAnEndpoint`).
* A worker's quarantine or revocation does not survive its silence: anyone's claim marks every worker
  stale that was silent for a lease, barred ones included, and a stale worker's next heartbeat makes
  it ready (`WorkerPool.BarredExactlyWhen`, `WorkerPool.SilentBarredWorkerComesBack`).
* A claim whose binding fails hands its task back only while its lease lasts; when reserving took a
  whole lease, the lapsed lease stays in the tables until the next recovery
  (`Grants.RefusedClaimReturns`).
* A failure report that finds no standby does not cancel an older pending selection; the newest
  selection that names a path stays binding (`FailoverRuns.PendingIsNewest`).
* The first summary cached for a path or workload stores its greatest sample as the last one
  (`Metrics.FirstLastIsNewestExactlyWhen`), and a re-report under another path leaves the old path's
  summary stale (`Metrics.RunAgreesExactlyWhen`, `Metrics.MovedReportGoesStale`). A duration that is
  not a number passes the evidence check and raises when it is stored
  (`Metrics.FabricMetrics.RecordVerification`).
* On the dictionary-backed work queue the lease token is ignored and a lapsed lease still finishes
  (`AgentQueue.LeaseTokensAreIgnored`); a verification task is stored next to an active one with its
  key exactly when that one carries a stage (`AgentQueue.UniqueKeptExactlyWhen`); `claim_task`
  ignores the concurrency cap and breaks it exactly when the agent already runs its cap
  (`AgentQueue.CapsKeptExactlyWhen`).
* Route samples of one instant are ordered by latency, so four or more of them read as degrading
  exactly when their latencies are pairwise different (`RoutePrediction.SameInstantReadsAsDegrading`).
* The buyer report asks to reconfirm dimensions that were already reconfirmed
  (`BuyerProgression.ReconfirmedYetRequired`).

## Model

| member | source | states |
|---|---|---|
| LeaseInvariant.StepKeepsInv | lead_engine/compute_coordinator.py:968-1251 | every public step keeps tasks, attempts and participants in lockstep: a leased task points at its running or converged attempt with the same generation, worker and token digest, a running attempt's task is leased on it, verdicts match outcomes, digests and generations are unique |
| LeaseInvariant.RunKeepsInv | lead_engine/compute_coordinator.py:968-3498 | the lockstep invariant holds in every reachable state |
| LeaseInvariant.OneRunningAttempt | lead_engine/compute_coordinator.py:1013-1046 | no task has two running attempts, and the running one is exactly what the task is leased on |
| LeaseInvariant.RecoverFences | lead_engine/compute_coordinator.py:1413-1457 | a failure report on the current generation requeues the task and fails the attempt, whether or not reading the report raises afterwards; the lost-fence branches are not reached |
| LeaseInvariant.InsertedRanks | lead_engine/compute_coordinator.py:1707-1728 | node i of an allocation becomes participant rank i of a world of all nodes |
| Base.TextLessExactlyWhen | lead_engine/physical_fabric.py:345-345 | text order is that of the first differing character, a proper prefix first |
| LeaseTheorems.GenerationsExactlyOnce | lead_engine/compute_coordinator.py:1013-1046 | in every run from the empty database a task's attempts carry the generations 1..generation exactly once each and the attempt counter equals the generation |
| LeaseTheorems.RunningAttemptsAreWhole | lead_engine/compute_coordinator.py:2344-2395 | a running attempt never has a failed, expired, released or completed participant |
| LeaseTheorems.TokenHolder | lead_engine/compute_coordinator.py:3293-3295 | only the generation that holds the lease can present its token |
| LeaseTheorems.LapsedLeaseNeverRevives | lead_engine/compute_coordinator.py:3219-3341 | once a generation lost its lease, in every continuation no heartbeat, verification, state report, endpoint binding, checkpoint, release, convergence or completion presenting its token changes anything |
| LeaseTheorems.StaleReportsOnlyRecord | lead_engine/compute_coordinator.py:1372-1411 | a late failure report about an attempt that stopped running at most appends a recovery event |
| LeaseTheorems.WrongGenerationOnlyRecords | lead_engine/compute_coordinator.py:1373-1394 | a report naming another generation is answered as stale and only recorded |
| LeaseTheorems.CompletedForever | lead_engine/compute_coordinator.py:3297-3306 | a completed task never changes again, and completing it again is confirmed exactly for the recorded worker, lease and result |
| LeaseTheorems.CompletionIsExactlyOnce | lead_engine/compute_coordinator.py:3297-3321 | whoever holds an open lease on a task completes it, and that completion is afterwards confirmed to the same worker, token and result and to nobody else; whoever does not changes nothing |
| Outcomes.CompletesExactlyWhen | lead_engine/compute_coordinator.py:3297-3321 | a first completion succeeds if and only if the task is leased to the worker under this non-empty token until a later time; the row then holds worker, digests and result, the attempt is finished, its participants complete, the slot and the allocation given back, and nothing else changed |
| Outcomes.ReleasesExactlyWhen | lead_engine/compute_coordinator.py:3323-3341 | a release succeeds under the same condition and requeues the task, ending attempt and participants as released |
| Outcomes.HeartbeatTakenExactlyWhen | lead_engine/compute_coordinator.py:3219-3291 | a participant heartbeat is taken if and only if its attempt runs under an unexpired lease with this generation and token, its last one is less than a lease old and its worker is known with an acceptable load; it refreshes participant, worker and lease and nothing else |
| Outcomes.EvidenceTakenExactlyWhen | lead_engine/compute_coordinator.py:2923-2942 | sound evidence is recorded if and only if the attempt runs under an unexpired lease, and collective evidence only with an endpoint; it verifies the participant and, when collective, renews the lease |
| Outcomes.StateTakenExactlyWhen | lead_engine/compute_coordinator.py:2344-2395 | a state report is taken if and only if the attempt runs under an unexpired lease and the status repeats, is the next of bound, launching, active, running, or is failed; a failure fences the attempt |
| Outcomes.FailureReportAnswers | lead_engine/compute_coordinator.py:1331-1535 | a failure report fences exactly a running attempt of the generation it names: task requeued, attempt failed and rejected, all participants failed now, slot and allocation given back unless reading the report raises; any other report is answered as stale or already fenced and only recorded |
| Outcomes.ConvergesExactlyWhen | lead_engine/compute_coordinator.py:3044-3192 | an attempt converges if and only if it runs under an unexpired lease, all its participants run verified and the paths reconcile; it is then accepted and its participants complete; asked again it says so, and every other answer changes nothing |
| Outcomes.EndpointBoundExactlyWhen | lead_engine/compute_coordinator.py:1743-1793 | an endpoint is bound if and only if its attempt runs under an unexpired lease and has it already or has none while no other such attempt has it |
| Outcomes.AllocationBoundExactlyWhen | lead_engine/compute_coordinator.py:1561-1581 | an allocation is bound to a running attempt with this generation and token, its lease lapsed or not, if and only if it has none or the same |
| Grants.ClaimGrantsExactlyWhen | lead_engine/compute_coordinator.py:1173-1251 | a worker is granted a task if and only if it is ready, was heard of within a lease and has its slot free after recovery, and the task is the first waiting one by creation time and id that suits its capabilities, has well-formed leads and, if it asks for resources, asks for this worker and is placed on ready nodes; it raises exactly on a malformed row or lead met first |
| Grants.PhysicalClaimGrantsExactlyWhen | lead_engine/compute_coordinator.py:968-1171 | a physical claim is granted a task if and only if it is the first waiting one with readable requirements among a hundred that mention any, the scheduler places it in full on distinct ready nodes, and the placement activates the pending standby if there is one |
| Grants.RefusedClaimReturns | lead_engine/compute_coordinator.py:1222-1251 | a claim refused after it chose a task leaves the task waiting and its attempt released, unless the binding outlasted the lease |
| Grants.RefusedPhysicalClaimReturns | lead_engine/compute_coordinator.py:1048-1153 | and so does a physical claim |
| WorkerPool.RegistrationKeepsSlots | lead_engine/compute_pool.py:298-323 | registering readies a worker unless it is barred and leaves its slot counter alone |
| WorkerPool.WorkerHeartbeatTakenExactlyWhen | lead_engine/compute_pool.py:325-335 | a heartbeat is taken exactly from a known worker reporting at most one task; it overwrites the slot counter and brings back a stale worker but no barred one |
| WorkerPool.StatusMoves | lead_engine/compute_pool.py:298-381 | each step leaves each worker with exactly the status this table of calls gives it; claims mark every silent worker stale and no other call but registration, heartbeats and the administrator moves a status |
| WorkerPool.BarredExactlyWhen | lead_engine/compute_pool.py:337-342 | a quarantined or revoked worker stays so after a step if and only if the step does not set another status and is not a claim while the worker has been silent for more than a lease |
| WorkerPool.BarredWorkersGetNothing | lead_engine/compute_pool.py:417-424 | over every run without such a step it stays barred and is granted nothing |
| WorkerPool.SilentBarredWorkerComesBack | lead_engine/compute_pool.py:325-342 | after a lease of silence anyone's claim and one heartbeat make a barred worker ready |
| LeaseTheorems.VerdictsNeverFlip | lead_engine/compute_coordinator.py:3157-3177 | an accepted or rejected attempt keeps its verdict in every continuation |
| LeaseTheorems.AcceptedOnlyByFullConvergence | lead_engine/compute_coordinator.py:3054-3177 | an attempt becomes accepted only in a convergence by one of its participants, under an unexpired lease, when every participant is running with a stored verification |
| LeaseTheorems.ParticipantsOnlyAdvance | lead_engine/compute_coordinator.py:2344-2383 | while its attempt runs a participant never goes back in bound, launching, active, running and never loses its evidence |
| LeaseTheorems.StepKeepsEndpoints | lead_engine/compute_coordinator.py:1743-1793 | no step gives two attempts running under live leases the same endpoint |
| LeaseTheorems.RunKeepsEndpoints | lead_engine/compute_coordinator.py:1743-1793 | in every run attempts running under live leases have pairwise distinct endpoints |
| LeaseTheorems.SharedEndpointMeansConverged | lead_engine/compute_coordinator.py:1761-1776 | with running attempts apart, two lease holders share an endpoint if and only if one of the two has already converged |
| LeaseTheorems.ConvergedHolderSharesItsEndpoint | lead_engine/compute_coordinator.py:1761-1793 | the endpoint of a converged holder is bound for a running attempt without objection |
| LeaseTheorems.HoldersStayDistinctExactlyWhen | lead_engine/compute_coordinator.py:1743-1793 | a step keeps the endpoints of all lease holders distinct if and only if it does not bind, for a running attempt without one, the endpoint of a converged holder |
| LeaseTheorems.RunKeepsHolders | lead_engine/compute_coordinator.py:1743-1793 | over every run without such a binding attempts with live leases have pairwise distinct endpoints |
| LeaseTheorems.EndpointsWriteOnce | lead_engine/compute_coordinator.py:1757-1792 | an attempt's endpoint never changes once written |
| LeaseRuns.StepGrows | lead_engine/compute_coordinator.py:968-3498 | what any single step may change: generations grow, completed rows, endpoints, verdicts, checkpoints and events stay, a lost lease stays lost, every counted generation has its attempt |
| LeaseRuns.RunGrows | lead_engine/compute_coordinator.py:968-3498 | the same over every continuation of a run |
| LeaseRuns.CheckpointsWriteOnce | lead_engine/compute_coordinator.py:616-633 | a stored checkpoint row is never overwritten by a later report |
| Settled.RunSettles | lead_engine/compute_coordinator.py:3311-3337 | in every reachable state the participants of an attempt that is over are in a terminal status |
| Settled.HeartbeatRenews | lead_engine/compute_coordinator.py:3219-3291 | after an accepted participant heartbeat the lease runs a full term from now, and until it ends the participant is live and it and its worker are heard of within any longer timeout |
| Settled.VerificationRenews | lead_engine/compute_coordinator.py:2923-2942 | a collective verification renews the lease and needs a bound endpoint, a single-device one only records evidence |
| Settled.GrantedClaimIsALease | lead_engine/compute_coordinator.py:1173-1211 | a granted worker claim is a full lease of a supported task under a new generation and running attempt, on a slot that was free |
| Settled.GrantedPhysicalClaimIsALease | lead_engine/compute_coordinator.py:999-1080 | a granted physical claim is a full lease held by the fabric identity, with its allocation bound to exactly that execution |
| Settled.GrantedParticipantsAreRanked | lead_engine/compute_coordinator.py:1098-1118 | it has one participant per distinct node, ranked in node order, bound as of now to exactly this task, generation and allocation |
| Settled.EnqueueIsIdempotent | lead_engine/compute_coordinator.py:647-664 | an unknown task id is stored waiting as of now without attempts; a known one changes nothing and is accepted exactly for the same payload |
| Conservation.SlotsKeptExactlyWhen | lead_engine/compute_coordinator.py:1173-1251 | after a step every worker's slot counter equals the tasks leased to it if and only if the step was not a heartbeat reporting another load, nor a claim that met a malformed payload, nor a failure report that raised on a worker-held lease |
| Conservation.RunKeepsSlots | lead_engine/compute_coordinator.py:3317-3498 | over runs of calls under that guard slots are conserved through completion, release, failed binding, expiry, loss and recovery |
| Conservation.RecoverSlots | lead_engine/compute_coordinator.py:1460-1527 | a recovery keeps the slots exactly when it does not raise on a worker-held lease, which takes a malformed path entry, because only physical leases carry a placement |
| Conservation.RaisesExactlyWhen | lead_engine/compute_coordinator.py:1460-1501 | reading the report raises after the fence exactly when its path entry is malformed or the known failed path's GPU pair has no durable route set |
| Conservation.ClaimSlots | lead_engine/compute_coordinator.py:1180-1195 | a claim keeps the slot ledger unless its scan raises after reserving |
| Allocations.AllocationsKeptExactlyWhen | lead_engine/compute_coordinator.py:1460-1527 | after a step every bound allocation belongs to the current attempt of a leased task if and only if the step was not a failure report that raises, on a malformed path entry or a missing route set, while the attempt's allocation is bound |
| Allocations.RunKeepsAllocations | lead_engine/compute_coordinator.py:962-965 | over every run without such a report whatever is bound belongs to a live lease |
| Allocations.BindReservations | lead_engine/compute_coordinator.py:1048-1153 | a binding leaves its reservation behind exactly when a required standby was not activated |
| Allocations.PhysicalClaimReservations | lead_engine/compute_coordinator.py:1061-1066 | the same for a whole physical claim, decided from the events before it and the placement it gets |
| Counterexamples.PoisonedClaimLeaksItsSlot | lead_engine/compute_coordinator.py:1180-1190 | a run from the empty database that ends with a charged slot and no lease |
| Counterexamples.RaisedRecoveryLeaksItsAllocation | lead_engine/compute_coordinator.py:1489-1527 | a run from the empty database that ends with a queued task whose allocation is still bound |
| Counterexamples.MalformedReportLeaksBoth | lead_engine/compute_coordinator.py:1460-1527 | a run from the empty database in which a report with a malformed path leaves a queued task with its worker charged and its allocation bound |
| Counterexamples.RefusedPlacementKeepsItsReservation | lead_engine/compute_coordinator.py:1061-1066 | a run in which the lease after a failover is placed without the selected standby and its reservation stays |
| Counterexamples.ConvergedHolderAndRunnerShareAnEndpoint | lead_engine/compute_coordinator.py:1761-1776 | a run of two leases in which the first converges and the second binds the same endpoint |
| Counterexamples.PhysicalClaimRepeatsCheckpointedLeads | lead_engine/compute_coordinator.py:981-992 | a run in which a physical claim hands out a lead that an earlier worker lease checkpointed |
| Failover.BestIsMinimal | lead_engine/compute_coordinator.py:1852-1866 | the selector returns a path exactly when one is eligible, and then one that no eligible path precedes |
| Failover.KeyLessTransitive | lead_engine/physical_fabric.py:330-345 | the selector key, on candidates without active-path intelligence, is a strict total order, with the path id breaking ties |
| Failover.IndependentExactlyWhen | lead_engine/physical_fabric.py:386-406 | two paths are failure-domain independent if and only if both list segments and domains and share no domain and no NIC or RDMA device |
| Failover.EligibleExactlyWhen | lead_engine/compute_coordinator.py:1842-1865 | a path qualifies as standby if and only if it is in the standby and verified sets on the same GPU pair, measured, with known health and independent of the failed one |
| Failover.KeyLessExactlyWhen | lead_engine/physical_fabric.py:330-346 | the selector key orders by failure rate, then latency delta, then latest latency, absent figures last, then by more samples, then by id |
| Failover.FoundPath | lead_engine/compute_coordinator.py:1809-1813 | the failed path is found exactly when the inventory lists it |
| Failover.FoundRoute | lead_engine/compute_coordinator.py:1829-1837 | the route set is the first one for the directed GPU pair and is found exactly when there is one |
| Failover.ContractRaisesExactlyWhen | lead_engine/compute_coordinator.py:1829-1841 | the contract raises exactly when a known failed path's GPU pair has no durable route set |
| Failover.ContractIsSafe | lead_engine/compute_coordinator.py:1796-1877 | a selected standby qualifies, and its failure rate is at most every other qualifying path's, its latency delta among equal rates, its latest latency among equal deltas, then samples and id decide; one is selected whenever one qualifies |
| Failover.StandbyIsAnotherPath | lead_engine/physical_fabric.py:386-406 | an independent standby is never the failed path itself |
| FailoverRuns.StepSelections | lead_engine/compute_coordinator.py:1489-1524 | only a failure report on the current generation records a standby selection, and what it records is its own contract |
| FailoverRuns.SelectionsHaveReports | lead_engine/compute_coordinator.py:1509-1524 | every selection present after a run was made by one of its failure reports |
| FailoverRuns.SelectionIsRecorded | lead_engine/compute_coordinator.py:1489-1524 | a failure report on a running attempt about a known path with a route set records a selection, of a safe standby whenever some path qualifies and of none otherwise |
| FailoverRuns.RunKeepsSelectionsOver | lead_engine/compute_coordinator.py:1489-1524 | in every run the recorded selections are about attempts that are over, so a running attempt's selection is never taken for recorded |
| FailoverRuns.PendingIsNewest | lead_engine/compute_coordinator.py:91-107 | a rebind is pending exactly when a recorded selection of the task names a path, and it is one that no other such selection is later than, by time and then recovery id |
| FailoverRuns.GrantedOnStandby | lead_engine/compute_coordinator.py:1061-1066 | a lease granted while a rebind is pending has the selected standby active on the failed GPU pair |
| FailoverRuns.FailoverIsSafe | lead_engine/compute_coordinator.py:1489-1524 | across generations: any later granted lease of the task activates a newest selected standby, and that standby qualified for the generation that failed and was no worse than any other path that did |
| Recovery.ExpirySettles | lead_engine/compute_coordinator.py:3422-3498 | expiry queues exactly the tasks whose lease is not in the future, expires what they ran with its participants, keeps a converged verdict, and touches no other task, attempt or participant |
| Recovery.LostExactlyWhen | lead_engine/compute_coordinator.py:3366-3386 | an attempt is selected for reconciliation if and only if it runs and one of its participants is not live, was silent for the timeout, or has a worker that is unknown or was |
| Recovery.ReconcileAllEffects | lead_engine/compute_coordinator.py:3387-3415 | every selected attempt is still current when the loop reaches it, so no row is skipped or rolled back, and exactly their tasks are requeued |
| Recovery.ReconciliationSettles | lead_engine/compute_coordinator.py:3343-3420 | after a reconciliation every participant of every running attempt is live and, like its worker, was heard of within the timeout; the selected attempts have failed with all their participants, and no others changed |
| Recovery.RecoverySettles | lead_engine/compute_fabric.py:311-321 | with any time between the two passes, every lease left is untouched and was in the future at the first clock reading; every participant of a running attempt is live and, like its worker, was heard of within the timeout at the second; and a lease that has lapsed since did so between them |
| Recovery.RecoveryCounts | lead_engine/compute_fabric.py:311-321 | the two returned counts add up to the tasks requeued, and tasks without a lease are untouched |
| Recovery.ClaimKeepsSchedule | lead_engine/compute_fabric.py:348-359 | a further physical claim within the lease keeps all earlier assignments leased and grants none of them again |
| Controller.ComputeFabricController.Cycle | lead_engine/compute_fabric.py:338-391 | a cycle recovers to such a state, with every participant of a running attempt and its worker heard of within a lease, and, when its claiming takes less than a lease, schedules at most the batch size of pairwise distinct tasks, all still leased at its end |
| Controller.ComputeFabricController.Fill | lead_engine/compute_fabric.py:348-359 | the claiming loop keeps every assignment of the cycle live and distinct |
| Coordinator.ComputeCoordinator.Enqueue | lead_engine/compute_coordinator.py:647-664 | takes exactly the enqueue step on the tables |
| Coordinator.ComputeCoordinator.ReserveTaskSlot | lead_engine/compute_pool.py:417-424 | takes the worker's one slot exactly when it is ready and free |
| Coordinator.ComputeCoordinator.ReleaseTaskSlot | lead_engine/compute_pool.py:426-430 | gives a slot back without going below zero |
| Coordinator.ComputeCoordinator.ReleasePhysicalAllocation | lead_engine/compute_coordinator.py:962-965 | frees only an allocation bound to exactly this execution |
| Coordinator.ComputeCoordinator.Complete | lead_engine/compute_coordinator.py:3297-3321 | a task that is not completed is completed exactly for the holder of an unexpired lease with its token, and then stores worker, both digests and the result; takes exactly the completion step, idempotent answer included |
| Coordinator.ComputeCoordinator.Release | lead_engine/compute_coordinator.py:3323-3341 | takes exactly the release step |
| Coordinator.ComputeCoordinator.RecoverExpiredTasks | lead_engine/compute_coordinator.py:3422-3498 | the two-phase loop equals expiring, one after the other, exactly the leased tasks whose lease is not in the future, and the count is their number |
| Coordinator.ComputeCoordinator.ReconcileFabric | lead_engine/compute_coordinator.py:3343-3420 | selects exactly the running attempts with a participant that is not live, silent, or on an unknown or silent worker; the two-phase loop equals fencing them one after the other, and none such is left; a timeout that is not positive changes nothing |
| Coordinator.ComputeCoordinator.FenceLost | lead_engine/compute_coordinator.py:3387-3415 | its transaction fences every selected attempt and never reaches the rollback |
| Coordinator.ComputeCoordinator.RecoverFabricAttempt | lead_engine/compute_coordinator.py:1331-1535 | takes exactly the recovery step, the order of fence, path reading, contract and release included, with the raises between them |
| Coordinator.ComputeCoordinator.Bind | lead_engine/compute_coordinator.py:1048-1153 | takes exactly the binding step with all its failure paths |
| Coordinator.ComputeCoordinator.InsertParticipants | lead_engine/compute_coordinator.py:1707-1728 | inserts one ranked participant per node |
| Coordinator.ComputeCoordinator.PendingPayload | lead_engine/compute_coordinator.py:551-574 | hands out the leads without a checkpoint in order, and raises exactly when a lead is not an object |
| Coordinator.ComputeCoordinator.ReserveAndScan | lead_engine/compute_coordinator.py:1175-1199 | after recovery and reservation the selected row is the first supported one in query order, or the first malformed one before it |
| Coordinator.ComputeCoordinator.Claim | lead_engine/compute_coordinator.py:1173-1251 | takes exactly the claim step for a legal choice of row, and hands out the pending leads of its task |
| Coordinator.ComputeCoordinator.PendingFabricRebind | lead_engine/compute_coordinator.py:91-107 | returns the newest recorded selection that names a path |
| Coordinator.ComputeCoordinator.ClaimPhysical | lead_engine/compute_coordinator.py:968-1171 | takes exactly the physical claim step for a legal choice of row, and hands out the leads of the stored payload unfiltered |
| Coordinator.ComputeCoordinator.ExecutionParticipantState | lead_engine/compute_coordinator.py:2344-2395 | takes exactly the state report step, fencing the attempt on a failure |
| Coordinator.ComputeCoordinator.HeartbeatExecutionParticipant | lead_engine/compute_coordinator.py:3219-3291 | takes exactly the participant heartbeat step |
| Coordinator.ComputeCoordinator.RecordVerification | lead_engine/compute_coordinator.py:2923-2942 | takes exactly the state and lease part of recording a verification |
| Coordinator.ComputeCoordinator.ConvergeFabricExecution | lead_engine/compute_coordinator.py:3044-3192 | takes exactly the convergence step |
| Coordinator.ComputeCoordinator.BindRendezvousEndpoint | lead_engine/compute_coordinator.py:1743-1793 | takes exactly the endpoint step |
| Coordinator.ComputeCoordinator.BindPhysicalAllocation | lead_engine/compute_coordinator.py:1561-1581 | takes exactly the allocation step |
| Coordinator.ComputeCoordinator.IndexItems | lead_engine/compute_coordinator.py:601-605 | the dictionary of item keys maps each key to its last payload index |
| Coordinator.ComputeCoordinator.CheckpointLeadPrepare | lead_engine/compute_coordinator.py:576-636 | takes exactly the checkpoint step, and its two counts add up to the items and to the growth of the table |
| Coordinator.ComputeCoordinator.CheckpointResults | lead_engine/compute_coordinator.py:638-645 | counts the rows of the id and returns the non-null results in payload order; an unknown task and one that is not lead preparation have none |
| Batches.ExpireAllGivesBack | lead_engine/compute_coordinator.py:3487-3497 | giving back after the whole batch equals giving back row by row |
| Batches.ExpireAllLocal | lead_engine/compute_coordinator.py:3441-3485 | a row the loop has not reached is as it was read |
| Coordinator.ComputeCoordinator.ReconcileAllGivesBack | lead_engine/compute_coordinator.py:3416-3419 | the same for reconciliation |
| Queries.ScanQueue | lead_engine/compute_coordinator.py:1182-1195 | the OFFSET-paged scan finds the first supported queued task in (created_at, task_id) order, or raises at the first malformed one before it, however many pages there are |
| Queries.PickPhysical | lead_engine/compute_coordinator.py:980-998 | the first parseable row of the first 100 that mention requirements |
| Queries.Select | lead_engine/compute_coordinator.py:1185-1185 | returns the selected rows each once, by creation time and at one time by id |
| Queries.OneAnswer | lead_engine/compute_coordinator.py:1185-1185 | the order has no ties, so the pages of one scan fit together |
| Checkpoints.PendingIsTheRest | lead_engine/compute_coordinator.py:551-574 | pending and checkpointed positions partition the payload, in payload order |
| Checkpoints.ResumeComposes | lead_engine/compute_coordinator.py:551-574 | a later claim hands out the earlier one's leads less those checkpointed in between |
| Checkpoints.ClaimsResume | lead_engine/compute_coordinator.py:1212-1214 | across any generations, a later worker claim of a task hands out what an earlier claim handed out less the leads checkpointed since; a later physical claim does so if and only if no lead of the payload is checkpointed |
| Checkpoints.PhysicalClaimResumesExactlyWhen | lead_engine/compute_coordinator.py:981-992 | a physical claim hands out exactly the leads still to be done if and only if the work is not lead preparation or none of its leads is checkpointed |
| Checkpoints.ItemsTakenExactlyWhen | lead_engine/compute_coordinator.py:605-635 | a report is taken exactly when all its items belong to the payload and contradict neither stored rows nor each other, and then adds exactly the missing rows |
| Checkpoints.ItemIndexIsLast | lead_engine/compute_coordinator.py:601-605 | an item is indexed at the last occurrence of its lead |
| Checkpoints.CheckpointIsAllOrNothing | lead_engine/compute_coordinator.py:576-636 | a report is taken exactly from the holder of an unexpired lease on lead preparation when its items all belong and contradict nothing; it then adds exactly the missing rows, and a refused one changes nothing at all |
| Checkpoints.RunKeepsIndexes | lead_engine/compute_coordinator.py:626-632 | in every reachable state a row carries its lead's payload index |
| Checkpoints.ResultsAreInPayloadOrder | lead_engine/compute_coordinator.py:638-645 | reading the rows by index yields the non-null results in payload order |
| Metrics.FabricMetrics.Record | lead_engine/compute_coordinator.py:2791-2922 | every path and workload a report names is cached as a recomputation over the whole table gives it; a named key left without rows would raise and roll everything back, which accepted evidence never brings about |
| Metrics.FabricMetrics.CheckEvidence | lead_engine/compute_coordinator.py:2634-2756 | evidence is accepted exactly when the reported bindings are the planned ones and each has one sound piece of evidence |
| Metrics.AcceptedExactlyWhen | lead_engine/compute_coordinator.py:2634-2756 | accepted means: the reported pairs of rank and GPU are the planned ones and those with evidence, all of it sound, and no two pieces are about the same pair |
| Metrics.FabricMetrics.RecordVerification | lead_engine/compute_coordinator.py:2567-2922 | a verification is refused exactly when its evidence is not accepted, raises exactly when accepted evidence holds a duration that is not a number, and is otherwise recorded |
| Metrics.Aggregate | lead_engine/compute_coordinator.py:2872-2891 | one pass computes count, sum, least, greatest, average and transport of a key's rows |
| Metrics.NewestElapsed | lead_engine/compute_coordinator.py:2902-2906 | the last sample is that of the newest row by time and metric id |
| Metrics.AgreementKeptExactlyWhen | lead_engine/compute_coordinator.py:2791-2922 | whole-table agreement of a cache survives a report if and only if no sample overwrites a row of a key the report does not name |
| Metrics.StableReportsKeepAgreement | lead_engine/compute_coordinator.py:2791-2922 | one re-report that keeps its keys keeps the agreement |
| Metrics.RunAgreesExactlyWhen | lead_engine/compute_coordinator.py:2791-2922 | over a run from the empty tables a cache agrees with its table throughout if and only if no recorded report moved a row away from a key it did not name |
| Metrics.RunKeepsAgreement | lead_engine/compute_coordinator.py:2791-2922 | in every run from the empty tables whose re-reports of a metric id keep its key, each cache agrees with a recomputation over the whole table after every report |
| Metrics.MovedReportGoesStale | lead_engine/compute_coordinator.py:2791-2815 | a run of two accepted verifications of one process over different paths, after which the first path's summary counts a row that is gone |
| Metrics.DistinctSamplesNeverRaise | lead_engine/compute_coordinator.py:2791-2815 | samples with distinct metric ids leave every named key with a row |
| Metrics.SamplesDiffer | lead_engine/compute_coordinator.py:2735-2756 | the samples of accepted evidence carry pairwise distinct metric ids, because the launch plan gives a participant's bindings distinct ranks |
| Metrics.SamplesAreMeasured | lead_engine/compute_coordinator.py:2757-2815 | readable evidence gives exactly one sample for each positive duration, under the process it was measured on, with its path, workload, amount and transport |
| Metrics.KeysAreColumns | lead_engine/compute_coordinator.py:2791-2891 | a summary is over the rows carrying its path, or its workload, and is refreshed by reports naming it |
| Metrics.AcceptedEvidenceNeverRaises | lead_engine/compute_coordinator.py:2735-2922 | recording evidence accepted against the launch plan leaves every named path and workload with a row, whatever the table holds |
| Metrics.FirstLastIsNewestExactlyWhen | lead_engine/compute_coordinator.py:2891-2922 | the last sample stored with a first summary is right exactly when the newest sample is a greatest one |
| LaunchPlan.AssignRanks | lead_engine/compute_coordinator.py:2074-2252 | the allocated GPUs carry the ranks 0..world_size-1 exactly once each in participant and GPU order; the plan fails exactly when some participant is out of place, stale, not ready, without GPUs or without a bound allocation that identifies them all, so the closing rank check never fires |
| LaunchPlan.PlanNode | lead_engine/compute_coordinator.py:2077-2117 | one participant is planned exactly when its rank, heartbeat, worker, GPUs and its own bound allocation are in order |
| LaunchPlan.BindGpus | lead_engine/compute_coordinator.py:2112-2142 | a participant's bindings are its GPUs sorted by number, ranked from the running total, with the identity its own allocation records; it fails exactly when that allocation does not identify one of them |
| LaunchPlan.GpuNumberReads | lead_engine/compute_coordinator.py:2116-2118 | a GPU's number is the decimal number its id ends in after the last slash and an optional "gpu-", and 2**31-1 when it ends in anything else |
| LaunchPlan.GpusAreNamed | lead_engine/compute_coordinator.py:2087-2092 | a participant's GPUs are its resources containing "/gpu/" or "/gpu-", each as often as listed |
| LaunchPlan.RanksContiguousExactlyWhen | lead_engine/compute_coordinator.py:2247-2252 | the closing check passes exactly for permutations of 0..total-1 |
| AgentQueue.Queue.EnqueueMany | lead_engine/agent_queue.py:94-178 | an unknown agent refuses the whole batch; otherwise earlier tasks are untouched, each stored id is one of the batch and waits with its spec's agent, priority, key and stage, created now, without attempts and as the only active one of its agent and key outside verification, and each spec not stored has an active task of its agent and key |
| AgentQueue.Queue.RecoverStale | lead_engine/agent_queue.py:185-194 | exactly the running tasks whose lease lapsed are queued again |
| AgentQueue.RecoveryIsWritten | lead_engine/agent_queue.py:185-194 | a running task whose lease is not in the future waits again, everything else stays |
| AgentQueue.Queue.Claim | lead_engine/agent_queue.py:242-276 | refuses bad arguments; otherwise the chosen tasks run for the worker until a lease from now, one attempt up, the other lapsed ones wait, nothing else changed, and the rows returned are those stored |
| AgentQueue.Queue.ClaimTask | lead_engine/agent_queue.py:197-239 | grants the named task exactly when it waits or its lease has lapsed, otherwise discards even the recovery |
| AgentQueue.Queue.Heartbeat | lead_engine/agent_queue.py:279-297 | extends the lease exactly for the worker the task runs for |
| AgentQueue.Queue.Finish | lead_engine/agent_queue.py:323-339 | finishes a task exactly for the worker it runs for, once |
| AgentQueue.Queue.Retry | lead_engine/agent_queue.py:304-320 | queues a task again exactly for the worker it runs for |
| AgentQueue.ChosenAreCandidates | lead_engine/agent_queue.py:271-276 | a claim takes distinct queued tasks of the agent and with what runs stays within both limit and cap |
| AgentQueue.ChosenAreTheBest | lead_engine/agent_queue.py:271-272 | a queued task is left behind only when limit and cap leave no room, and no task taken has a lower priority or, at the same priority, is younger |
| AgentQueue.ClaimRespectsCap | lead_engine/agent_queue.py:271-276 | after a claim the agent runs at most its cap or what it ran before |
| AgentQueue.RunKeepsCaps | lead_engine/agent_queue.py:242-276 | over every run in which no single-task claim goes to an agent at its cap, no agent exceeds its cap |
| AgentQueue.CapsKeptExactlyWhen | lead_engine/agent_queue.py:236-276 | a step keeps all agents within their caps if and only if it is not a single-task claim for an agent that, after recovery, already runs its cap |
| AgentQueue.ClaimTaskIgnoresCap | lead_engine/agent_queue.py:236-239 | a single-task claim always adds one running task, so the agent ends within a cap if and only if it ran strictly fewer after recovery |
| AgentQueue.RunKeeps | lead_engine/agent_queue.py:167-178 | over every run no task is lost, finished tasks never change, and two active tasks never share agent and dedupe key, the verification agent apart |
| AgentQueue.VerificationSuppressedExactlyWhen | lead_engine/agent_queue.py:75-91 | a verification task is suppressed if and only if the first active one with its key carries no stage, whatever its own stage |
| AgentQueue.UniqueKeptExactlyWhen | lead_engine/agent_queue.py:167-178 | an enqueued task doubles an active one of its agent and key if and only if it is a verification task and the active one carries a stage |
| AgentQueue.RunKeepsUnique | lead_engine/agent_queue.py:167-178 | while no verification task is enqueued with a stage, no two active tasks of any agent share a key in any run |
| AgentQueue.VerificationIsNotDeduplicated | lead_engine/agent_queue.py:75-91 | with a stage the same verification task is stored a second time although the first is active |
| AgentQueue.LostTaskStaysLost | lead_engine/agent_queue.py:294-339 | a worker that does not hold a task cannot finish, retry or extend it in any continuation until that very task is granted to it again, whatever else it claims |
| AgentQueue.HeldExactlyWhenGranted | lead_engine/agent_queue.py:242-276 | a step makes a worker the holder of a task it did not hold if and only if it is a claim that grants it that task |
| AgentQueue.LeaseTokensAreIgnored | lead_engine/agent_queue.py:336-339 | a lapsed lease still finishes, and the same worker's second claim is taken for its first |
| BatchUpsert.Airtable.Upsert | lead_engine/batch_delivery.py:80-102 | an oversize batch is refused without a request, any other costs one |
| BatchUpsert.Airtable.ResilientUpsert | lead_engine/batch_delivery.py:105-126 | delivers everything, or exactly the longest good prefix, or stops at a block; one request for a good batch and at most 2*ceil(log2 n)+1 for a bad one within the size limit |
| BatchUpsert.GoodPrefixIsLongest | lead_engine/batch_delivery.py:105-126 | the delivered prefix is good and ends at a bad record |
| BatchUpsert.CeilLog2IsLeast | lead_engine/batch_delivery.py:124-126 | the bound's logarithm is the least power of two covering the batch |
| BatchUpsert.HalvesBound | lead_engine/batch_delivery.py:124-126 | splitting in half keeps the request bound, on either side of the bad record |
| SyncScan.LeadStore.PendingScan | lead_engine/database.py:390-401 | a page holds the next pending rows behind the cursor, in rowid order |
| SyncScan.LeadStore.Scan | lead_engine/batch_delivery.py:251-306 | although rows are marked between pages the scan covers a prefix of the first ten pages, stops only when enough leads are found, and marks exactly the scanned rows that are not ready |
| SyncScan.LeadStore.Deliver | lead_engine/batch_delivery.py:308-438 | every selected lead is marked as its chunk's and its own outcome say |
| SyncScan.LeadStore.SyncPending | lead_engine/batch_delivery.py:238-453 | the whole cycle: scan, then delivery, reporting every row it touched |
| SyncScan.NextSlice | lead_engine/batch_delivery.py:262-306 | marking rows behind the cursor never skips or repeats a pending row |
| SyncScan.SelectsTheFirstWanted | lead_engine/batch_delivery.py:251-306 | the selected leads are exactly the first ready, decodable, non-excluded rows within the window |
| SyncScan.PageIsClamped | lead_engine/batch_delivery.py:259-259 | a page is ten rows for each lead wanted, at least a hundred and at most five hundred |
| SyncScan.EveryScannedRowEndsInOneBucket | lead_engine/batch_delivery.py:251-438 | every scanned, non-excluded row ends in exactly one bucket and is marked accordingly, no other row changes |
| SyncScan.BucketExactlyWhen | lead_engine/batch_delivery.py:308-438 | which outcome puts a row in which bucket: an outage fails its whole chunk of ten, otherwise each lead's own handoff decides |
| SyncScan.OnlyFailedRowsStayPending | lead_engine/database.py:532-540 | a row is offered again exactly after a failure below the attempt limit |
| SyncScan.BucketIsRecorded | lead_engine/database.py:514-540 | a row is synced exactly after a handover or when it existed, deferred for exactly the reason given, one failure up exactly after a failure |
| Placement.CombinationsAreSubsets | lead_engine/compute_placement.py:727-744 | only sets of the required size inside the pool are generated |
| Placement.EverySubsetIsGenerated | lead_engine/compute_placement.py:727-744 | every such set is generated |
| Placement.NoSubsetTwice | lead_engine/compute_placement.py:727-744 | and none twice |
| Placement.CandidateSets | lead_engine/compute_placement.py:677-751 | the generator's result over all pools, and exactly when it raises |
| Placement.CandidatesAreExactlyTheAdmissibleSets | lead_engine/compute_placement.py:712-751 | a set of GPUs is a candidate exactly when it has the size and lies on one node or, for multi-node work, in one provider and domain across two nodes or more; and only once |
| Placement.StableKeyIdentifies | lead_engine/compute_placement.py:670-671 | the stable key tells different GPU sets apart |
| Placement.SameStableKey | lead_engine/compute_placement.py:670-671 | and depends on the set alone |
| Placement.PreferredExactlyWhen | lead_engine/compute_placement.py:777-792 | a candidate ranks before another exactly when its ranking keys are smaller at the first place where they differ or, these being the same, its sorted resource keys are |
| Placement.StableKeyIsSorted | lead_engine/compute_placement.py:670-671 | the stable key lists the resource keys of the set in text order |
| Placement.Evaluate | lead_engine/compute_placement.py:765-793 | returns a valid candidate that no valid candidate ranks before, or none when none is valid |
| Placement.ChoiceIsOrderIndependent | lead_engine/compute_placement.py:777-792 | the chosen GPUs do not depend on the order of rows, nodes or candidates |
| Placement.Place | lead_engine/compute_placement.py:753-793 | no allowed and valid set of GPUs is preferred to the one chosen, and none is chosen only when there is none |
| BuyerProgression.Build | lead_engine/buyer_intent_progression.py:378-498 | the loop computes the fold over the events, and a closed lifecycle overrides its state in the report |
| BuyerProgression.EventMovesConversation | lead_engine/buyer_intent_progression.py:395-489 | one more event moves the conversation exactly to the state its signal, its denials and the order of the stages call for, in one entry that says from where and how, or leaves state and history alone: stages not yet passed advance or confirm, passed ones and engagement after an interruption do nothing, a denied statement falls back, interruptions always act, a closed conversation takes nothing else |
| BuyerProgression.OrderlyConversationFollows | lead_engine/buyer_intent_progression.py:465-489 | a conversation whose signals never fall behind follows them, one advancing or confirming entry for each event |
| BuyerProgression.HistoryIsAppendOnly | lead_engine/buyer_intent_progression.py:475-489 | more events only append to the history |
| BuyerProgression.HistoryIsChained | lead_engine/buyer_intent_progression.py:475-489 | each entry's prior state is its predecessor's state, in event order, ending in the current one |
| BuyerProgression.RankDropsAreExplained | lead_engine/buyer_intent_progression.py:425-473 | rank drops only at interruptions, re-engagements and contradictions, and a contradiction always lowers it |
| BuyerProgression.ClosedExactlyWhen | lead_engine/buyer_intent_progression.py:425-461 | the conversation is closed exactly in conversion, rejected and no_need |
| BuyerProgression.ClosedConversationsStay | lead_engine/buyer_intent_progression.py:425-442 | ordinary progression never moves a closed conversation; conversion, re-engagement and interruptions do |
| BuyerProgression.QualificationIsLastWriter | lead_engine/buyer_intent_progression.py:402-423 | known, active and stale qualification are the last writers over all events, from the last re-engagement on, and before it |
| BuyerProgression.ReconfirmedYetRequired | lead_engine/buyer_intent_progression.py:499-530 | a dimension is both reconfirmed and still required exactly when it was written before the last re-engagement and again from it on |
| RoutePrediction.Predict | lead_engine/compute_fabric_telemetry.py:306-395 | the loop keeps the usable samples and predicts from them in time order |
| RoutePrediction.PredictionIsCanonical | lead_engine/compute_fabric_telemetry.py:329-343 | the prediction does not depend on the order samples come in |
| RoutePrediction.PredictionReports | lead_engine/compute_fabric_telemetry.py:329-395 | the samples with a positive latency, by time and at one time by latency, are split in half; the prediction reports the mean of each half, their difference, the counts, and the state: degrading when latencies rise throughout, improving when they fall throughout, stable when their coefficient of variation is at most a tenth, and only from four samples on |
| RoutePrediction.RisingMeans | lead_engine/compute_fabric_telemetry.py:353-358 | strictly rising latencies put the later mean above the earlier one, for every length |
| RoutePrediction.FallingMeans | lead_engine/compute_fabric_telemetry.py:353-358 | strictly falling ones put it below |
| RoutePrediction.TrendTestsAreImplied | lead_engine/compute_fabric_telemetry.py:369-378 | degrading means strictly rising, improving strictly falling, never both; the trend tests decide nothing |
| RoutePrediction.SameInstantReadsAsDegrading | lead_engine/compute_fabric_telemetry.py:329-378 | samples of one instant read as degrading if and only if there are at least four and their latencies are pairwise different |
| Referral.ChainsStaySound | lead_engine/astrivon_referral.py:114-212 | over any chain payments are only appended, under distinct ids, in confirmed referrals from active on, and the referral never goes back a stage |
| Referral.PaymentFreeChains | lead_engine/astrivon_referral.py:77-212 | over any chain from a payment-free referral payments exist only in confirmed referrals that are active, closed or ended, under distinct ids, and the commission stays within 0.005*n of 20% of the revenue |
| Referral.PaymentsAreRecordedOnce | lead_engine/astrivon_referral.py:172-200 | a recorded payment is refused in every continuation |
| Referral.PaymentRecordedExactlyWhen | lead_engine/astrivon_referral.py:176-212 | a payment is recorded if and only if the referral is active, confirmed and has an id, the amount is positive and the trimmed event id is new and not empty; the entry holds that id and that amount |
| Referral.StripTrims | lead_engine/astrivon_referral.py:187-187 | stripping removes exactly the white space at both ends |
| Referral.IntroducedExactlyWhen | lead_engine/astrivon_referral.py:114-138 | an introduction goes through exactly from qualified or referred, complete and without an id |
| Referral.ReferredExactlyWhen | lead_engine/astrivon_referral.py:140-144 | a referral exactly from qualified or referred |
| Referral.ConfirmedExactlyWhen | lead_engine/astrivon_referral.py:156-174 | a confirmation exactly from introduced with an id, given or stored |
| Referral.EndedExactlyWhen | lead_engine/astrivon_referral.py:146-154 | closing exactly from active, ending from active or closed |
| Referral.RoundingError | lead_engine/astrivon_referral.py:52-54 | quantizing moves a value by at most a half and an exact half to the even neighbour |
| Referral.CommissionIsWithinHalfACentEach | lead_engine/astrivon_referral.py:77-83 | after n payments the commission is within 0.005*n of 20% of the revenue |
| Referral.BoundIsTight | lead_engine/astrivon_referral.py:52-54 | the bound is attained |
| Referral.CommissionIsNotNegative | lead_engine/astrivon_referral.py:81-83 | positive payments never earn a negative commission |
| Sorting.SortedIsCanonical | lead_engine/compute_placement.py:670-671 | sorting by an order without ties gives one answer for all orders of the input |

## Left out

- Crashes between the separate commits of one method: every lock-held method is one atomic step; only exceptions inside a method are modelled, where the code raises.
- SQLite, JSON encoding and the HTTP handler: tables are maps, a payload is a datatype with its text and what the parsers read from it, and `LIKE '%compute_requirements%'` is the case split of `ComputeSpec`.
- Coordinator.ComputeCoordinator.RecordVerification: the shape checks of NCCL, RDMA and device evidence are one boolean; the metric part is modelled separately in `Metrics.dfy`.
- Coordinator.ComputeCoordinator.ConvergeFabricExecution: the path reconciliation it runs is one boolean, and the observations it stores are left out.
- Coordinator.ComputeCoordinator.Bind: what the scheduler reserves is an input; re-binding participants that already exist is left out because a claim always binds a new attempt.
- Coordinator.ComputeCoordinator.RecoverFabricAttempt: of the exceptions between the fence and the release, those on the report's own content are modelled; an error of the database there would leave the same tables as `MalformedPath`.
- Coordinator.ComputeCoordinator.FenceLost: the rollback the code would run is proved unreachable and is not written out.
- Failover.KeyLessTransitive: the two key parts read from active-path intelligence are left out; the rebind contract builds its candidates without it, so they are constant there.
- Conservation.SlotsKeptExactlyWhen: the lead leases of the worker pool (compute_pool.py:432-453) also count slots; they are a separate feature and not part of this model.
- Counterexamples.PoisonedClaimLeaksItsSlot: only leaks through the modelled calls are shown.
- The internals of the scheduler and the inventory: a failure report carries the inventory's answer, a claim the scheduler's.
- WorkerPool.StatusMoves: `readmit_worker`, which looks at the stored heartbeat and evidence before it sets a worker ready, is the setting of a status here.
- Worker enrolment, resource observation and free-compute acquisition: I/O around the modelled tables.
- Controller.ComputeFabricController.Cycle: the provider refresh and the report it builds are left out; the time they take counts into the pauses between claims.
- LaunchPlan.AssignRanks: the reservation, route and path checks of one GPU are one boolean of its inventory row; the lease, endpoint and execution-mode checks around the participant loop are left out.
- Metrics.FabricMetrics.Record: the workload row's path key and signature are left out; keys are digests, which stripping white space does not change.
- Metrics.FabricMetrics.RecordVerification: the per-process shape, probe and fabric checks are one boolean of a piece of evidence; durations are exact reals, so an infinite one is left out.
- AgentQueue.Queue.Claim: the SQL-backed path of the queue is not modelled, only the dictionary-backed one; result and error texts are left out.
- AgentQueue.Queue.EnqueueMany: the registry is the map of concurrency caps, and the research plan attached to company research payloads is left out.
- SyncScan.LeadStore.SyncPending: the samples of deferred leads kept for the report are left out, their counts are the buckets; rowids are positions, since only their order matters.
- Placement.CandidateSets: single-node candidates are enumerated node by node rather than grouped by provider first; the choice is proved independent of that order.
- Placement.Evaluate: validity and the eight ranking keys before the stable key are functions of the chosen set of GPUs.
- BuyerProgression.Build: phrase matching is abstracted to what an event signals, denies and says; the next question and action are left out.
- RoutePrediction.Predict: latencies are exact reals, the coefficient of variation is compared by squares; the observations echoed in the evidence are left out.
- Referral.CommissionIsWithinHalfACentEach: amounts are exact reals; the precision limit of the decimal context is left out.
- Referral.ChainsStaySound: timestamps, service matching and the meeting payload are left out.
