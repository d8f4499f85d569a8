# Kubegres operator: a model of its reconcile loop

Kubegres is a Kubernetes operator that runs a cluster of PostgreSQL servers, one StatefulSet
per server: a primary and its replicas. This project models one reconcile of the operator as a
step of a state machine over the cluster, and proves what holds over all its runs.

## What is modelled

- **The lock** (`BlockingOperations`, `Locks`). One blocking operation at a time is stored in the
  status, with a step, a time-out, a completion check and, for some steps, a transition step.
- **The enforcers** (`Snapshots`, `Enforcement`, `Operators`). Base configuration, primary and
  failover, replica count, rolling update, each as a function of the pass in progress and as a
  method of an object that computes it step by step.
- **The reconcile** (`Reconciling`, `Effects`, `Steps`, `Decisions`, `PrimaryDecisions`,
  `ReplicaDecisions`, `UpdateDecisions`, `Outcomes`, `Records`). Load the state, advance the lock, check the spec, run the enforcers, write the
  status; and exactly when each call is made, what becomes of the stored specification, the pods and the
  base configuration, and what is recorded for how long, said of the stored state and of the answers from
  outside.
- **Runs** (`Runs`, `Counting`, `StorageAgreement`, `Freezing`, `Failovers`, `Scaling`,
  `RollingUpdate`, `PodVerification`). Reconciles interleave with steps of the environment: the user
  edits the spec and deletes StatefulSets, readiness and pods change, the base configuration comes
  and goes. Every API call of a reconcile may fail. `Witnesses` holds the inputs on which an
  expectation fails.
- **Loading** (`StateLoading`, `LoadingOrder`). StatefulSets listed in any order become the primary,
  the replicas and two sorted views.
- **Rewriting** (`VolumeLists`, `CustomConfig`, `SpecRegistry`, `Convergence`, `Rewriting`, `Creation`).
  The registry of difference checks and enforcers on one StatefulSet, and the creator that fills
  the templates.

`Operators.ReconcileOnce` connects the objects with the functions: its result is the state that
`Reconciling.Reconcile` describes, and the theorems about runs are about that function.

## How the outside is represented

- StatefulSets and pods are maps keyed by instance index, which determines their names. An API call
  is atomic and answers through a field of `Replies`; a creation also fails on a name in use, an
  update on a missing object.
- Spec and status are separate stores. The spec in memory and the stored one may differ after a
  failed update.
- The clock is read once per reconcile and does not go back between reconciles.
- `Fields` stands for what the registry enforces on a StatefulSet: the image and the port, which are
  also compared with the pod, and one field for all others. That one update makes all of them equal
  to the spec is the convergence theorem, under its condition.
- `Spec.otherwiseValid` is the verdict of the spec checks other than those on storage parameters and
  on the number of replicas; the environment may change it at any time.
- A careful run (`Runs.CarefulRun`) loses neither of two things: no wait is recorded while the
  old primary is still there, and no status write is lost by a reconcile that makes a primary while
  a failover is pending. `Decisions.SoundStep` shows that these are exactly what the agreement of
  lock and cluster needs, and `Failovers` what happens without them. Only the results on the number of
  primaries and on the absence of a second call assume careful runs.

## Where the code does not do what one expects

- A failed promotion update frees the lock but returns the wrong error variable, so that the
  reconcile reports success (`Operators.Operator.PromoteReplicaToPrimary`). Beside a ready primary the
  other enforcers then run, and the reconcile makes a second StatefulSet call
  (`Decisions.SecondCallExactly`, `Witnesses.TwoCallsExample`).
- The deletion that starts a failover swallows its error, and a promotion does not check that the old
  primary is gone (`Failovers.SilentDeletionIsStale`, `Failovers.StaleRecordMakesTwo`,
  `Witnesses.TwoPrimariesRun`).
- A lost status write at a promotion leaves the transition step armed
  (`Failovers.LostPromotionIsStale`).
- A lone primary whose volume claim is gone is created above a counter that is not advanced; from
  then on no replica can be created while it exists (`Counting.LostClaim`,
  `Counting.BlockedByIndex`, `Witnesses.LostClaimExample`, `Witnesses.BlockedExample`).
- A creation whose status write is lost is not counted, and its index may be above the counter
  (`Counting.CountedStep`, `Counting.IndexedStep`, `Witnesses.LostCountExample`).
- An update found timed out is dropped without looking at the pod, and so is a stuck pod that
  cannot be deleted (`PodVerification.LateUpdateMovesOn`, `PodVerification.HeldExactly`,
  `Witnesses.LateUpdateExample`). An update whose status write is lost is not followed up at all
  (`PodVerification.LostUpdateMovesOn`, `Witnesses.LostUpdateExample`).
- A pod that is not listed makes the operator wait for instance 0, which never comes. Once that wait
  has timed out, the operator is frozen at the end of a rollout, and in the middle of one goes on to
  the next StatefulSet (`PodVerification.ZeroFreezes`, `PodVerification.ZeroMovesOn`,
  `Witnesses.PodMissingExample`).
- The storage parameters are compared with the primary only while its pod is ready; a ready StatefulSet
  whose pod is not lets an edited parameter reach a new replica (`StorageAgreement.StorageStep`,
  `Witnesses.EditedStorageExample`).
- Metadata is merged and never removed, so that a dropped prefixed key is a difference for ever
  (`Convergence.MetadataClean`); and the creator copies no prefixed labels, so that a resource with
  one updates every StatefulSet right after its creation (`Creation.CreatorAgrees`).
- The image of the init container is only set when that of the container differs, so that it is not put right
  by itself (`Convergence.PassWritesFields`).
- User mounts are not added to a container that has none (`Convergence.OnePassConverges`).

## Model

| member | source | states |
|---|---|---|
| Runs.SinglePrimary | controllers/spec/enforcer/resources_count_spec/statefulset/failover/PrimaryToReplicaFailOver.go:94-321 | In every careful run at most one StatefulSet is primary, and none is while the lock is at the waiting or the transition step of the primary operation |
| Decisions.SoundStep | controllers/operation/BlockingOperation.go:137-222 | A reconcile keeps lock and cluster in agreement if and only if it does not lose it in one of three ways, each a guard of the stored state and the answers: a due deletion of the old primary fails and is recorded as done, a due promotion or a due creation of a primary succeeds while the record of a pending failover stays; even then it leaves at most one primary behind |
| Decisions.CarefulByGuards | controllers/spec/enforcer/resources_count_spec/statefulset/failover/PrimaryToReplicaFailOver.go:94-115 | The same guards say exactly which calls of a reconcile lose the agreement |
| Runs.CarefulRunByGuards | controllers/kubegres_controller.go:66-116 | A run is careful exactly when no reconcile meets one of the three guards |
| Runs.PromotionAfterWait | controllers/spec/enforcer/resources_count_spec/statefulset/failover/PrimaryToReplicaFailOver.go:199-241 | In every run a promotion comes at least 10 seconds after a recorded start of a failover, which has been pending ever since, and takes a replica seen ready by the promoting reconcile |
| Runs.NoPrimaryDuringWait | controllers/spec/enforcer/resources_count_spec/statefulset/failover/PrimaryToReplicaFailOver.go:94-115 | In careful runs no primary is deployed between that start and the promotion |
| Runs.PendingHistory | controllers/operation/BlockingOperation.go:179-222 | In every run a pending failover goes back to one event that started it exactly 10 seconds before the end of its wait, and has been pending ever since |
| Steps.OneCallPerReconcile | controllers/kubegres_controller.go:66-150 | For every readable lock record: at most one StatefulSet call succeeds, there are at most two, and the first of two is a failed promotion beside a ready primary; the last call is the whole change of the cluster; a successful one leaves its own operation, started now, in the written status; a failed one other than the deletion of the old primary leaves none |
| Runs.OneCallInRun | controllers/kubegres_controller.go:66-150 | The same for every reconcile of every run, with the exact condition for a second call |
| Runs.OneCallInCarefulRun | controllers/kubegres_controller.go:66-150 | In careful runs there is never a second call |
| Decisions.SecondCallExactly | controllers/spec/enforcer/resources_count_spec/statefulset/failover/PrimaryToReplicaFailOver.go:243-278 | A reconcile makes a second call if and only if a due promotion fails beside a ready primary while scaling or an update is due: the failed update frees the lock and is reported as success |
| Decisions.CallsExactly | controllers/ctx/resources/ResourcesContext.go:139-155 | Exactly which calls a reconcile makes, as guards of the stored state and the answers: the one decided for the primary, the one decided for the replicas, and at most one update |
| PrimaryDecisions.PrimaryCallExactly | controllers/spec/enforcer/resources_count_spec/statefulset/failover/PrimaryToReplicaFailOver.go:70-115 | Exactly what a reconcile does for the primary, said of cluster, pods and specification: which primary is created and under which index, when the old primary is deleted, who is promoted and when |
| ReplicaDecisions.ReplicaCallExactly | controllers/spec/enforcer/resources_count_spec/statefulset/ReplicaDbCountSpecEnforcer.go:108-135 | Exactly which replica a reconcile deploys or removes, said of the cluster: with fewer replicas than wanted the next index is deployed, unless replacing is forbidden; with more, the replica with the highest index goes; with as many, the unready replica with the lowest index goes |
| UpdateDecisions.UpdateExactly | controllers/spec/enforcer/statefulset_spec/AllStatefulSetsSpecEnforcer.go:91-132 | Exactly which StatefulSet a reconcile updates: the first of the order that has not the wanted fields, replicas from the highest index down and then the primary unless it runs elsewhere, provided that the rolling update has its turn and is not stopped on the way by a timed-out update that asks for the same or by a pod that is not as it should be |
| UpdateDecisions.RetriedExactly | controllers/spec/enforcer/statefulset_spec/AllStatefulSetsSpecEnforcer.go:107-120 | An update that has timed out is tried again if and only if other fields are asked for |
| UpdateDecisions.DifferencesIdentify | controllers/spec/enforcer/statefulset_spec/AllStatefulSetsSpecEnforcer.go:159-162 | The recorded differences are the same if and only if the same fields were asked for |
| Outcomes.EnforcesExactly | controllers/kubegres_controller.go:66-104 | Exactly when a reconcile gets as far as the enforcers: not two primaries, no operation running, a valid specification with at least one instance, and no storage parameter edited under a primary whose pod is ready |
| Outcomes.SpecExactly | controllers/spec/enforcer/resources_count_spec/statefulset/ReplicaDbCountSpecEnforcer.go:95-102 | Exactly how a reconcile changes the stored specification: a request for a manual failover is taken out when the replicas have their turn and the update succeeds; a storage parameter edited under a running primary is put back; nothing else changes |
| Outcomes.PodsExactly | controllers/spec/enforcer/statefulset_spec/AllStatefulSetsSpecEnforcer.go:207-272 | Exactly which pod a reconcile deletes: the one that the rolling update waits for, comes to and finds stuck, if the API deletes it; and what is recorded after a look at a pod: a wait of 300 seconds for a stuck or an unready pod, for instance 0 when no pod is listed, nothing when a stuck pod could not be deleted, nothing or the next update when the pod is as wanted |
| Outcomes.BaseConfigExactly | controllers/spec/enforcer/resources_count_spec/BaseConfigMapCountSpecEnforcer.go:64-144 | Exactly when a reconcile creates the base configuration: it reaches the enforcers with a free lock and the API agrees; it then records a wait of 10 seconds and makes no StatefulSet call |
| Records.CallIsRecorded | controllers/operation/BlockingOperation.go:137-151 | Every successful call, and every deletion of an old primary, is recorded with its instance and its time-out: 300 seconds, 60 for the removal of a replica, 10 for the wait before a promotion, whose instance is a ready replica |
| Records.CountersFollow | controllers/spec/enforcer/resources_count_spec/statefulset/ReplicaDbCountSpecEnforcer.go:276-315 | How the two counters of the status follow each call |
| Records.DeploymentWindow | controllers/operation/BlockingOperation.go:190-222 | The record of a deployment or removal is dropped exactly when it has achieved what it was for before its time-out of 10, 60 or 300 seconds; from then on it has timed out |
| Decisions.CreationExactly | controllers/spec/enforcer/resources_count_spec/statefulset/ReplicaDbCountSpecEnforcer.go:95-121 | Exactly when a reconcile creates a StatefulSet |
| Steps.FinishFacts | controllers/kubegres_controller.go:66-104 | What one reconcile may do from any readable lock record: its last call has its reason in the state that was read, the counters follow that call, the lock stays coherent; without a call nothing but the lock and the initial counter moves |
| Effects.EnforcementActs | controllers/ctx/resources/ResourcesContext.go:139-155 | The last call of the chain is accounted for by the stored state: verb, index, success, counters and lock; only a failed promotion beside a ready primary can come before it |
| Failovers.StaleRecordMakesTwo | controllers/spec/enforcer/resources_count_spec/statefulset/failover/PrimaryToReplicaFailOver.go:243-278 | For every state whose record of a pending failover is stale: a due promotion that succeeds makes a second primary, and every later reconcile stops at once |
| Failovers.SilentDeletionIsStale | controllers/spec/enforcer/resources_count_spec/statefulset/failover/PrimaryToReplicaFailOver.go:309-321 | A failover deletion that is due and fails leaves such a record: its error is swallowed and the wait starts anyway |
| Failovers.LostPromotionIsStale | controllers/kubegres_controller.go:106-116 | A promotion whose status write is lost leaves such a record |
| PrimaryDecisions.SuccessorMeans | controllers/spec/enforcer/resources_count_spec/statefulset/failover/PrimaryToReplicaFailOver.go:212-241 | Exactly who is promoted: if the user names the pod of a replica, and that pod is listed, this replica provided it is ready; without such a request the ready replica with the lowest index |
| Failovers.CompletionWindow | controllers/spec/enforcer/resources_count_spec/statefulset/failover/PrimaryToReplicaFailOver.go:117-130 | A recorded promotion completes exactly in the window of 40 to 300 seconds with a ready primary, has timed out exactly from 300 seconds on, and is otherwise left running |
| Failovers.FailoverEnds | controllers/spec/enforcer/resources_count_spec/statefulset/failover/PrimaryToReplicaFailOver.go:61-68 | In every run the record of a promotion is only dropped by a reconcile that sees the primary ready, at least 40 seconds after the promotion |
| Counting.EnforcedReplicasBound | controllers/spec/enforcer/resources_count_spec/statefulset/PrimaryDbCountSpecEnforcer.go:105-187 | In standby-off runs in which no creation loses its status write, EnforcedReplicas is at least the number of deployed StatefulSets and stays positive once positive |
| Counting.CountedStep | controllers/spec/enforcer/resources_count_spec/statefulset/ReplicaDbCountSpecEnforcer.go:276-315 | A reconcile breaks that bound if and only if it creates a StatefulSet, the status write is lost, and the counter equalled the number of StatefulSets; a positive counter stays positive in any case |
| Counting.BlankPrimaryOnce | controllers/spec/enforcer/resources_count_spec/statefulset/PrimaryDbCountSpecEnforcer.go:130-187 | In standby-off runs in which no creation loses its status write, with two or more instances asked for throughout, a blank primary is created at most once |
| Counting.IndicesGrow | controllers/spec/enforcer/resources_count_spec/statefulset/ReplicaDbCountSpecEnforcer.go:276-315 | In every run LastCreatedInstanceIndex never decreases |
| Counting.NewIndices | controllers/spec/enforcer/resources_count_spec/statefulset/ReplicaDbCountSpecEnforcer.go:251-281 | In every run in which no index escapes the counter, deployed indices stay within LastCreatedInstanceIndex; a created StatefulSet gets a free index; a new replica gets an index above every one deployed earlier in the run |
| Counting.ClaimsKeepIndices | controllers/spec/enforcer/resources_count_spec/statefulset/PrimaryDbCountSpecEnforcer.go:155-217 | No index escapes in standby-off runs in which creations keep their status write and lone primaries their claim |
| Counting.IndexedStep | controllers/spec/enforcer/resources_count_spec/statefulset/PrimaryDbCountSpecEnforcer.go:155-217 | A reconcile keeps every deployed index within the counter if and only if no StatefulSet is created above it: not a replica, or a primary under a new index, whose status write is lost, and not a primary created again under a new index |
| Counting.OnlyLostClaimsEscape | controllers/spec/enforcer/resources_count_spec/statefulset/PrimaryDbCountSpecEnforcer.go:203-217 | Where creations keep their status write and the counters agree, that is exactly the recreation of a lone primary whose claim is gone |
| Counting.LostClaim | controllers/spec/enforcer/resources_count_spec/statefulset/PrimaryDbCountSpecEnforcer.go:203-217 | In that case the primary is numbered above a counter that stays behind |
| Counting.BlockedByIndex | controllers/spec/enforcer/resources_count_spec/statefulset/ReplicaDbCountSpecEnforcer.go:251-272 | From then on every creation of a replica fails on a name in use and changes nothing |
| StorageAgreement.StorageAgrees | controllers/spec/checker/SpecChecker.go:49-120 | In every standby-off run in which a ready primary has a ready pod, all deployed StatefulSets agree on mount path, storage class and size, however the user edits them |
| StorageAgreement.StorageStep | controllers/spec/template/ResourcesCreatorFromTemplate.go:220-229 | In any state, a reconcile keeps that agreement if and only if it does not create a StatefulSet while a deployed one has other storage parameters than the spec |
| StorageAgreement.EditIsRolledBack | controllers/spec/checker/SpecChecker.go:58-115 | An edit of a storage parameter under a running primary stops the reconcile without a call and stores the deployed values again |
| Freezing.FrozenStep | controllers/spec/enforcer/resources_count_spec/statefulset/PrimaryDbCountSpecEnforcer.go:82-96 | A reconcile that meets a timed-out operation whose recovery condition is false changes no StatefulSet and keeps the operation in the status |
| Freezing.ChainFreezes | controllers/spec/enforcer/resources_count_spec/statefulset/ReplicaDbCountSpecEnforcer.go:79-93 | The chain leaves a timed-out operation alone exactly as long as its recovery condition is false |
| Freezing.RolloutFreezes | controllers/spec/enforcer/statefulset_spec/AllStatefulSetsSpecEnforcer.go:97-117 | The rollout loop stays frozen if and only if the timed-out StatefulSet asks for the same update again and nothing before it in the order differs |
| Freezing.ThawStep | controllers/spec/enforcer/resources_count_spec/BaseConfigMapCountSpecEnforcer.go:64-80 | Once the condition holds, the reconcile that reaches the enforcer forgets the time-out |
| Freezing.FrozenStretch | controllers/spec/enforcer/resources_count_spec/statefulset/failover/PrimaryToReplicaFailOver.go:94-103 | From one reconcile that meets the time-out, as long as recovery does not happen, no StatefulSet call is made and the operation stays |
| Scaling.ScalingTerminates | controllers/spec/enforcer/resources_count_spec/statefulset/ReplicaDbCountSpecEnforcer.go:77-165 | In every stretch of a run with the spec constant, a ready primary, no faults and no time-outs, with any number of waiting reconciles, the operator makes no more calls than `2 * to replace + gap` at the start; a reconcile makes a call if and only if it neither waits nor finds the wanted replicas ready; every call makes the pair (to replace, gap) lexicographically smaller |
| Scaling.DecisionCloser | controllers/spec/enforcer/resources_count_spec/statefulset/ReplicaDbCountSpecEnforcer.go:251-329 | A reconcile that does not wait makes a call exactly when the replicas are not as wanted, and the call brings them closer |
| Scaling.WaitingChangesNothing | controllers/spec/enforcer/resources_count_spec/statefulset/ReplicaDbCountSpecEnforcer.go:231-249 | A reconcile that waits for a replica leaves the world exactly as it is |
| Scaling.DecisionStaysQuiet | controllers/spec/enforcer/resources_count_spec/statefulset/ReplicaDbCountSpecEnforcer.go:251-315 | The assumptions of the stretch hold again after every decision |
| RollingUpdate.UpdatesInOrder | controllers/spec/enforcer/statefulset_spec/AllStatefulSetsSpecEnforcer.go:91-148 | In every run, with wanted fields and StatefulSets unchanged, a later update always concerns the primary or a lower index: replicas in strictly descending order, the primary last |
| PodVerification.PodSeenBeforeNextCall | controllers/spec/enforcer/statefulset_spec/AllStatefulSetsSpecEnforcer.go:207-336 | In every run, between an update whose status was written and the next StatefulSet call some reconcile saw the updated pod ready, not stuck, with the wanted image and port |
| PodVerification.LostUpdateMovesOn | controllers/spec/enforcer/statefulset_spec/AllStatefulSetsSpecEnforcer.go:185-205 | When the status write of the update is lost, nothing is recorded, and the next reconcile updates the next StatefulSet whatever the pod looks like |
| PodVerification.HeldExactly | controllers/spec/enforcer/statefulset_spec/AllStatefulSetsSpecEnforcer.go:207-272 | The loop lets go of an updated instance if and only if its pod is as wanted, its stuck pod could not be deleted, or the update itself was found timed out |
| PodVerification.LateUpdateMovesOn | controllers/spec/enforcer/statefulset_spec/AllStatefulSetsSpecEnforcer.go:104-119 | Whatever the pod looks like, an update found timed out is dropped and the next StatefulSet is updated in the same reconcile |
| PodVerification.UpdateWindow | controllers/spec/enforcer/statefulset_spec/AllStatefulSetsSpecEnforcer.go:283-300 | An update moves on to the check of its pod exactly in the window of 10 to 300 seconds with the StatefulSet as wanted |
| PodVerification.PodWaitWindow | controllers/spec/enforcer/statefulset_spec/AllStatefulSetsSpecEnforcer.go:302-336 | A wait for a pod ends exactly when the pod is ready with the wanted image and port, or is stuck no longer |
| PodVerification.MissingPodRecordsZero | controllers/spec/enforcer/statefulset_spec/AllStatefulSetsSpecEnforcer.go:250-263 | When the pod is not listed, the wait is recorded for instance 0 |
| PodVerification.ZeroFreezes | controllers/spec/enforcer/statefulset_spec/AllStatefulSetsSpecEnforcer.go:302-321 | That wait never completes; once it has timed out, the operator is frozen if and only if the rolling update cannot run or nothing in its order differs, whether the pod comes back or not |
| PodVerification.ZeroMovesOn | controllers/spec/enforcer/statefulset_spec/AllStatefulSetsSpecEnforcer.go:101-121 | In the middle of a rollout the timed-out wait for instance 0 does not stop the loop: the next StatefulSet is updated although the missing pod was never seen |
| Witnesses.TwoPrimariesRun | controllers/spec/enforcer/resources_count_spec/statefulset/failover/PrimaryToReplicaFailOver.go:280-321 | A whole run from a fresh resource, with nothing but deletions failing, that ends with two primaries |
| Witnesses.TwoCallsExample | controllers/spec/enforcer/resources_count_spec/statefulset/failover/PrimaryToReplicaFailOver.go:265-275 | A world in which one reconcile makes a failed promotion and then creates a replica |
| Witnesses.LostClaimExample | controllers/spec/enforcer/resources_count_spec/statefulset/PrimaryDbCountSpecEnforcer.go:155-183 | A world in which a lone primary is created above the counter |
| Witnesses.BlockedExample | controllers/spec/enforcer/resources_count_spec/statefulset/ReplicaDbCountSpecEnforcer.go:251-272 | A world in which the next replica has the name of the primary |
| Witnesses.LostCountExample | controllers/spec/enforcer/resources_count_spec/statefulset/PrimaryDbCountSpecEnforcer.go:148-187 | A fresh world in which a lost write breaks the bounds of both counters |
| Witnesses.TwoBlankPrimariesRun | controllers/spec/enforcer/resources_count_spec/statefulset/PrimaryDbCountSpecEnforcer.go:130-187 | A whole run, with two instances asked for throughout, in which a blank primary is created twice because the first status write is lost |
| Witnesses.PodMissingExample | controllers/spec/enforcer/statefulset_spec/AllStatefulSetsSpecEnforcer.go:250-263 | A world in which the next StatefulSet is updated after the wait for a missing pod has timed out |
| Witnesses.EditedStorageExample | controllers/spec/checker/SpecChecker.go:58-70 | A world in which an edited storage class reaches a new replica because the pod of the primary is not listed |
| Witnesses.LateUpdateExample | controllers/spec/enforcer/statefulset_spec/AllStatefulSetsSpecEnforcer.go:104-119 | A world in which a timed-out update is followed by the next one although the pod is not ready |
| Witnesses.LostUpdateExample | controllers/spec/enforcer/statefulset_spec/AllStatefulSetsSpecEnforcer.go:185-205 | The same with nothing recorded |
| BlockingOperations.TraceKeepsCoherence | controllers/operation/BlockingOperation.go:137-222 | Over every sequence of calls the lock is free, holds a started step, or is in transition with the previous record being the very step of the same operation that entered it |
| BlockingOperations.TraceRemembers | controllers/operation/BlockingOperation.go:168-196 | Over every sequence of calls the previous record is the last step that has ended: never a parked one, and no activation touches it |
| BlockingOperations.IdChangesThroughNone | controllers/operation/BlockingOperation.go:137-151 | Over every sequence of calls the active id changes to another one only through none |
| BlockingOperations.RefusalChangesNothing | controllers/operation/BlockingOperation.go:137-151 | A refused activation changes nothing, an accepted one keeps the previous record |
| BlockingOperations.ElapsedIsClamped | controllers/operation/BlockingOperation.go:114-131 | Seconds since the start equal now minus activation time, clamped at the time-out; expired exactly from then on |
| BlockingOperations.ReexaminedInTime | controllers/operation/BlockingOperation.go:50-62 | A running operation is re-examined within 20 seconds and no later than its time-out; the enforcers run exactly when no operation is running |
| Locks.BlockingOperation.LoadActiveOperation | controllers/operation/BlockingOperation.go:50-62 | Loads the lock, settles a completed or expired operation, and returns the time to wait |
| Locks.BlockingOperation.ActivateOperation | controllers/operation/BlockingOperation.go:137-151 | Refuses exactly when another operation is active or the step is unknown; otherwise records the step with its time-out |
| Locks.BlockingOperation.RemoveOperation | controllers/operation/BlockingOperation.go:168-177 | Frees the lock and remembers the step, unless it was in transition |
| Locks.BlockingOperation.RemoveActiveOperation | controllers/operation/BlockingOperation.go:106-108 | Frees the lock without a time-out |
| Locks.BlockingOperation.MoveToTransition | controllers/operation/BlockingOperation.go:179-188 | Moves the lock to the transition step, remembering the step it came from |
| Locks.BlockingOperation.FinishOperation | controllers/operation/BlockingOperation.go:198-221 | Removes a finished step or moves it to transition, as its configuration says |
| Locks.BlockingOperation.AddConfig | controllers/operation/BlockingOperation.go:45-48 | Registers one step, keeping the others |
| Locks.BlockingOperation.RegisterAll | controllers/ctx/resources/ResourcesContext.go:192-206 | The nine registrations give every step of the model its time-out, its checker and its transition flag, and no other |
| Locks.BlockingOperation.GetSecondsLeft | controllers/operation/BlockingOperation.go:120-131 | The time left, never negative |
| Locks.StatusWrapper.UpdateStatusIfChanged | controllers/ctx/status/KubegresStatusWrapper.go:54-75 | Although an unchanged status is not written, what is stored afterwards is the status in memory unless a write failed |
| Locks.StatusWrapper.SetBlockingOperation | controllers/ctx/status/KubegresStatusWrapper.go:31-34 | Sets the field in memory only |
| Locks.StatusWrapper.SetPreviousBlockingOperation | controllers/ctx/status/KubegresStatusWrapper.go:49-52 | Sets the field in memory only |
| Locks.StatusWrapper.SetEnforcedReplicas | controllers/ctx/status/KubegresStatusWrapper.go:40-43 | Sets the field in memory only |
| Locks.StatusWrapper.SetLastCreatedInstanceIndex | controllers/ctx/status/KubegresStatusWrapper.go:22-25 | Sets the field in memory only |
| Operators.ReconcileOnce | controllers/kubegres_controller.go:66-116 | One reconcile run on objects, from any listing of the cluster, leaves the world and makes the calls that the run theorems are about |
| Operators.LoadView | controllers/states/statefulset/StatefulSetsStates.go:53-79 | Yields the view of the cluster, or nothing when there are two primaries |
| Operators.BeginPass | controllers/ctx/resources/ResourcesContext.go:72-128 | The objects of a reconcile, with the lock read back |
| Operators.Operator.EnforceSpec | controllers/kubegres_controller.go:134-150 | The chain of enforcers with its early returns |
| Operators.Operator.Counts | controllers/ctx/resources/ResourcesContext.go:139-155 | Base configuration, primary, replicas, services, in this order, stopping at the first error |
| Operators.Operator.CheckSpec | controllers/spec/checker/SpecChecker.go:49-120 | Fatal exactly when a storage parameter changed under a running primary or another check fails; changed parameters are put back |
| Operators.Operator.BaseConfig | controllers/spec/enforcer/resources_count_spec/BaseConfigMapCountSpecEnforcer.go:64-144 | Creates a missing base configuration under the lock |
| Operators.Operator.PrimaryCount | controllers/spec/enforcer/resources_count_spec/statefulset/PrimaryDbCountSpecEnforcer.go:71-99 | Forgets a cured time-out, then fails over or deploys a primary |
| Operators.Operator.ShouldWeFailOver | controllers/spec/enforcer/resources_count_spec/statefulset/failover/PrimaryToReplicaFailOver.go:70-92 | The failover decision |
| Operators.Operator.FailOverToReplica | controllers/spec/enforcer/resources_count_spec/statefulset/failover/PrimaryToReplicaFailOver.go:94-115 | Waits first, promotes once the wait is over |
| Operators.Operator.SelectReplicaToPromote | controllers/spec/enforcer/resources_count_spec/statefulset/failover/PrimaryToReplicaFailOver.go:212-241 | The two selection loops |
| Operators.Operator.FindReady | controllers/spec/enforcer/resources_count_spec/statefulset/failover/PrimaryToReplicaFailOver.go:218-222 | The first ready replica in index order |
| Operators.Operator.PromoteReplicaToPrimary | controllers/spec/enforcer/resources_count_spec/statefulset/failover/PrimaryToReplicaFailOver.go:243-278 | Changes the role of the replica under the lock; a failed update frees the lock and reports no error |
| Operators.Operator.DeletePrimaryStatefulSet | controllers/spec/enforcer/resources_count_spec/statefulset/failover/PrimaryToReplicaFailOver.go:309-321 | Deletes the primary and swallows the error |
| Operators.Operator.DeployNewPrimary | controllers/spec/enforcer/resources_count_spec/statefulset/PrimaryDbCountSpecEnforcer.go:148-187 | Chooses the index and creates the primary; the index counter only moves from 0 |
| Operators.Operator.InitialiseEnforcedReplicas | controllers/spec/enforcer/resources_count_spec/statefulset/PrimaryDbCountSpecEnforcer.go:105-115 | Sets the counter of resources made by older versions |
| Operators.Operator.CreateStatefulSet | controllers/spec/enforcer/resources_count_spec/statefulset/PrimaryDbCountSpecEnforcer.go:168-177 | Creates a StatefulSet and counts it, or frees the lock |
| Operators.Operator.ReplicaCount | controllers/spec/enforcer/resources_count_spec/statefulset/ReplicaDbCountSpecEnforcer.go:77-136 | Time-out recovery, manual failover reset, then one scaling decision; what that does to the stored specification and which call it makes is `Outcomes.SpecExactly` and `ReplicaDecisions.ReplicaCallExactly` |
| Operators.Operator.RecoverReplica | controllers/spec/enforcer/resources_count_spec/statefulset/ReplicaDbCountSpecEnforcer.go:83-93 | Forgets a time-out once its replica is ready or gone |
| Operators.Operator.ResetManualFailover | controllers/spec/enforcer/resources_count_spec/statefulset/ReplicaDbCountSpecEnforcer.go:221-225 | Clears the request in memory, and in the store if the update succeeds; `Outcomes.SpecExactly` says when, over a whole reconcile |
| Operators.Operator.Scale | controllers/spec/enforcer/resources_count_spec/statefulset/ReplicaDbCountSpecEnforcer.go:108-135 | Deploy one, remove the highest index, or remove the first unready one, as `ReplicaDecisions.ReplicaCallExactly` says of the cluster |
| Operators.Operator.FindUnready | controllers/spec/enforcer/resources_count_spec/statefulset/ReplicaDbCountSpecEnforcer.go:127-132 | The first unready replica in index order, which is the unready one with the lowest index |
| Operators.Operator.DeployReplicaStatefulSet | controllers/spec/enforcer/resources_count_spec/statefulset/ReplicaDbCountSpecEnforcer.go:251-281 | Creates the replica with the next index under the lock |
| Operators.Operator.UndeployReplicaStatefulSet | controllers/spec/enforcer/resources_count_spec/statefulset/ReplicaDbCountSpecEnforcer.go:295-318 | Deletes a replica under the lock |
| Operators.Operator.FieldsOfAll | controllers/spec/enforcer/statefulset_spec/AllStatefulSetsSpecEnforcer.go:91-101 | The rolling update runs only with a ready primary or in standby, and under its own lock |
| Operators.Operator.RollOut | controllers/spec/enforcer/statefulset_spec/AllStatefulSetsSpecEnforcer.go:101-131 | The rollout loop |
| Operators.Operator.RollOutOne | controllers/spec/enforcer/statefulset_spec/AllStatefulSetsSpecEnforcer.go:103-129 | One turn of that loop |
| Operators.Operator.ReopenOn | controllers/spec/enforcer/statefulset_spec/AllStatefulSetsSpecEnforcer.go:107-117 | A timed-out update is tried again only when what is asked for has changed |
| Operators.Operator.EnforceOne | controllers/spec/enforcer/statefulset_spec/AllStatefulSetsSpecEnforcer.go:185-205 | Updates one StatefulSet under the lock |
| Operators.Operator.VerifyOnPod | controllers/spec/enforcer/statefulset_spec/AllStatefulSetsSpecEnforcer.go:207-225 | Checks the pod of an updated StatefulSet; `Outcomes.PodsExactly` says what becomes of pod and record |
| Operators.Operator.HandleStuckPod | controllers/spec/enforcer/statefulset_spec/AllStatefulSetsSpecEnforcer.go:227-248 | Deletes a stuck pod under the lock; `Outcomes.PodsExactly` says exactly when |
| StateLoading.States.Load | controllers/states/statefulset/StatefulSetsStates.go:53-79 | Fails if and only if an index label cannot be read or two StatefulSets are primary; otherwise primary, replicas, counters and both sorted views are those of the listing |
| StateLoading.States.Append | controllers/states/statefulset/StatefulSetsStates.go:81-134 | Adds one StatefulSet to the loaded state |
| StateLoading.Wrappers.Add | controllers/states/statefulset/StatefulSetWrapper.go:23-30 | Both views stay sorted and gain exactly the new element |
| StateLoading.Wrappers.GetByInstanceIndex | controllers/states/statefulset/StatefulSetWrapper.go:40-49 | Finds an element with the index, or none has it |
| StateLoading.Sorted | controllers/states/statefulset/StatefulSetWrappersSorting.go:34-58 | An ordered permutation |
| StateLoading.LabelRoundTrip | controllers/states/statefulset/StatefulSetsStates.go:169-177 | The index label written at creation is read back as the same index |
| LoadingOrder.LoadOrderFree | controllers/states/statefulset/StatefulSetsStates.go:53-143 | Two listings of the same StatefulSets and pods in any order fail together or load the same state |
| LoadingOrder.LoadPartition | controllers/states/statefulset/StatefulSetsStates.go:81-134 | Primary and replicas partition what is deployed, the views are permutations of each other, the counters are the true counts |
| LoadingOrder.LoadShowsWorld | controllers/states/statefulset/StatefulSetsStates.go:111-134 | A listing of the cluster loads exactly when there is at most one primary, and shows its index and the replica indices in ascending order |
| Convergence.OnePassConverges | controllers/spec/enforcer/statefulset_spec/StatefulSetsSpecEnforcer.go:48-97 | One pass of the registry makes the StatefulSet as the resource asks, field by field, if and only if no prefixed key was dropped, user volumes and mounts have no reserved name, no user mount is on a managed file, and there are mounts to add to |
| Convergence.CleanMeans | controllers/spec/enforcer/statefulset_spec/StatefulSetsSpecEnforcer.go:48-64 | The checks are all clean if and only if image and port are the wanted ones, every scalar is, a probe that is not asked for may be anything and an empty security context counts as none, the endpoint of an init container is, the prefixed labels and annotations are the same, every managed file is mounted from where it comes from, the custom configuration volume is there exactly when it is in use, and the user volumes and mounts match |
| Convergence.PassWritesFields | controllers/spec/enforcer/statefulset_spec/StatefulSetsSpecEnforcer.go:66-97 | What a pass leaves in image, port, scalars, endpoint, labels and annotations, whatever it finds; the image of the init container follows only where the image of the container differed, the metadata of the pod only where the metadata differed |
| Convergence.PassVolumes | controllers/spec/enforcer/statefulset_spec/VolumeSpecEnforcer.go:79-98 | After a pass every wanted volume is there, and so is every reserved one other than the custom configuration |
| Convergence.PassMounts | controllers/spec/enforcer/statefulset_spec/VolumeSpecEnforcer.go:79-98 | After a pass every mount with a reserved name is still there, wired, and so is every wanted mount if the container had any; the same for the init container |
| Convergence.PassMountsResolve | controllers/spec/enforcer/statefulset_spec/VolumeSpecEnforcer.go:79-98 | After a whole pass every mount of a managed file names a volume of the template, given a base volume |
| Convergence.IdentityKept | controllers/spec/enforcer/statefulset_spec/StatefulSetsSpecEnforcer.go:66-97 | A pass never changes the role or the index label |
| Convergence.WiringCleanExactly | controllers/spec/enforcer/statefulset_spec/VolumeSpecEnforcer.go:43-98 | When the configuration and volume enforcers together leave their part clean |
| Convergence.MetadataClean | controllers/spec/enforcer/statefulset_spec/CustomMetadataSpecEnforcer.go:37-87 | Metadata is clean after a pass if and only if no prefixed key was dropped from the resource |
| SpecRegistry.MergeConverges | controllers/spec/enforcer/statefulset_spec/CustomMetadataSpecEnforcer.go:59-87 | Merging makes the prefixed entries equal if and only if none was dropped |
| Rewriting.StatefulSetObject.CheckForSpecDifferences | controllers/spec/enforcer/statefulset_spec/StatefulSetsSpecEnforcer.go:48-64 | Collects the differing enforcers in order; empty exactly when the StatefulSet is as the resource asks, field by field |
| Rewriting.StatefulSetObject.EnforceSpec | controllers/spec/enforcer/statefulset_spec/StatefulSetsSpecEnforcer.go:66-97 | The rewriting loop; an update is due exactly when the StatefulSet is not as the resource asks; what it leaves in each field |
| Rewriting.StatefulSetObject.EnforceVolumes | controllers/spec/enforcer/statefulset_spec/VolumeSpecEnforcer.go:79-98 | Removes the custom volumes and mounts and adds the wanted ones |
| VolumeLists.RemoveCustom | controllers/spec/enforcer/statefulset_spec/VolumeSpecEnforcer.go:193-273 | Repeated first-equal deletion leaves exactly the reserved elements, in order |
| VolumeLists.Compare | controllers/spec/enforcer/statefulset_spec/VolumeSpecEnforcer.go:104-148 | Length plus membership |
| VolumeLists.MatchesIsPermutation | controllers/spec/enforcer/statefulset_spec/VolumeSpecEnforcer.go:104-148 | For duplicate-free expected lists that comparison is multiset equality |
| VolumeLists.IndexOf | controllers/spec/enforcer/statefulset_spec/VolumeSpecEnforcer.go:213-222 | The first occurrence, or none |
| CustomConfig.PodTemplate.Configure | controllers/spec/template/CustomConfigSpecHelper.go:43-100 | Wires the template; reports a change exactly when something changed |
| CustomConfig.PodTemplate.RenameMounts | controllers/spec/template/CustomConfigSpecHelper.go:102-121 | Renames exactly the mounts of one key; reports a change exactly when a name was another one |
| CustomConfig.PodTemplate.DeleteCustomVolume | controllers/spec/template/CustomConfigSpecHelper.go:149-160 | Keeps all other volumes in order |
| CustomConfig.PodTemplate.ConfigureVolumes | controllers/spec/template/CustomConfigSpecHelper.go:72-97 | Adds, replaces or removes the custom configuration volume |
| CustomConfig.ConfigureIdempotent | controllers/spec/template/CustomConfigSpecHelper.go:43-100 | A second call changes nothing |
| CustomConfig.ConfiguredMountsResolve | controllers/spec/template/CustomConfigSpecHelper.go:43-160 | Afterwards every mount of a managed key names a volume of the template, given a base volume |
| CustomConfig.LoadConfigStates | controllers/states/ConfigStates.go:72-134 | A known key is mounted from the custom volume if and only if the custom map is in use and has a non-empty text under that key, and from the base volume otherwise |
| Creation.CreateStatefulSet | controllers/spec/template/ResourcesCreatorFromTemplate.go:97-137 | Fills the template step by step |
| Creation.CreatorAgrees | controllers/spec/template/ResourcesCreatorFromTemplate.go:190-295 | A StatefulSet built from either template is as the resource asks, field by field, if and only if the resource has no prefixed label, user volumes and mounts have no reserved name, and no user mount is on a managed file |
| Creation.CreatedMounts | controllers/spec/template/ResourcesCreatorFromTemplate.go:97-137 | What is mounted where in a new StatefulSet: the initialisation scripts for a primary only, the script that copies the data in the init container of a replica only, each file from the volume it comes from |
| Creation.CreatedMountsResolve | controllers/spec/template/ResourcesCreatorFromTemplate.go:97-137 | Every configuration file mounted in a new StatefulSet comes from one of its volumes, and the base volume is that of the base configuration |
| Creation.CreatedIsLoaded | controllers/spec/template/ResourcesCreatorFromTemplate.go:190-215 | What is created for an instance is loaded back under that index and role |

## Left out

- The Kubernetes client, its caches and version conflicts, and the refresh of an object by an update:
  calls are atomic on a map and may fail.
- Two readings of the clock within one reconcile that fall into different seconds.
- Services, the backup job, default values and the checks behind `otherwiseValid`, among them the
  comparison of user claim templates: short conditionals; the first two appear as an answer that may
  be an error.
- Storage size expansion: its check is disabled in the program and never reports a difference.
- Which volume claim a recreated lone primary picks up: only whether one exists is an input.
- The three separate writes of a storage rollback are one write that succeeds or fails.
- Shell scripts and PostgreSQL replication: a promotion is a change of role. The mount and the command
  that it adds to the init container are not part of `Wiring`.
- Claim templates, owner references, environment variables, pull secrets and resource names in
  `Manifest`: no enforcer compares them.
- Affinity, tolerations, resources, security context, probes and service account are texts compared
  for equality; quantities are taken as canonical.
- Maps of labels and annotations are merged and filtered as values, not entry by entry in a loop.
- Logging, events and the wording of messages: the recorded text of differences is the list of
  differing fields with their wanted values.
- Runs.SinglePrimary: for careful runs only; outside them it is false, as `Witnesses.TwoPrimariesRun`
  shows.
- Counting.EnforcedReplicasBound: assumes that no creation loses its status write; without that it is
  false, exactly as `Counting.CountedStep` says.
- Counting.BlankPrimaryOnce: assumes that no creation loses its status write; without that it is false, as
  `Witnesses.TwoBlankPrimariesRun` shows.
- Counting.NewIndices: for runs in which no index escapes the counter; `Counting.IndexedStep` says exactly
  when one does, and `Witnesses.LostClaimExample` and `Witnesses.LostCountExample` are inputs.
- StorageAgreement.StorageAgrees: assumes that a ready primary has a ready pod; without that it is false,
  as `Witnesses.EditedStorageExample` shows.
- PodVerification.PodSeenBeforeNextCall: assumes that the status write of the update succeeded, that the
  pod is listed, that a stuck pod can be deleted, and that the update is not found timed out;
  `PodVerification.LostUpdateMovesOn`, `PodVerification.ZeroMovesOn` and `PodVerification.HeldExactly`
  show that none of them can be dropped.
- Scaling.ScalingTerminates: a stretch in which every reconcile comes before the time-out of the
  operation it meets; that a deployed replica becomes ready in the end is up to the environment.
