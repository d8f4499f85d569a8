/** What one reconcile can do to the StatefulSets, and under which lock. */
module Effects {
  import opened Resources
  import opened BlockingOperations
  import opened Snapshots
  import opened Enforcement
  import opened Reconciling

  /** The failover lock agrees with the cluster: while the operator waits before promoting
      a replica, or is about to promote one, no primary is deployed. */
  predicate Guarded(op: Operation, c: Cluster) {
    op.id == PrimaryDbCount && (op.step == WaitingBeforeFailingOver || op.step == TransitionStep)
    ==> Primaries(c) == {}
  }

  /** Nothing was asked of the StatefulSets so far. */
  predicate Untouched(p: Pass, v: View) {
    && p.calls == [] && p.cluster == v.sets
    && (p.lock.active.hasTimedOut ==> p.lock.active.step != TransitionStep)
  }

  /** Starting a registered step, when no other operation is active, records it as started
      now and changes nothing else. */
  lemma StartFacts(p: Pass, id: OperationId, step: StepId, i: nat, d: seq<Difference>, now: int)
    requires !OtherActive(p.lock, id) && ConfigOf(id, step).Some?
    ensures var op := Operation(id, step, i, d, now + TimeOutOf(step), false);
            Start(p, id, step, i, d, now) == p.(lock := Lock(op, p.lock.previous, op))
  {
  }


  /** The step under which a call is made. */
  function StepOf(verb: Verb): (s: (OperationId, StepId))
  {
    match verb
    case CreatePrimary => (PrimaryDbCount, PrimaryDbDeploying)
    case CreateReplica => (ReplicaDbCount, ReplicaDbDeploying)
    case DeletePrimary => (PrimaryDbCount, WaitingBeforeFailingOver)
    case DeleteReplica => (ReplicaDbCount, ReplicaDbUndeploying)
    case PromoteReplica => (PrimaryDbCount, FailingOver)
    case UpdateFields => (StatefulSetSpec, SpecUpdating)
  }

  /** The cluster after a call, given the storage and fields of the specification. */
  function Applied(c: Cluster, call: Call, s: Storage, f: Fields): (r: Cluster)
  {
    if !call.ok then c
    else
      match call.verb
      case CreatePrimary => c[call.index := StatefulSet(Primary, false, s, f)]
      case CreateReplica => c[call.index := StatefulSet(Replica, false, s, f)]
      case DeletePrimary => c - {call.index}
      case DeleteReplica => c - {call.index}
      case PromoteReplica => if call.index in c then c[call.index := c[call.index].(role := Primary)] else c
      case UpdateFields => if call.index in c then c[call.index := c[call.index].(fields := f)] else c
  }

  /** The lock holds the step of the call, started now. For the deletion of the old primary
      the record names the replica to promote. */
  predicate HeldFor(l: Lock, call: Call, now: int) {
    && l.saved == l.active
    && l.active.id == StepOf(call.verb).0
    && l.active.step == StepOf(call.verb).1
    && (call.verb != DeletePrimary ==> l.active.index == call.index)
    && l.active.timeOut == now + ConfigFor(l.active).timeOut
    && !l.active.hasTimedOut
    && (l.active.differences == [] <==> call.verb != UpdateFields)
  }

  /** Exactly one call was made: the cluster is what that call makes of it, the counters
      follow it, and the lock holds its step; a failed call other than the deletion of the
      old primary leaves the lock free. */
  predicate OneCall(s: Storage, f: Fields, r: Pass, v: View, now: int) {
    && |r.calls| == 1
    && var call := r.calls[0];
    && r.cluster == Applied(v.sets, call, s, f)
    && (call.ok || call.verb == DeletePrimary ==> HeldFor(r.lock, call, now))
    && (!call.ok && call.verb != DeletePrimary ==> r.lock.active == NONE)
    && (call.ok && (call.verb == CreatePrimary || call.verb == CreateReplica) ==> call.index !in v.sets)
    && (call.ok && (call.verb == PromoteReplica || call.verb == UpdateFields) ==> call.index in v.sets)
  }

  lemma BaseConfigFacts(p: Pass, v: View, a: Replies)
    requires Untouched(p, v)
    ensures var r := EnforceBaseConfig(p, v, a);
            && Untouched(r, v)
            && r.enforced == p.enforced && r.lastCreated == p.lastCreated
            && (r.lock == p.lock
                || (!OtherActive(p.lock, BaseConfigCount) && r.lock.active.id in {NoOperation, BaseConfigCount}))
  {
  }

  /** Which call the enforcement of the primary may make. */
  predicate PrimaryCall(p: Pass, r: Pass, v: View, a: Replies) {
    && |r.calls| == 1
    && var call := r.calls[0];
    match call.verb
    case CreatePrimary =>
      && v.primary.None? && |v.replicas| == 0
      && (p.spec.replicas == 1 || p.enforced <= 0)
      && call.index == NewPrimaryIndex(p, a) && call.ok == (a.createOk && call.index !in v.sets)
      && r.enforced == (if call.ok then p.enforced + 1 else p.enforced)
      && r.lastCreated == (if call.ok && p.lastCreated == 0 then 1 else p.lastCreated)
      && r.failed == !call.ok
    case DeletePrimary =>
      && !WaitIsOver(p.lock) && p.enforced > 0
      && (v.primary.Some? ==> call.index == v.primary.value && call.ok == a.deleteOk)
      && (v.primary.None? ==> call.index == 0 && !call.ok)
      && r.lock.active.index in v.replicas && v.Ready(r.lock.active.index)
      && r.enforced == p.enforced && r.lastCreated == p.lastCreated && !r.failed
    case PromoteReplica =>
      && WaitIsOver(p.lock) && p.enforced > 0
      && call.index in v.replicas && v.Ready(call.index) && call.ok == (a.promoteOk && call.index in v.sets)
      && r.enforced == p.enforced && r.lastCreated == p.lastCreated && !r.failed
    case _ => false
  }

  lemma PromoteFacts(p: Pass, v: View, i: nat, a: Replies)
    requires Untouched(p, v) && !p.failed && !OtherActive(p.lock, PrimaryDbCount) && p.enforced > 0
    requires WaitIsOver(p.lock) && i in v.replicas && v.Ready(i)
    ensures var r := Promote(p, i, a);
            && OneCall(p.spec.storage, p.spec.fields, r, v, a.now) && PrimaryCall(p, r, v, a)
            && r.enforced == p.enforced && r.lastCreated == p.lastCreated
  {
    StartFacts(p, PrimaryDbCount, FailingOver, i, [], a.now);
  }

  lemma StartWaitingFacts(p: Pass, v: View, i: nat, a: Replies)
    requires Untouched(p, v) && !p.failed && !OtherActive(p.lock, PrimaryDbCount) && p.enforced > 0
    requires !WaitIsOver(p.lock) && i in v.replicas && v.Ready(i)
    ensures var r := StartWaiting(p, v, i, a);
            && OneCall(p.spec.storage, p.spec.fields, r, v, a.now) && PrimaryCall(p, r, v, a)
            && r.enforced == p.enforced && r.lastCreated == p.lastCreated
  {
    StartFacts(DeleteOldPrimary(p, v, a), PrimaryDbCount, WaitingBeforeFailingOver, i, [], a.now);
  }

  lemma FailOverFacts(p: Pass, v: View, a: Replies)
    requires Untouched(p, v) && !p.failed && !OtherActive(p.lock, PrimaryDbCount) && p.enforced > 0
    ensures var r := FailOver(p, v, a);
            && (r.calls == [] ==> r == p || r == p.(failed := true))
            && (r.calls != [] ==> OneCall(p.spec.storage, p.spec.fields, r, v, a.now) && PrimaryCall(p, r, v, a))
            && r.enforced == p.enforced && r.lastCreated == p.lastCreated
  {
    var s := SelectReplica(p.spec, v);
    if !HasTimedOut(p.lock, PrimaryDbCount) && s.Some? {
      if WaitIsOver(p.lock) {
        PromoteFacts(p, v, s.value, a);
      } else {
        StartWaitingFacts(p, v, s.value, a);
      }
    }
  }

  lemma DeployPrimaryFacts(p: Pass, v: View, a: Replies)
    requires Untouched(p, v) && !p.failed && !OtherActive(p.lock, PrimaryDbCount)
    requires ShouldDeployPrimary(p, v)
    ensures var r := DeployPrimary(p, a);
            && (r.calls == [] ==> r == p)
            && (r.calls != [] ==> OneCall(p.spec.storage, p.spec.fields, r, v, a.now) && PrimaryCall(p, r, v, a))
  {
    StartFacts(p, PrimaryDbCount, PrimaryDbDeploying, NewPrimaryIndex(p, a), [], a.now);
  }

  /** The pass as the failover and the deployment of a primary see it: the counter is
      initialised and a time-out that a ready primary has cured is forgotten. */
  function Refreshed(p: Pass, v: View): (r: Pass)
  {
    var p1 := InitialiseEnforced(p, v);
    if v.PrimaryReady() && HasTimedOut(p1.lock, PrimaryDbCount) then Release(p1) else p1
  }

  predicate ConsidersPrimary(p: Pass) {
    !p.spec.standby && !OtherActive(p.lock, PrimaryDbCount)
  }

  lemma PrimaryShape(p: Pass, v: View, a: Replies)
    ensures var r := EnforcePrimary(p, v, a);
            var q := Refreshed(p, v);
            if !ConsidersPrimary(p) then r == WithoutPrimary(p, v)
            else if ShouldFailOver(q, v) then r == FailOver(q, v, a)
            else if ShouldDeployPrimary(q, v) then r == DeployPrimary(q, a)
            else r == q
  {
  }

  lemma PrimaryActs(p: Pass, v: View, a: Replies)
    requires Untouched(p, v) && !p.failed
    ensures var r := EnforcePrimary(p, v, a);
            r.calls != [] ==>
              && ConsidersPrimary(p)
              && OneCall(p.spec.storage, p.spec.fields, r, v, a.now)
              && PrimaryCall(Refreshed(p, v), r, v, a)
  {
    PrimaryShape(p, v, a);
    var q := Refreshed(p, v);
    if ConsidersPrimary(p) {
      if ShouldFailOver(q, v) {
        FailOverFacts(q, v, a);
      } else if ShouldDeployPrimary(q, v) {
        DeployPrimaryFacts(q, v, a);
      }
    }
  }

  /** What is left of the pass when nothing is done for the primary. */
  function WithoutPrimary(p: Pass, v: View): (r: Pass)
  {
    if p.spec.standby then p
    else if OtherActive(p.lock, PrimaryDbCount) then InitialiseEnforced(p, v)
    else Refreshed(p, v)
  }

  lemma PrimaryIdles(p: Pass, v: View, a: Replies)
    requires Untouched(p, v) && !p.failed
    ensures var r := EnforcePrimary(p, v, a);
            r.calls == [] ==> Untouched(r, v) && r.(failed := false) == WithoutPrimary(p, v)
  {
    PrimaryShape(p, v, a);
    var q := Refreshed(p, v);
    if ConsidersPrimary(p) {
      if ShouldFailOver(q, v) {
        FailOverFacts(q, v, a);
      } else if ShouldDeployPrimary(q, v) {
        DeployPrimaryFacts(q, v, a);
      }
    }
  }

  predicate ReplicaCall(p: Pass, r: Pass, v: View, a: Replies) {
    && |r.calls| == 1
    && var call := r.calls[0];
    match call.verb
    case CreateReplica =>
      && ExpectedReplicas(p.spec.replicas, p.spec.standby) > |v.replicas|
      && call.index == p.lastCreated + 1 && call.ok == (a.createOk && call.index !in v.sets)
      && r.enforced == (if call.ok then p.enforced + 1 else p.enforced)
      && r.lastCreated == (if call.ok then call.index else p.lastCreated)
      && r.failed == !call.ok
    case DeleteReplica =>
      && call.index in v.replicas && call.ok == a.deleteOk
      && ExpectedReplicas(p.spec.replicas, p.spec.standby) <= |v.replicas|
      && (if ExpectedReplicas(p.spec.replicas, p.spec.standby) < |v.replicas|
          then call.index == v.replicas[|v.replicas| - 1]
          else Some(call.index) == FirstUnready(v.replicas, v))
      && r.enforced == (if call.ok then p.enforced - 1 else p.enforced)
      && r.lastCreated == p.lastCreated
      && r.failed == !call.ok
    case _ => false
  }

  lemma DeployReplicaFacts(p: Pass, v: View, a: Replies)
    requires Untouched(p, v) && !p.failed && !OtherActive(p.lock, ReplicaDbCount)
    requires ExpectedReplicas(p.spec.replicas, p.spec.standby) > |v.replicas|
    ensures var r := DeployReplica(p, a);
            && OneCall(p.spec.storage, p.spec.fields, r, v, a.now) && ReplicaCall(p, r, v, a)
  {
    StartFacts(p, ReplicaDbCount, ReplicaDbDeploying, p.lastCreated + 1, [], a.now);
  }

  lemma UndeployReplicaFacts(p: Pass, v: View, i: nat, a: Replies)
    requires Untouched(p, v) && !p.failed && !OtherActive(p.lock, ReplicaDbCount)
    ensures var r := UndeployReplica(p, i, a);
            && r.calls == [Call(DeleteReplica, i, a.deleteOk)]
            && OneCall(p.spec.storage, p.spec.fields, r, v, a.now)
            && r.enforced == (if a.deleteOk then p.enforced - 1 else p.enforced)
            && r.failed == !a.deleteOk
            && r.lastCreated == p.lastCreated
  {
    StartFacts(p, ReplicaDbCount, ReplicaDbUndeploying, i, [], a.now);
  }

  lemma ScaleFacts(p: Pass, v: View, manual: bool, a: Replies)
    requires Untouched(p, v) && !p.failed && !OtherActive(p.lock, ReplicaDbCount)
    ensures var r := ScaleReplicas(p, v, manual, a);
            && (r.calls == [] ==> r == p)
            && (r.calls != [] ==> OneCall(p.spec.storage, p.spec.fields, r, v, a.now) && ReplicaCall(p, r, v, a))
  {
    var missing := ExpectedReplicas(p.spec.replicas, p.spec.standby) - |v.replicas|;
    if missing > 0 {
      DeployReplicaFacts(p, v, a);
    } else if missing < 0 && |v.replicas| > 0 {
      UndeployReplicaFacts(p, v, Reversed(v.replicas)[0], a);
    } else if FirstUnready(v.replicas, v).Some? {
      UndeployReplicaFacts(p, v, FirstUnready(v.replicas, v).value, a);
    }
  }

  /** The pass as the scaling sees it: a cured time-out is forgotten and a request for a
      manual failover is cleared. */
  function Cleared(p: Pass, a: Replies): (r: Pass)
    ensures r.enforced == p.enforced && r.lastCreated == p.lastCreated
    ensures r.spec == p.spec.(promotePod := None)
    ensures r.cluster == p.cluster && r.calls == p.calls && r.failed == p.failed
  {
    var p1 := if HasTimedOut(p.lock, ReplicaDbCount) then Release(p) else p;
    if p1.spec.promotePod.Some? then ResetPromotePod(p1, a) else p1
  }

  predicate Scales(p: Pass, v: View) {
    && !OtherActive(p.lock, ReplicaDbCount)
    && (HasTimedOut(p.lock, ReplicaDbCount) || p.lock.active.id != ReplicaDbCount)
    && (HasTimedOut(p.lock, ReplicaDbCount) ==> FailedReplicaFixed(p.lock, v))
    && (p.spec.standby || v.PrimaryReady())
  }

  lemma ReplicaShape(p: Pass, v: View, a: Replies)
    ensures var r := EnforceReplicas(p, v, a);
            if Scales(p, v) then r == ScaleReplicas(Cleared(p, a), v, p.spec.promotePod.Some?, a)
            else r == p || r == Cleared(p, a)
                 || (HasTimedOut(p.lock, ReplicaDbCount) && r == Release(p))
  {
  }

  lemma ReplicaActs(p: Pass, v: View, a: Replies)
    requires Untouched(p, v) && !p.failed
    ensures var r := EnforceReplicas(p, v, a);
            r.calls != [] ==>
              && (p.spec.standby || v.PrimaryReady()) && !OtherActive(p.lock, ReplicaDbCount)
              && OneCall(p.spec.storage, p.spec.fields, r, v, a.now)
              && ReplicaCall(Cleared(p, a), r, v, a)
  {
    ReplicaShape(p, v, a);
    if Scales(p, v) {
      ScaleFacts(Cleared(p, a), v, p.spec.promotePod.Some?, a);
    }
  }

  lemma ReplicaIdles(p: Pass, v: View, a: Replies)
    requires Untouched(p, v) && !p.failed
    ensures var r := EnforceReplicas(p, v, a);
            r.calls == [] ==>
              && Untouched(r, v)
              && (r == p || r == Cleared(p, a) || (HasTimedOut(p.lock, ReplicaDbCount) && r == Release(p)))
  {
    ReplicaShape(p, v, a);
    if Scales(p, v) {
      ScaleFacts(Cleared(p, a), v, p.spec.promotePod.Some?, a);
    }
  }

  lemma NoDifference(want: Fields, f: Fields)
    ensures Differences(want, f) == [] <==> f == want
  {
    var i, p := FieldDifference("Image", f.image, want.image), FieldDifference("Port", f.port, want.port);
    assert |Differences(want, f)| == |i| + |p| + |FieldDifference("Other", f.other, want.other)|;
  }

  /** Position in the rollout order of the StatefulSet that is updated: everything before it
      already agrees with the spec. */
  predicate FirstDiffering(want: Fields, v: View, order: seq<nat>, k: int, i: nat) {
    && 0 <= k < |order| && order[k] == i
    && DifferencesAt(want, v, i) != []
    && forall j :: 0 <= j < k ==> DifferencesAt(want, v, order[j]) == []
  }

  lemma UpdateOneFacts(p: Pass, v: View, i: nat, d: seq<Difference>, a: Replies)
    requires d != [] && Untouched(p, v) && !p.failed && !OtherActive(p.lock, StatefulSetSpec)
    ensures var r := UpdateOne(p, i, d, a);
            && OneCall(p.spec.storage, p.spec.fields, r, v, a.now)
            && r.calls == [Call(UpdateFields, i, a.updateOk && i in v.sets)]
            && r.enforced == p.enforced && r.lastCreated == p.lastCreated
  {
    StartFacts(p, StatefulSetSpec, SpecUpdating, i, d, a.now);
  }

  lemma VerifyPodFacts(p: Pass, v: View, i: nat, a: Replies)
    requires Untouched(p, v) && !p.failed && !OtherActive(p.lock, StatefulSetSpec)
    ensures var r := VerifyPod(p, v, i, a);
            && Untouched(r, v) && !OtherActive(r.lock, StatefulSetSpec)
            && r.enforced == p.enforced && r.lastCreated == p.lastCreated
  {
    StartFacts(p, StatefulSetSpec, WaitingOnStuckPod, PodIndex(v, i), [], a.now);
    StartFacts(p, StatefulSetSpec, PodSpecUpdating, PodIndex(v, i), [], a.now);
  }

  /** The pass with a time-out on instance `i` forgotten. */
  function Reopened(p: Pass, i: nat): (r: Pass)
  {
    if UpdateTimedOutOn(p.lock, i) then Release(p) else p
  }

  /** One turn of the loop: it stops, updates one StatefulSet, or goes on to the rest. */
  lemma RolloutTurn(p: Pass, v: View, order: seq<nat>, a: Replies)
    requires order != []
    ensures var r, i := Rollout(p, v, order, a), order[0];
            var d, p1 := DifferencesAt(p.spec.fields, v, i), Reopened(p, i);
            if UpdateTimedOutOn(p.lock, i) && p.lock.active.differences == d then r == p
            else if d != [] then r == UpdateOne(p1, i, d, a)
            else if ParkedOn(p1.lock, i) then
              r == (if !PodVerified(p1.spec.fields, v, i) || VerifyPod(p1, v, i, a).failed then VerifyPod(p1, v, i, a)
                    else Rollout(VerifyPod(p1, v, i, a), v, order[1..], a))
            else r == Rollout(p1, v, order[1..], a)
  {
  }

  /** The loop without a call. */
  lemma {:induction false} RolloutRests(p: Pass, v: View, order: seq<nat>, a: Replies)
    requires Untouched(p, v) && !p.failed && !OtherActive(p.lock, StatefulSetSpec)
    ensures var r := Rollout(p, v, order, a);
            && r.enforced == p.enforced && r.lastCreated == p.lastCreated
            && (r.calls == [] ==> Untouched(r, v) && !OtherActive(r.lock, StatefulSetSpec))
    decreases |order|
  {
    if order != [] {
      RolloutTurn(p, v, order, a);
      var i := order[0];
      var d, p1 := DifferencesAt(p.spec.fields, v, i), Reopened(p, i);
      if d != [] {
        UpdateOneFacts(p1, v, i, d, a);
      } else {
        VerifyPodFacts(p1, v, i, a);
        var p2 := if ParkedOn(p1.lock, i) then VerifyPod(p1, v, i, a) else p1;
        if !p2.failed {
          RolloutRests(p2, v, order[1..], a);
        }
      }
    }
  }

  /** The loop with a call: everything before the StatefulSet that is updated agrees already. */
  lemma {:induction false} RolloutActs(p: Pass, v: View, order: seq<nat>, a: Replies) returns (k: int)
    requires Untouched(p, v) && !p.failed && !OtherActive(p.lock, StatefulSetSpec)
    ensures var r := Rollout(p, v, order, a);
            r.calls != [] ==>
              && OneCall(p.spec.storage, p.spec.fields, r, v, a.now)
              && r.calls[0].verb == UpdateFields && r.calls[0].ok == (a.updateOk && r.calls[0].index in v.sets)
              && FirstDiffering(p.spec.fields, v, order, k, r.calls[0].index)
    decreases |order|
  {
    k := 0;
    if order != [] {
      RolloutTurn(p, v, order, a);
      var i := order[0];
      var d, p1 := DifferencesAt(p.spec.fields, v, i), Reopened(p, i);
      if d != [] {
        UpdateOneFacts(p1, v, i, d, a);
      } else {
        VerifyPodFacts(p1, v, i, a);
        var p2 := if ParkedOn(p1.lock, i) then VerifyPod(p1, v, i, a) else p1;
        if !p2.failed {
          k := RolloutActs(p2, v, order[1..], a);
          k := k + 1;
        }
      }
    }
  }

  lemma RolloutFacts(p: Pass, v: View, order: seq<nat>, a: Replies) returns (k: int)
    requires Untouched(p, v) && !p.failed && !OtherActive(p.lock, StatefulSetSpec)
    ensures var r := Rollout(p, v, order, a);
            && r.enforced == p.enforced && r.lastCreated == p.lastCreated
            && (r.calls == [] ==> Untouched(r, v) && !OtherActive(r.lock, StatefulSetSpec))
            && (r.calls != [] ==>
                  && OneCall(p.spec.storage, p.spec.fields, r, v, a.now)
                  && r.calls[0].verb == UpdateFields && r.calls[0].ok == (a.updateOk && r.calls[0].index in v.sets)
                  && FirstDiffering(p.spec.fields, v, order, k, r.calls[0].index))
  {
    RolloutRests(p, v, order, a);
    k := RolloutActs(p, v, order, a);
  }

  // ---------- The whole chain ----------

  /** The enforcers that come after the primary's leave everything as it is once a call was
      made for the primary: its operation is active, or the promotion failed and there is
      no ready primary. */
  lemma NothingAfterPrimary(p: Pass, v: View, a: Replies)
    requires p.lock.active.id == PrimaryDbCount || (!IsActive(p.lock) && !p.spec.standby && !v.PrimaryReady())
    ensures EnforceReplicas(p, v, a) == p && EnforceFields(p, v, a) == p
  {
  }

  lemma NothingAfterReplica(p: Pass, v: View, a: Replies)
    requires p.lock.active.id == ReplicaDbCount
    ensures EnforceFields(p, v, a) == p
  {
  }

  datatype Stage = Idle | ByPrimary | ByReplicas | ByFields

  /** The passes between the enforcers. */
  datatype Chain = Chain(base: Pass, primary: Pass, replicas: Pass, fields: Pass)

  function ChainOf(p: Pass, v: View, a: Replies): (c: Chain)
  {
    var b := EnforceBaseConfig(p, v, a);
    var q := EnforcePrimary(b, v, a);
    var s := EnforceReplicas(q, v, a);
    Chain(b, q, s, EnforceFields(s, v, a))
  }

  /** What follows the enforcement of the primary. */
  function Tail(q: Pass, v: View, a: Replies): (r: Pass)
  {
    var s := EnforceReplicas(q, v, a);
    if s.failed then s
    else if !a.servicesOk then s.(failed := true)
    else EnforceFields(s, v, a)
  }

  lemma AllShape(p: Pass, v: View, a: Replies)
    requires !p.failed
    ensures var c := ChainOf(p, v, a);
            EnforceAll(p, v, a)
            == (if c.base.failed then c.base else if c.primary.failed then c.primary else Tail(c.primary, v, a))
  {
    var c := ChainOf(p, v, a);
    if !c.base.failed && !c.primary.failed && !c.replicas.failed && a.servicesOk {
      assert c.replicas.(failed := false) == c.replicas;
    }
  }

  lemma TailActs(q: Pass, v: View, a: Replies) returns (o: Stage)
    requires Untouched(q, v) && !q.failed
    ensures var r, s := Tail(q, v, a), EnforceReplicas(q, v, a);
            && (o.Idle? <==> r.calls == []) && !o.ByPrimary?
            && (o.Idle? ==> r.cluster == v.sets && s.calls == [] && !s.failed && Untouched(s, v))
            && (o.ByReplicas? ==> r == s.(failed := r.failed) && |r.calls| == 1)
            && (o.ByFields? ==> !s.failed && Untouched(s, v) && r == EnforceFields(s, v, a) && |r.calls| == 1)
  {
    var s := EnforceReplicas(q, v, a);
    ReplicaActs(q, v, a);
    ReplicaIdles(q, v, a);
    if s.calls != [] {
      if !s.failed { NothingAfterReplica(s, v, a); }
      return ByReplicas;
    }
    if s.failed || !a.servicesOk { return Idle; }
    if (s.spec.standby || v.PrimaryReady()) && !OtherActive(s.lock, StatefulSetSpec) {
      var _ := RolloutFacts(s, v, RolloutOrder(s.spec.standby, v), a);
    }
    return if EnforceFields(s, v, a).calls == [] then Idle else ByFields;
  }

  /** A promotion failed and was reported as a success: the lock is free again, and a ready
      primary lets the other enforcers run. */
  predicate FailedPromotion(q: Pass, v: View) {
    && |q.calls| == 1 && q.calls[0].verb == PromoteReplica && !q.calls[0].ok
    && !q.failed && q.lock.active == NONE && q.cluster == v.sets && v.PrimaryReady()
  }

  /** A call made for the primary ends the pass, unless it is a failed promotion beside a ready
      primary. */
  lemma PrimaryEnds(b: Pass, v: View, a: Replies)
    requires Untouched(b, v) && !b.failed
    requires EnforcePrimary(b, v, a).calls != []
    ensures var q := EnforcePrimary(b, v, a);
            |q.calls| == 1
            && (|| q.failed || FailedPromotion(q, v)
                || (Tail(q, v, a) == q.(failed := !a.servicesOk) && !Scales(q, v)))
  {
    var q := EnforcePrimary(b, v, a);
    PrimaryActs(b, v, a);
    if !q.failed && !FailedPromotion(q, v) {
      assert q.lock.active.id == PrimaryDbCount || q.calls[0].verb == PromoteReplica;
      NothingAfterPrimary(q, v, a);
    }
  }

  // ---------- A pass that goes on after a call ----------

  /** The pass with a call made before all of its own. */
  function Following(first: Call, p: Pass): (r: Pass)
  {
    p.(calls := [first] + p.calls)
  }

  lemma CreateFollows(first: Call, p: Pass, verb: Verb, i: nat, role: Role, a: Replies)
    requires p.calls == []
    ensures Create(Following(first, p), verb, i, role, a) == Following(first, Create(p, verb, i, role, a))
  {
  }

  lemma StartFollows(first: Call, p: Pass, id: OperationId, step: StepId, i: nat, d: seq<Difference>, now: int)
    ensures Start(Following(first, p), id, step, i, d, now)
            == Following(first, Start(p, id, step, i, d, now))
    ensures Start(p, id, step, i, d, now).calls == p.calls
  {
  }

  lemma DeployFollows(first: Call, p: Pass, a: Replies)
    requires p.calls == []
    ensures DeployReplica(Following(first, p), a) == Following(first, DeployReplica(p, a))
  {
    var i := p.lastCreated + 1;
    StartFollows(first, p, ReplicaDbCount, ReplicaDbDeploying, i, [], a.now);
    CreateFollows(first, Start(p, ReplicaDbCount, ReplicaDbDeploying, i, [], a.now), CreateReplica, i, Replica, a);
  }

  lemma UndeployFollows(first: Call, p: Pass, i: nat, a: Replies)
    requires p.calls == []
    ensures UndeployReplica(Following(first, p), i, a) == Following(first, UndeployReplica(p, i, a))
  {
  }

  lemma ScaleFollows(first: Call, p: Pass, v: View, manual: bool, a: Replies)
    requires p.calls == []
    ensures ScaleReplicas(Following(first, p), v, manual, a) == Following(first, ScaleReplicas(p, v, manual, a))
  {
    DeployFollows(first, p, a);
    if |v.replicas| > 0 {
      UndeployFollows(first, p, Reversed(v.replicas)[0], a);
    }
    if FirstUnready(v.replicas, v).Some? {
      UndeployFollows(first, p, FirstUnready(v.replicas, v).value, a);
    }
  }

  /** The enforcement of the replicas with a free lock. */
  lemma FreeReplicas(p: Pass, v: View, a: Replies)
    requires !IsActive(p.lock) && v.PrimaryReady()
    ensures EnforceReplicas(p, v, a) == ScaleReplicas(Cleared(p, a), v, p.spec.promotePod.Some?, a)
  {
    ReplicaShape(p, v, a);
  }

  lemma ReplicasFollow(first: Call, p: Pass, v: View, a: Replies)
    requires p.calls == [] && !IsActive(p.lock) && v.PrimaryReady()
    ensures EnforceReplicas(Following(first, p), v, a) == Following(first, EnforceReplicas(p, v, a))
  {
    FreeReplicas(p, v, a);
    FreeReplicas(Following(first, p), v, a);
    assert Cleared(Following(first, p), a) == Following(first, Cleared(p, a));
    ScaleFollows(first, Cleared(p, a), v, p.spec.promotePod.Some?, a);
  }

  /** The rollout with a free lock looks at differences only: it updates the first StatefulSet
      that differs, or does nothing. */
  lemma {:induction false} FreeRollout(p: Pass, v: View, order: seq<nat>, a: Replies) returns (k: int)
    requires !IsActive(p.lock)
    ensures var r := Rollout(p, v, order, a);
            if k < 0 then r == p && (forall j :: 0 <= j < |order| ==> DifferencesAt(p.spec.fields, v, order[j]) == [])
            else
              && k < |order| && FirstDiffering(p.spec.fields, v, order, k, order[k])
              && r == UpdateOne(p, order[k], DifferencesAt(p.spec.fields, v, order[k]), a)
    decreases |order|
  {
    if order == [] {
      return -1;
    }
    RolloutTurn(p, v, order, a);
    if DifferencesAt(p.spec.fields, v, order[0]) != [] {
      return 0;
    }
    k := FreeRollout(p, v, order[1..], a);
    if k >= 0 {
      k := k + 1;
    }
  }

  lemma UpdateFollows(first: Call, p: Pass, i: nat, d: seq<Difference>, a: Replies)
    requires p.calls == []
    ensures UpdateOne(Following(first, p), i, d, a) == Following(first, UpdateOne(p, i, d, a))
  {
  }

  lemma {:induction false} RolloutFollows(first: Call, p: Pass, v: View, order: seq<nat>, a: Replies)
    requires p.calls == [] && !IsActive(p.lock)
    ensures Rollout(Following(first, p), v, order, a) == Following(first, Rollout(p, v, order, a))
    decreases |order|
  {
    if order != [] {
      RolloutTurn(p, v, order, a);
      RolloutTurn(Following(first, p), v, order, a);
      var i := order[0];
      UpdateFollows(first, p, i, DifferencesAt(p.spec.fields, v, i), a);
      RolloutFollows(first, p, v, order[1..], a);
    }
  }

  /** What is done after a failed promotion is what would be done without it. */
  lemma TailFollows(first: Call, p: Pass, v: View, a: Replies)
    requires Untouched(p, v) && !p.failed && !IsActive(p.lock) && v.PrimaryReady()
    ensures Tail(Following(first, p), v, a) == Following(first, Tail(p, v, a))
  {
    var s := EnforceReplicas(p, v, a);
    ReplicasFollow(first, p, v, a);
    ReplicaActs(p, v, a);
    ReplicaIdles(p, v, a);
    if !s.failed && a.servicesOk {
      if s.calls == [] {
        RolloutFollows(first, s, v, RolloutOrder(s.spec.standby, v), a);
      } else {
        NothingAfterReplica(s, v, a);
        NothingAfterReplica(Following(first, s), v, a);
      }
    }
  }

  /** With a free lock, what makes no call leaves the lock as it is. */
  lemma TailStaysFree(p: Pass, v: View, a: Replies)
    requires Untouched(p, v) && !p.failed && !IsActive(p.lock) && Tail(p, v, a).calls == []
    ensures Tail(p, v, a).lock == p.lock
  {
    var s := EnforceReplicas(p, v, a);
    var _ := TailActs(p, v, a);
    ReplicaIdles(p, v, a);
    var k := FreeRollout(s, v, RolloutOrder(s.spec.standby, v), a);
    if k >= 0 {
      var i := RolloutOrder(s.spec.standby, v)[k];
      UpdateOneFacts(s, v, i, DifferencesAt(s.spec.fields, v, i), a);
    }
  }

  // ---------- One reconcile, seen from the stored state ----------

  /** The state a reconcile may start from: what the lock record says can be said of it. */
  predicate Sound(w: World) {
    && |Primaries(w.cluster)| <= 1
    && Coherent(w.status.operation, w.status.previous)
    && Guarded(w.status.operation, w.cluster)
  }

  /** The counter after its initialisation for resources made by older versions. */
  function EnforcedNow(w: World): (n: int)
  {
    if !w.spec.standby && w.status.enforcedReplicas <= 0
       && w.spec.replicas >= 1 && w.spec.replicas == |w.cluster|
    then w.spec.replicas
    else w.status.enforcedReplicas
  }

  function LoneIndex(w: World, a: Replies): (i: nat)
  {
    if w.spec.replicas <= 1 && w.status.lastCreated != 0 && a.claimExists then w.status.lastCreated
    else w.status.lastCreated + 1
  }

  /** The pass starts from what is stored. */
  predicate Starts(p: Pass, w: World, v: View) {
    && Untouched(p, v) && !p.failed && v.sets == w.cluster
    && p.spec == w.spec && p.enforced == w.status.enforcedReplicas && p.lastCreated == w.status.lastCreated
    && (v.primary.None? && |v.replicas| == 0 ==> |v.sets| == 0)
  }

  /** Why a call is made, and what it does to the counters; `l` is the lock at the start. */
  ghost predicate Justified(w: World, v: View, l: Lock, a: Replies, f: Pass) {
    && |f.calls| == 1
    && var call := f.calls[0];
    match call.verb
    case CreatePrimary =>
      && !w.spec.standby && v.primary.None? && |v.replicas| == 0
      && (w.spec.replicas == 1 || w.status.enforcedReplicas <= 0)
      && call.index == LoneIndex(w, a) && call.ok == (a.createOk && call.index !in v.sets)
      && f.enforced == (if call.ok then EnforcedNow(w) + 1 else EnforcedNow(w))
      && f.lastCreated == (if call.ok && w.status.lastCreated == 0 then 1 else w.status.lastCreated)
    case DeletePrimary =>
      && !w.spec.standby && !WaitIsOver(l)
      && (v.primary.Some? ==> call.index == v.primary.value && call.ok == a.deleteOk)
      && (v.primary.None? ==> call.index == 0 && !call.ok)
      && f.lock.active.index in v.replicas && v.Ready(f.lock.active.index)
      && f.enforced == EnforcedNow(w) && f.lastCreated == w.status.lastCreated
    case PromoteReplica =>
      && !w.spec.standby && WaitIsOver(l)
      && call.index in v.replicas && v.Ready(call.index) && call.ok == (a.promoteOk && call.index in v.sets)
      && f.enforced == EnforcedNow(w) && f.lastCreated == w.status.lastCreated
    case CreateReplica =>
      && (w.spec.standby || v.PrimaryReady())
      && ExpectedReplicas(w.spec.replicas, w.spec.standby) > |v.replicas|
      && call.index == w.status.lastCreated + 1 && call.ok == (a.createOk && call.index !in v.sets)
      && f.enforced == (if call.ok then EnforcedNow(w) + 1 else EnforcedNow(w))
      && f.lastCreated == (if call.ok then call.index else w.status.lastCreated)
    case DeleteReplica =>
      && (w.spec.standby || v.PrimaryReady())
      && call.index in v.replicas && call.ok == a.deleteOk
      && ExpectedReplicas(w.spec.replicas, w.spec.standby) <= |v.replicas|
      && (if ExpectedReplicas(w.spec.replicas, w.spec.standby) < |v.replicas|
          then call.index == v.replicas[|v.replicas| - 1]
          else Some(call.index) == FirstUnready(v.replicas, v))
      && f.enforced == (if call.ok then EnforcedNow(w) - 1 else EnforcedNow(w))
      && f.lastCreated == w.status.lastCreated
    case UpdateFields =>
      && (w.spec.standby || v.PrimaryReady())
      && f.enforced == EnforcedNow(w) && f.lastCreated == w.status.lastCreated
      && call.ok == (a.updateOk && call.index in v.sets)
      && exists k :: FirstDiffering(w.spec.fields, v, RolloutOrder(w.spec.standby, v), k, call.index)
  }

  lemma FieldsAct(p: Pass, v: View, a: Replies)
    requires Untouched(p, v) && !p.failed
    requires EnforceFields(p, v, a).calls != []
    ensures var r := EnforceFields(p, v, a);
            && (p.spec.standby || v.PrimaryReady())
            && r.enforced == p.enforced && r.lastCreated == p.lastCreated
            && OneCall(p.spec.storage, p.spec.fields, r, v, a.now)
            && r.calls[0].verb == UpdateFields && r.calls[0].ok == (a.updateOk && r.calls[0].index in v.sets)
            && exists k :: FirstDiffering(p.spec.fields, v, RolloutOrder(p.spec.standby, v), k, r.calls[0].index)
  {
    var k := RolloutFacts(p, v, RolloutOrder(p.spec.standby, v), a);
  }

  lemma PrimaryCallJustified(w: World, l: Lock, p: Pass, r: Pass, v: View, a: Replies)
    requires PrimaryCall(p, r, v, a) && !w.spec.standby && v.sets == w.cluster
    requires p.enforced == EnforcedNow(w) && p.lastCreated == w.status.lastCreated && p.spec == w.spec
    requires WaitIsOver(p.lock) == WaitIsOver(l)
    requires v.primary.None? && |v.replicas| == 0 ==> |v.sets| == 0
    ensures Justified(w, v, l, a, r)
  {
  }

  /** The pass with which the failover and the deployment of a primary start. */
  lemma RefreshedFacts(w: World, p: Pass, v: View, a: Replies)
    requires Starts(p, w, v)
    ensures var b := EnforceBaseConfig(p, v, a);
            var q := Refreshed(b, v);
            && Untouched(b, v) && b.spec == w.spec
            && q.lastCreated == w.status.lastCreated && q.spec == w.spec
            && (!w.spec.standby ==> q.enforced == EnforcedNow(w))
            && WaitIsOver(q.lock) == WaitIsOver(p.lock)
  {
    BaseConfigFacts(p, v, a);
  }

  lemma PrimaryJustified(w: World, p: Pass, v: View, a: Replies)
    requires Starts(p, w, v)
    requires var c := ChainOf(p, v, a); !c.base.failed && c.primary.calls != []
    ensures Accounted(w, v, p.lock, a, ChainOf(p, v, a).primary)
  {
    var b := EnforceBaseConfig(p, v, a);
    RefreshedFacts(w, p, v, a);
    PrimaryActs(b, v, a);
    PrimaryCallJustified(w, p.lock, Refreshed(b, v), EnforcePrimary(b, v, a), v, a);
  }

  lemma IdleCounters(w: World, p: Pass, v: View, a: Replies)
    requires Starts(p, w, v)
    requires var c := ChainOf(p, v, a); !c.base.failed && c.primary.calls == []
    ensures var q := ChainOf(p, v, a).primary;
            q.enforced == EnforcedNow(w) && q.lastCreated == w.status.lastCreated && q.spec == w.spec
            && Untouched(q, v)
  {
    BaseConfigFacts(p, v, a);
    PrimaryIdles(EnforceBaseConfig(p, v, a), v, a);
  }

  lemma ReplicaCallJustified(w: World, l: Lock, p: Pass, r: Pass, v: View, a: Replies)
    requires ReplicaCall(p, r, v, a) && (w.spec.standby || v.PrimaryReady())
    requires p.enforced == EnforcedNow(w) && p.lastCreated == w.status.lastCreated
    requires p.spec.replicas == w.spec.replicas && p.spec.standby == w.spec.standby
    ensures Justified(w, v, l, a, r)
  {
  }

  lemma ReplicasJustified(w: World, l: Lock, q: Pass, v: View, a: Replies)
    requires Midway(w, q, v) && EnforceReplicas(q, v, a).calls != []
    ensures var r := EnforceReplicas(q, v, a);
            Accounted(w, v, l, a, r) && r.calls[0].verb in {CreateReplica, DeleteReplica}
  {
    ReplicaActs(q, v, a);
    ReplicaCallJustified(w, l, Cleared(q, a), EnforceReplicas(q, v, a), v, a);
  }

  lemma FieldsCallJustified(w: World, l: Lock, s: Pass, r: Pass, v: View, a: Replies)
    requires w.spec.standby || v.PrimaryReady()
    requires s.enforced == EnforcedNow(w) && s.lastCreated == w.status.lastCreated
    requires s.spec.fields == w.spec.fields && s.spec.standby == w.spec.standby
    requires |r.calls| == 1 && r.enforced == s.enforced && r.lastCreated == s.lastCreated
    requires r.calls[0].verb == UpdateFields && r.calls[0].ok == (a.updateOk && r.calls[0].index in v.sets)
    requires exists k :: FirstDiffering(s.spec.fields, v, RolloutOrder(s.spec.standby, v), k, r.calls[0].index)
    ensures Justified(w, v, l, a, r)
  {
  }

  lemma FieldsJustified(w: World, l: Lock, q: Pass, v: View, a: Replies)
    requires Midway(w, q, v)
    requires var s := EnforceReplicas(q, v, a); s.calls == [] && EnforceFields(s, v, a).calls != []
    ensures var r := EnforceFields(EnforceReplicas(q, v, a), v, a);
            Accounted(w, v, l, a, r) && r.calls[0].verb == UpdateFields
  {
    var s := EnforceReplicas(q, v, a);
    ReplicaIdles(q, v, a);
    FieldsAct(s, v, a);
    FieldsCallJustified(w, l, s, EnforceFields(s, v, a), v, a);
  }

  /** The account of a call. */
  ghost predicate Accounted(w: World, v: View, l: Lock, a: Replies, r: Pass) {
    Justified(w, v, l, a, r) && OneCall(w.spec.storage, w.spec.fields, r, v, a.now)
  }

  lemma ErrorsDoNotMatter(w: World, v: View, l: Lock, a: Replies, r: Pass, failed: bool)
    requires Accounted(w, v, l, a, r)
    ensures Accounted(w, v, l, a, r.(failed := failed))
  {
  }

  /** The pass without a failed promotion that a second call has followed. */
  function Effective(r: Pass): (g: Pass)
  {
    if |r.calls| == 2 then r.(calls := r.calls[1..]) else r
  }

  /** What can precede another call. */
  predicate Preceded(l: Lock, v: View, r: Pass) {
    && |r.calls| == 2 && WaitIsOver(l) && v.PrimaryReady()
    && r.calls[0].verb == PromoteReplica && !r.calls[0].ok
    && (r.calls[1].verb == CreateReplica || r.calls[1].verb == DeleteReplica || r.calls[1].verb == UpdateFields)
  }

  /** The pass with which the enforcement of the replicas starts. */
  predicate Midway(w: World, q: Pass, v: View) {
    && Untouched(q, v) && !q.failed
    && q.enforced == EnforcedNow(w) && q.lastCreated == w.status.lastCreated && q.spec == w.spec
  }

  lemma TailAccounted(w: World, l: Lock, q: Pass, v: View, a: Replies)
    requires Midway(w, q, v)
    ensures var r := Tail(q, v, a);
            && (r.calls == [] ==> r.cluster == v.sets)
            && (r.calls != [] ==>
                  && Accounted(w, v, l, a, r)
                  && r.calls[0].verb in {CreateReplica, DeleteReplica, UpdateFields})
  {
    var o := TailActs(q, v, a);
    var r, s := Tail(q, v, a), EnforceReplicas(q, v, a);
    match o {
      case Idle =>
      case ByReplicas =>
        ReplicasJustified(w, l, q, v, a);
        ErrorsDoNotMatter(w, v, l, a, s, r.failed);
      case ByFields =>
        FieldsJustified(w, l, q, v, a);
    }
  }

  lemma FailedPromotionGoesOn(w: World, l: Lock, q: Pass, v: View, a: Replies)
    requires FailedPromotion(q, v) && Accounted(w, v, l, a, q) && q.spec == w.spec
    ensures var r := Tail(q, v, a);
            && 1 <= |r.calls| <= 2 && Accounted(w, v, l, a, Effective(r))
            && (|r.calls| == 2 ==> Preceded(l, v, r))
  {
    var first, q0 := q.calls[0], q.(calls := []);
    assert Following(first, q0) == q;
    TailFollows(first, q0, v, a);
    TailAccounted(w, l, q0, v, a);
    var t := Tail(q0, v, a);
    if t.calls == [] {
      TailStaysFree(q0, v, a);
      TailRests(q0, v, a);
      assert Tail(q, v, a).calls == [first];
    } else {
      assert Effective(Tail(q, v, a)) == t;
    }
  }

  lemma TailRests(q: Pass, v: View, a: Replies)
    requires Untouched(q, v) && !q.failed && Tail(q, v, a).calls == []
    ensures Tail(q, v, a).enforced == q.enforced && Tail(q, v, a).lastCreated == q.lastCreated
  {
    var s := EnforceReplicas(q, v, a);
    var _ := TailActs(q, v, a);
    ReplicaIdles(q, v, a);
    if (s.spec.standby || v.PrimaryReady()) && !OtherActive(s.lock, StatefulSetSpec) {
      RolloutRests(s, v, RolloutOrder(s.spec.standby, v), a);
    }
  }

  /** The calls of the whole chain. There is at most one, or two when the first is a failed
      promotion beside a ready primary. The cluster is what the last one makes of it, that call
      has its reason in the state that was read, and the lock to be written holds its step;
      without a call the cluster is as it was. */
  lemma EnforcementActs(w: World, p: Pass, v: View, a: Replies)
    requires Starts(p, w, v)
    ensures var r := EnforceAll(p, v, a);
            && |r.calls| <= 2
            && (|r.calls| == 2 ==> Preceded(p.lock, v, r))
            && (r.calls == [] ==> r.cluster == v.sets)
            && (r.calls != [] ==> Accounted(w, v, p.lock, a, Effective(r)))
  {
    var c := ChainOf(p, v, a);
    AllShape(p, v, a);
    BaseConfigFacts(p, v, a);
    if !c.base.failed {
      if c.primary.calls == [] {
        IdleCounters(w, p, v, a);
        if !c.primary.failed {
          TailAccounted(w, p.lock, c.primary, v, a);
        }
      } else {
        PrimaryJustified(w, p, v, a);
        PrimaryEnds(c.base, v, a);
        if !c.primary.failed && FailedPromotion(c.primary, v) {
          FailedPromotionGoesOn(w, p.lock, c.primary, v, a);
        } else {
          ErrorsDoNotMatter(w, v, p.lock, a, c.primary, EnforceAll(p, v, a).failed);
        }
      }
    }
  }

  /** A pass without calls keeps the index counter, may initialise the other one, and does
      not start or advance an operation of the primary. */
  predicate IdlePass(w: World, l: Lock, r: Pass) {
    && r.calls == []
    && r.lastCreated == w.status.lastCreated
    && (r.enforced == w.status.enforcedReplicas || r.enforced == EnforcedNow(w))
    && (r.lock.active.id == PrimaryDbCount ==> r.lock == l)
  }

  lemma FieldsIdle(w: World, l: Lock, s: Pass, v: View, a: Replies)
    requires Untouched(s, v) && !s.failed && IdlePass(w, l, s)
    requires EnforceFields(s, v, a).calls == []
    ensures IdlePass(w, l, EnforceFields(s, v, a))
  {
    if (s.spec.standby || v.PrimaryReady()) && !OtherActive(s.lock, StatefulSetSpec) {
      var _ := RolloutFacts(s, v, RolloutOrder(s.spec.standby, v), a);
    }
  }

  lemma ReplicasIdle(w: World, l: Lock, q: Pass, v: View, a: Replies)
    requires Untouched(q, v) && !q.failed && IdlePass(w, l, q)
    requires EnforceReplicas(q, v, a).calls == []
    ensures IdlePass(w, l, EnforceReplicas(q, v, a))
  {
    ReplicaIdles(q, v, a);
  }

  lemma TailIdles(w: World, l: Lock, q: Pass, v: View, a: Replies)
    requires Untouched(q, v) && !q.failed && IdlePass(w, l, q)
    requires Tail(q, v, a).calls == []
    ensures IdlePass(w, l, Tail(q, v, a))
  {
    var _ := TailActs(q, v, a);
    ReplicasIdle(w, l, q, v, a);
    if a.servicesOk {
      FieldsIdle(w, l, EnforceReplicas(q, v, a), v, a);
    }
  }

  lemma PrimaryQuiet(w: World, p: Pass, v: View, a: Replies)
    requires Starts(p, w, v)
    requires var c := ChainOf(p, v, a); !c.base.failed && Untouched(c.primary, v)
    ensures IdlePass(w, p.lock, ChainOf(p, v, a).primary)
  {
    BaseConfigFacts(p, v, a);
    PrimaryIdles(EnforceBaseConfig(p, v, a), v, a);
    IdleCounters(w, p, v, a);
  }

  lemma EnforcementIdles(w: World, p: Pass, v: View, a: Replies)
    requires Starts(p, w, v) && EnforceAll(p, v, a).calls == []
    ensures IdlePass(w, p.lock, EnforceAll(p, v, a))
  {
    var c := ChainOf(p, v, a);
    AllShape(p, v, a);
    BaseConfigFacts(p, v, a);
    if !c.base.failed {
      if c.primary.calls != [] {
        PrimaryJustified(w, p, v, a);
        PrimaryEnds(c.base, v, a);
        if FailedPromotion(c.primary, v) {
          FailedPromotionGoesOn(w, p.lock, c.primary, v, a);
        }
        assert false;
      }
      IdleCounters(w, p, v, a);
      PrimaryQuiet(w, p, v, a);
      if !c.primary.failed {
        TailIdles(w, p.lock, c.primary, v, a);
      }
    }
  }
}
