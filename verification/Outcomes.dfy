/** What one reconcile makes of everything but the StatefulSets: the stored specification, the
    pods and the base configuration; and the record it leaves of what it has started. */
module Outcomes {
  import opened Resources
  import opened BlockingOperations
  import opened Snapshots
  import opened Enforcement
  import opened Reconciling
  import opened Effects
  import opened Steps
  import opened Decisions
  import opened RollingUpdate
  import opened PodVerification
  import opened UpdateDecisions

  // ---------- The stored specification ----------

  /** The enforcement of the replicas takes a request for a manual failover out of the stored
      specification exactly when it gets as far as scaling. */
  lemma ReplicasStore(q: Pass, v: View, a: Replies)
    requires q.lock.active.id == ReplicaDbCount ==> q.lock.active.hasTimedOut
    ensures EnforceReplicas(q, v, a).stored
            == if Scales(q, v) && q.spec.promotePod.Some? && a.specOk then q.spec.(promotePod := None) else q.stored
  {
    ReplicaShape(q, v, a);
  }

  lemma FieldsKeep(s: Pass, v: View, a: Replies)
    ensures EnforceFields(s, v, a).stored == s.stored && EnforceFields(s, v, a).baseConfig == s.baseConfig
  {
  }

  lemma TailKeeps(q: Pass, v: View, a: Replies)
    ensures Tail(q, v, a).stored == EnforceReplicas(q, v, a).stored && Tail(q, v, a).baseConfig == q.baseConfig
  {
    FieldsKeep(EnforceReplicas(q, v, a), v, a);
  }

  lemma StoredByTail(w: World, p: Pass, a: Replies)
    requires Starts(p, w, ViewOf(w)) && Settled(p.lock) && p.stored == w.spec
    requires !EnforceBaseConfig(p, ViewOf(w), a).failed
    ensures var q, v := ChainOf(p, ViewOf(w), a).primary, ViewOf(w);
            Tail(q, v, a).stored == if Scales(q, v) && a.specOk then w.spec.(promotePod := None) else w.spec
  {
    var v := ViewOf(w);
    var q := ChainOf(p, v, a).primary;
    LockAfterBoth(w, p, a);
    ReplicasStore(q, v, a);
    TailKeeps(q, v, a);
  }

  lemma SpecByChain(w: World, p: Pass, a: Replies)
    requires Starts(p, w, ViewOf(w)) && Settled(p.lock) && p.stored == w.spec
    ensures EnforceAll(p, ViewOf(w), a).stored
            == if ReplicaTurn(w, p.lock, a) && a.specOk then w.spec.(promotePod := None) else w.spec
  {
    var c := ChainOf(p, ViewOf(w), a);
    AllShape(p, ViewOf(w), a);
    TurnOfReplicas(w, p, a);
    if !c.base.failed && !c.primary.failed {
      StoredByTail(w, p, a);
    }
  }

  /** The specification asks for other storage than the primary `i` has, whose pod is ready. */
  predicate StorageEdited(w: World, i: nat) {
    && i in w.cluster && w.cluster[i].role.Primary? && i in w.pods && w.pods[i].Ready()
    && w.cluster[i].storage != w.spec.storage
  }

  /** A reconcile that is not left alone stores the storage of the primary back. */
  predicate RollsBack(w: World, i: nat, a: Replies) {
    && |Primaries(w.cluster)| <= 1 && RequeueAfter(Begin(w, a).lock, a.now) == 0 && a.specOk
    && StorageEdited(w, i)
  }

  /** The replicas have their turn and the request of a manual failover can be cleared. */
  predicate ClearsRequest(w: World, a: Replies) {
    Enforces(w, a) && ReplicaTurn(w, Begin(w, a).lock, a) && a.specOk
  }

  lemma StorageEditedMeans(w: World, i: nat)
    requires |Primaries(w.cluster)| <= 1
    ensures StorageEdited(w, i) <==> StorageChanged(w.spec, ViewOf(w)) && ViewOf(w).primary == Some(i)
  {
    ViewFacts(w);
  }

  /** Exactly when a reconcile gets as far as the enforcers: there are not two primaries, nothing
      is running, and the specification is valid and asks for the storage of the primary. */
  lemma EnforcesExactly(w: World, a: Replies)
    ensures Enforces(w, a) <==>
              && |Primaries(w.cluster)| <= 1 && RequeueAfter(Begin(w, a).lock, a.now) <= 0
              && w.spec.otherwiseValid && w.spec.replicas > 0 && forall i :: !StorageEdited(w, i)
  {
    if |Primaries(w.cluster)| <= 1 {
      if StorageChanged(w.spec, ViewOf(w)) {
        StorageEditedMeans(w, ViewOf(w).primary.value);
      }
      forall i: nat ensures StorageEdited(w, i) ==> StorageChanged(w.spec, ViewOf(w)) {
        StorageEditedMeans(w, i);
      }
    }
  }

  lemma RollsBackExactly(w: World, i: nat, a: Replies)
    requires |Primaries(w.cluster)| <= 1
    ensures RollsBack(w, i, a) <==>
              && RequeueAfter(Begin(w, a).lock, a.now) == 0 && a.specOk
              && StorageChanged(w.spec, ViewOf(w)) && ViewOf(w).primary == Some(i)
  {
    StorageEditedMeans(w, i);
  }

  /** Without the enforcers only the storage can change. */
  lemma SpecBySettings(w: World, a: Replies)
    requires |Primaries(w.cluster)| <= 1 && RequeueAfter(Begin(w, a).lock, a.now) >= 0 && !Enforces(w, a)
    ensures var s, v := Finish(w, a).stored, ViewOf(w);
            if RequeueAfter(Begin(w, a).lock, a.now) == 0 && a.specOk && StorageChanged(w.spec, v)
            then s == w.spec.(storage := v.sets[v.primary.value].storage)
            else s == w.spec
  {
  }

  lemma SpecWithoutEnforcing(w: World, a: Replies)
    requires |Primaries(w.cluster)| <= 1 && RequeueAfter(Begin(w, a).lock, a.now) >= 0 && !Enforces(w, a)
    ensures var s := Finish(w, a).stored;
            && (forall i :: RollsBack(w, i, a) ==> s == w.spec.(storage := w.cluster[i].storage))
            && ((forall i :: !RollsBack(w, i, a)) ==> s == w.spec)
  {
    SpecBySettings(w, a);
    var v := ViewOf(w);
    forall i | RollsBack(w, i, a) ensures Finish(w, a).stored == w.spec.(storage := w.cluster[i].storage) {
      RollsBackExactly(w, i, a);
    }
    if StorageChanged(w.spec, v) {
      RollsBackExactly(w, v.primary.value, a);
    }
  }

  lemma NoRollBack(w: World, i: nat, a: Replies)
    requires Enforces(w, a)
    ensures !RollsBack(w, i, a)
  {
    RollsBackExactly(w, i, a);
  }

  /** Exactly how a reconcile changes the stored specification: the storage is put back, or a
      request for a manual failover is taken out, or nothing changes. */
  lemma SpecExactly(w: World, a: Replies)
    requires Readable(w) && a.now >= 0
    ensures var s := Reconcile(w, a).spec;
            && (forall i :: RollsBack(w, i, a) ==> s == w.spec.(storage := w.cluster[i].storage))
            && (ClearsRequest(w, a) ==> s == w.spec.(promotePod := None))
            && ((forall i :: !RollsBack(w, i, a)) && !ClearsRequest(w, a) ==> s == w.spec)
  {
    if Enforces(w, a) {
      BeginStarts(w, a);
      EnforcesSettled(w, a);
      SpecByChain(w, Begin(w, a), a);
      forall i ensures !RollsBack(w, i, a) {
        NoRollBack(w, i, a);
      }
    } else if |Primaries(w.cluster)| <= 1 {
      ReexaminedInTime(w.status.operation, w.status.previous, a.now,
                       Completed(w.status.operation, w.spec, ViewOf(w), a.now));
      SpecWithoutEnforcing(w, a);
    }
  }

  // ---------- The pods ----------

  /** The loop deletes no pod unless an update is parked. */
  lemma {:induction false} RolloutKeepsPods(p: Pass, v: View, order: seq<nat>, a: Replies)
    requires !InTransition(p.lock, StatefulSetSpec)
    ensures Rollout(p, v, order, a).pods == p.pods
    decreases |order|
  {
    if order != [] {
      RolloutTurn(p, v, order, a);
      RolloutKeepsPods(Reopened(p, order[0]), v, order[1..], a);
    }
  }

  /** Parked on an instance that it does not come to, the loop deletes no pod. */
  lemma {:induction false} RolloutNotReaching(p: Pass, v: View, order: seq<nat>, x: nat, a: Replies)
    requires LockOn(p.lock, x) && ParkedOn(p.lock, x)
    requires forall k :: !CleanUpTo(p.spec.fields, v, order, k, x)
    ensures Rollout(p, v, order, a).pods == p.pods
    decreases |order|
  {
    if order != [] {
      RolloutTurn(p, v, order, a);
      if DifferencesAt(p.spec.fields, v, order[0]) == [] {
        assert !CleanUpTo(p.spec.fields, v, order, 0, x);
        forall k ensures !CleanUpTo(p.spec.fields, v, order[1..], k, x) {
          NotLater(p.spec.fields, v, order, k, x);
        }
        RolloutNotReaching(p, v, order[1..], x, a);
      }
    }
  }

  lemma NotLater(want: Fields, v: View, order: seq<nat>, k: int, x: nat)
    requires order != [] && order[0] != x && DifferencesAt(want, v, order[0]) == []
    requires forall n :: !CleanUpTo(want, v, order, n, x)
    ensures !CleanUpTo(want, v, order[1..], k, x)
  {
    if CleanUpTo(want, v, order[1..], k, x) {
      forall j | 0 <= j < k + 1 ensures order[j] != x && DifferencesAt(want, v, order[j]) == [] {
        assert j > 0 ==> order[j] == order[1..][j - 1];
      }
      assert CleanUpTo(want, v, order, k + 1, x);
    }
  }

  predicate StuckPod(w: World, x: nat) {
    x in w.pods && w.pods[x].stuck
  }

  /** The pod is ready and has the wanted image and port. */
  predicate PodAsWanted(w: World, x: nat) {
    && x in w.pods && w.pods[x].containerReady && !w.pods[x].stuck
    && w.pods[x].image == w.spec.fields.image && w.pods[x].port == w.spec.fields.port
  }

  /** The pods once the rolling update has looked at the pod of `x`. */
  function PodsLeft(w: World, x: nat, a: Replies): (r: Pods)
  {
    if StuckPod(w, x) && a.podDeleteOk then w.pods - {x} else w.pods
  }

  /** What is recorded once the rolling update has looked at the pod of `x`: another wait of five
      minutes, or nothing, or the next update. */
  predicate RecordLeft(w: World, x: nat, a: Replies, op: Operation) {
    if StuckPod(w, x) then
      op == if a.podDeleteOk then Operation(StatefulSetSpec, WaitingOnStuckPod, x, [], a.now + 300, false) else NONE
    else if PodAsWanted(w, x) then op == NONE || (op.id == StatefulSetSpec && op.step == SpecUpdating)
    else
      op == Operation(StatefulSetSpec, PodSpecUpdating, if x in w.pods then x else 0, [], a.now + 300, false)
  }

  lemma NextUpdateRecorded(p: Pass, v: View, order: seq<nat>, a: Replies)
    requires !IsActive(p.lock) && p.lock.saved == NONE
    ensures var op := Rollout(p, v, order, a).lock.saved;
            op == NONE || (op.id == StatefulSetSpec && op.step == SpecUpdating)
  {
    var k := FreeRollout(p, v, order, a);
    if k >= 0 {
      StartFacts(p, StatefulSetSpec, SpecUpdating, order[k], DifferencesAt(p.spec.fields, v, order[k]), a.now);
    }
  }

  lemma LooksAtPod(w: World, p: Pass, x: nat, a: Replies)
    requires ParkedOn(p.lock, x) && p.pods == w.pods && p.spec.fields == w.spec.fields && !p.failed
    ensures var r := VerifyPod(p, ViewOf(w), x, a);
            && r.pods == PodsLeft(w, x, a) && RecordLeft(w, x, a, r.lock.saved)
            && (PodAsWanted(w, x) ==> !IsActive(r.lock) && r.lock.saved == NONE)
            && (PodAsWanted(w, x) <==> PodVerified(p.spec.fields, ViewOf(w), x))
  {
    if StuckPod(w, x) {
      StartFacts(p, StatefulSetSpec, WaitingOnStuckPod, x, [], a.now);
    } else {
      StartFacts(p, StatefulSetSpec, PodSpecUpdating, PodIndex(ViewOf(w), x), [], a.now);
    }
  }

  /** What the loop does on the instance it is parked on. */
  lemma ParkedTurn(w: World, p: Pass, order: seq<nat>, x: nat, a: Replies)
    requires LockOn(p.lock, x) && ParkedOn(p.lock, x) && !p.failed && p.pods == w.pods
    requires p.spec.fields == w.spec.fields
    requires order != [] && order[0] == x && DifferencesAt(p.spec.fields, ViewOf(w), x) == []
    ensures var r := Rollout(p, ViewOf(w), order, a);
            r.pods == PodsLeft(w, x, a) && RecordLeft(w, x, a, r.lock.saved)
  {
    var v := ViewOf(w);
    var r := VerifyPod(p, v, x, a);
    RolloutTurn(p, v, order, a);
    LooksAtPod(w, p, x, a);
    if PodAsWanted(w, x) {
      NextUpdateRecorded(r, v, order[1..], a);
      RolloutKeepsPods(r, v, order[1..], a);
    }
  }

  /** The rolling update comes to `x` with nothing to do on the way. */
  predicate ComesTo(w: World, x: nat) {
    RolledOut(w, x) && forall j :: j in w.cluster && NotAfter(w, j, x) ==> w.cluster[j].fields == w.spec.fields
  }

  /** `x` is at place `k` of the order of the rolling update, with nothing to do on the way. */
  predicate CleanTo(w: World, k: int, x: nat) {
    CleanUpTo(w.spec.fields, ViewOf(w), RolloutOrder(w.spec.standby, ViewOf(w)), k, x)
  }

  lemma CleanToComes(w: World, k: int, x: nat)
    requires |Primaries(w.cluster)| <= 1 && CleanTo(w, k, x)
    ensures ComesTo(w, x)
  {
    PlacedNotAfter(w, k, k);
    forall j | j in w.cluster && NotAfter(w, j, x) ensures w.cluster[j].fields == w.spec.fields {
      var m := PlacedBefore(w, k, j);
      DifferencesFade(w, j);
    }
  }

  lemma ComesCleanly(w: World, x: nat) returns (k: nat)
    requires |Primaries(w.cluster)| <= 1 && ComesTo(w, x)
    ensures CleanTo(w, k, x)
  {
    k := PlaceOf(w, x);
    var order := RolloutOrder(w.spec.standby, ViewOf(w));
    DifferencesFade(w, x);
    forall j | 0 <= j < k ensures order[j] != x && DifferencesAt(w.spec.fields, ViewOf(w), order[j]) == [] {
      PlacedNotAfter(w, j, k);
      DifferencesFade(w, order[j]);
    }
  }

  /** The loop after the other enforcers. */
  lemma PodByRollout(w: World, s: Pass, x: nat, a: Replies)
    requires |Primaries(w.cluster)| <= 1 && LockOn(s.lock, x) && ParkedOn(s.lock, x) && !s.failed
    requires s.spec.fields == w.spec.fields && s.pods == w.pods
    ensures var r := Rollout(s, ViewOf(w), RolloutOrder(w.spec.standby, ViewOf(w)), a);
            if ComesTo(w, x) then r.pods == PodsLeft(w, x, a) && RecordLeft(w, x, a, r.lock.saved)
            else r.pods == w.pods
  {
    var v := ViewOf(w);
    var order := RolloutOrder(w.spec.standby, v);
    if ComesTo(w, x) {
      var k := ComesCleanly(w, x);
      RolloutReaches(s, v, order, k, x, a);
      ParkedTurn(w, s, order[k..], x, a);
    } else {
      forall k ensures !CleanUpTo(w.spec.fields, v, order, k, x) {
        if CleanUpTo(w.spec.fields, v, order, k, x) {
          CleanToComes(w, k, x);
          assert false;
        }
      }
      RolloutNotReaching(s, v, order, x, a);
    }
  }

  lemma LockAfterScaling(p: Pass, v: View, manual: bool, a: Replies)
    ensures var l := ScaleReplicas(p, v, manual, a).lock; l == p.lock || l.active.id in {NoOperation, ReplicaDbCount}
  {
    var missing := ExpectedReplicas(p.spec.replicas, p.spec.standby) - |v.replicas|;
    if missing > 0 {
      LockAfterDeployment(p, a);
    } else if missing < 0 && |v.replicas| > 0 {
      LockAfterRemoval(p, Reversed(v.replicas)[0], a);
    } else if FirstUnready(v.replicas, v).Some? {
      LockAfterRemoval(p, FirstUnready(v.replicas, v).value, a);
    }
  }

  lemma LockAfterDeployment(p: Pass, a: Replies)
    ensures var l := DeployReplica(p, a).lock; l == p.lock || l.active.id in {NoOperation, ReplicaDbCount}
  {
  }

  lemma LockAfterRemoval(p: Pass, i: nat, a: Replies)
    ensures var l := UndeployReplica(p, i, a).lock; l == p.lock || l.active.id in {NoOperation, ReplicaDbCount}
  {
  }

  lemma LockAfterReplicas(q: Pass, v: View, a: Replies)
    ensures var l := EnforceReplicas(q, v, a).lock; l == q.lock || l.active.id in {NoOperation, ReplicaDbCount}
  {
    ReplicaShape(q, v, a);
    LockAfterScaling(Cleared(q, a), v, q.spec.promotePod.Some?, a);
  }

  /** Unless the lock was loaded parked, no pod is deleted. */
  lemma PodsByTail(q: Pass, v: View, a: Replies)
    requires !InTransition(q.lock, StatefulSetSpec)
    ensures Tail(q, v, a).pods == q.pods
  {
    var s := EnforceReplicas(q, v, a);
    LockAfterReplicas(q, v, a);
    RolloutKeepsPods(s, v, RolloutOrder(s.spec.standby, v), a);
  }

  lemma PodsKept(w: World, p: Pass, a: Replies)
    requires Starts(p, w, ViewOf(w)) && Settled(p.lock) && !InTransition(p.lock, StatefulSetSpec)
    ensures EnforceAll(p, ViewOf(w), a).pods == p.pods
  {
    var v := ViewOf(w);
    var c := ChainOf(p, v, a);
    AllShape(p, v, a);
    if !c.base.failed && !c.primary.failed {
      LockAfterBoth(w, p, a);
      PodsByTail(c.primary, v, a);
    }
  }

  /** The rolling update waits for the pod of `x` and comes to it. */
  predicate ChecksPod(w: World, x: nat, a: Replies) {
    && Enforces(w, a) && a.servicesOk && (w.spec.standby || ViewOf(w).PrimaryReady())
    && ParkedOn(Begin(w, a).lock, x) && ComesTo(w, x)
  }

  lemma ParkedLock(l: Lock, x: nat)
    requires CoherentLock(l) && ParkedOn(l, x)
    ensures LockOn(l, x)
  {
  }

  lemma ParkedChain(w: World, p: Pass, x: nat, a: Replies)
    requires Starts(p, w, ViewOf(w)) && CoherentLock(p.lock) && ParkedOn(p.lock, x) && p.pods == w.pods
    requires |Primaries(w.cluster)| <= 1
    ensures var r := EnforceAll(p, ViewOf(w), a);
            if a.servicesOk && (w.spec.standby || ViewOf(w).PrimaryReady()) && ComesTo(w, x)
            then r.pods == PodsLeft(w, x, a) && RecordLeft(w, x, a, r.lock.saved)
            else r.pods == w.pods
  {
    ParkedLock(p.lock, x);
    OthersWait(p, ViewOf(w), a);
    PodByRollout(w, WithoutPrimary(p, ViewOf(w)), x, a);
  }

  lemma PodChecked(w: World, x: nat, a: Replies)
    requires Readable(w) && a.now >= 0 && ChecksPod(w, x, a)
    ensures Reconcile(w, a).pods == PodsLeft(w, x, a)
    ensures a.statusOk ==> RecordLeft(w, x, a, Reconcile(w, a).status.operation)
  {
    BeginStarts(w, a);
    FinishEnforces(w, a);
    ParkedChain(w, Begin(w, a), x, a);
  }

  lemma NoPodByChain(w: World, p: Pass, x: nat, a: Replies)
    requires Starts(p, w, ViewOf(w)) && Settled(p.lock) && p.pods == w.pods && |Primaries(w.cluster)| <= 1
    requires ParkedOn(p.lock, x) && a.servicesOk && (w.spec.standby || ViewOf(w).PrimaryReady()) ==> !ComesTo(w, x)
    requires x == p.lock.previous.index
    ensures EnforceAll(p, ViewOf(w), a).pods == w.pods
  {
    if InTransition(p.lock, StatefulSetSpec) {
      ParkedChain(w, p, x, a);
    } else {
      PodsKept(w, p, a);
    }
  }

  lemma NotChecked(w: World, x: nat, a: Replies)
    requires Enforces(w, a) && !ChecksPod(w, x, a)
    ensures ParkedOn(Begin(w, a).lock, x) && a.servicesOk && (w.spec.standby || ViewOf(w).PrimaryReady()) ==>
              !ComesTo(w, x)
  {
  }

  lemma NoPodChecked(w: World, a: Replies)
    requires Readable(w) && a.now >= 0 && forall x :: !ChecksPod(w, x, a)
    ensures Reconcile(w, a).pods == w.pods
  {
    if Enforces(w, a) {
      BeginStarts(w, a);
      EnforcesSettled(w, a);
      FinishEnforces(w, a);
      NotChecked(w, Begin(w, a).lock.previous.index, a);
      NoPodByChain(w, Begin(w, a), Begin(w, a).lock.previous.index, a);
    }
  }

  /** Exactly which pods a reconcile deletes: the one that the rolling update waits for, comes to
      and finds stuck, provided that the API deletes it. What is recorded then depends on the pod
      only, unless the next update starts. */
  lemma PodsExactly(w: World, a: Replies)
    requires Readable(w) && a.now >= 0
    ensures var w' := Reconcile(w, a);
            && (forall x :: ChecksPod(w, x, a) ==>
                  w'.pods == PodsLeft(w, x, a) && (a.statusOk ==> RecordLeft(w, x, a, w'.status.operation)))
            && ((forall x :: !ChecksPod(w, x, a)) ==> w'.pods == w.pods)
  {
    forall x | ChecksPod(w, x, a)
      ensures Reconcile(w, a).pods == PodsLeft(w, x, a)
      ensures a.statusOk ==> RecordLeft(w, x, a, Reconcile(w, a).status.operation)
    {
      PodChecked(w, x, a);
    }
    if forall x :: !ChecksPod(w, x, a) {
      NoPodChecked(w, a);
    }
  }

  // ---------- The base configuration ----------

  lemma BaseCreated(w: World, p: Pass, a: Replies)
    requires Starts(p, w, ViewOf(w)) && Settled(p.lock) && p.baseConfig == w.baseConfig
    ensures var b := EnforceBaseConfig(p, ViewOf(w), a);
            && b.baseConfig == (w.baseConfig || (!IsActive(p.lock) && a.configOk))
            && (b.baseConfig != w.baseConfig ==>
                  && !b.failed && b.calls == []
                  && b.lock.active == b.lock.saved
                  && b.lock.saved == Operation(BaseConfigCount, BaseConfigDeploying, 0, [], a.now + 10, false))
  {
  }

  /** While the base configuration is being deployed, the other enforcers wait. */
  lemma BaseBlocks(b: Pass, v: View, a: Replies)
    requires b.lock.active.id == BaseConfigCount && !b.failed && b.calls == []
    ensures var q := EnforcePrimary(b, v, a);
            !q.failed && q.lock == b.lock && Tail(q, v, a).lock == b.lock && Tail(q, v, a).calls == []
  {
    PrimaryShape(b, v, a);
  }

  lemma BaseByChain(w: World, p: Pass, a: Replies)
    requires Starts(p, w, ViewOf(w)) && Settled(p.lock) && p.baseConfig == w.baseConfig
    ensures var r := EnforceAll(p, ViewOf(w), a);
            && r.baseConfig == (w.baseConfig || (!IsActive(p.lock) && a.configOk))
            && (r.baseConfig != w.baseConfig ==>
                  && r.calls == []
                  && r.lock.saved == Operation(BaseConfigCount, BaseConfigDeploying, 0, [], a.now + 10, false))
  {
    var v := ViewOf(w);
    var c := ChainOf(p, v, a);
    AllShape(p, v, a);
    BaseCreated(w, p, a);
    if !c.base.failed {
      TailKeeps(c.primary, v, a);
      if c.base.baseConfig != w.baseConfig {
        BaseBlocks(c.base, v, a);
      }
    }
  }

  /** Exactly when a reconcile leaves a base configuration: there was one, or the lock is free and
      the API creates it. The enforcers that follow then wait. */
  lemma BaseConfigExactly(w: World, a: Replies)
    requires Readable(w) && a.now >= 0
    ensures var w' := Reconcile(w, a);
            && (w'.baseConfig <==> w.baseConfig || (Enforces(w, a) && !IsActive(Begin(w, a).lock) && a.configOk))
            && (w'.baseConfig != w.baseConfig ==>
                  && CallsOf(w, a) == []
                  && (a.statusOk ==>
                        w'.status.operation
                        == Operation(BaseConfigCount, BaseConfigDeploying, 0, [], a.now + 10, false)))
  {
    if Enforces(w, a) {
      BeginStarts(w, a);
      EnforcesSettled(w, a);
      FinishEnforces(w, a);
      BaseByChain(w, Begin(w, a), a);
    }
  }
}
