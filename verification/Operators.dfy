/** The operator as it runs: objects whose methods change the lock, the counters and the
    cluster step by step, proved to compute the functions of `Enforcement` and `Reconciling`. */
module Operators {
  import opened Resources
  import opened BlockingOperations
  import opened Snapshots
  import opened Enforcement
  import opened Reconciling
  import opened Effects
  import opened StateLoading
  import opened LoadingOrder
  import opened Locks

  class Operator {
    const status: StatusWrapper
    const lock: BlockingOperation
    var view: View
    var spec: Spec
    var stored: Spec
    var cluster: Cluster
    var pods: Pods
    var baseConfig: bool
    var calls: seq<Call>

    constructor (w: World, v: View, s: StatusWrapper, l: BlockingOperation)
      ensures status == s && lock == l && view == v
      ensures spec == w.spec && stored == w.spec && cluster == w.cluster
      ensures pods == w.pods && baseConfig == w.baseConfig && calls == []
    {
      status, lock, view := s, l, v;
      spec, stored, cluster, pods, baseConfig, calls := w.spec, w.spec, w.cluster, w.pods, w.baseConfig, [];
    }

    ghost predicate Valid()
      reads this, lock, lock.status
    {
      lock.status == status && lock.Valid()
    }

    /** The pass that the objects stand for. */
    ghost function Current(failed: bool): (p: Pass)
      reads this, lock, status, lock.status
    {
      Pass(lock.Contents(), status.current.enforcedReplicas, status.current.lastCreated,
           spec, stored, cluster, pods, baseConfig, calls, failed)
    }

    /** What no enforcer changes. */
    twostate predicate Framed()
      reads this, status
    {
      view == old(view) && status.stored == old(status.stored)
    }

    method Activate(id: OperationId, step: StepId, i: nat, d: seq<Difference>, now: int) returns (failed: bool)
      requires Valid()
      modifies lock, status
      ensures Valid() && Framed()
      ensures Current(failed) == Start(old(Current(false)), id, step, i, d, now)
    {
      failed := lock.ActivateOperation(NewOperation(id, step, i, d), now);
    }

    method FreeLock()
      requires Valid()
      modifies lock, status
      ensures Valid() && Framed()
      ensures forall failed :: Current(failed) == Release(old(Current(failed)))
    {
      lock.RemoveActiveOperation();
    }

    method BaseConfig(a: Replies) returns (failed: bool)
      requires Valid()
      modifies this, lock, status
      ensures Valid() && Framed()
      ensures Current(failed) == EnforceBaseConfig(old(Current(false)), view, a)
    {
      if lock.IsOtherActive(BaseConfigCount) {
        return false;
      }
      if lock.HasTimedOutOn(BaseConfigCount) {
        if !view.baseConfig {
          return false;
        }
        FreeLock();
      }
      if view.baseConfig {
        return false;
      }
      failed := Activate(BaseConfigCount, BaseConfigDeploying, 0, [], a.now);
      if failed {
        return;
      }
      if a.configOk {
        baseConfig := true;
      } else {
        FreeLock();
        failed := true;
      }
    }

    // ---------- Failover ----------

    method FindReady() returns (r: Option<nat>)
      ensures r == FirstReady(view.replicas, view)
      ensures r.Some? ==> exists k :: 0 <= k < |view.replicas| && r.value == view.replicas[k] && view.Ready(r.value)
                                      && forall j :: 0 <= j < k ==> !view.Ready(view.replicas[j])
      ensures r.None? ==> forall j :: 0 <= j < |view.replicas| ==> !view.Ready(view.replicas[j])
    {
      var q := view.replicas;
      var k := 0;
      while k < |q|
        invariant k <= |q| && FirstReady(q, view) == FirstReady(q[k..], view)
        invariant forall j :: 0 <= j < k ==> !view.Ready(q[j])
      {
        if view.Ready(q[k]) {
          return Some(q[k]);
        }
        k := k + 1;
      }
      return None;
    }

    method FindUnready() returns (r: Option<nat>)
      ensures r == FirstUnready(view.replicas, view)
      ensures r.Some? ==> exists k :: 0 <= k < |view.replicas| && r.value == view.replicas[k] && !view.Ready(r.value)
                                      && forall j :: 0 <= j < k ==> view.Ready(view.replicas[j])
      ensures r.None? ==> forall j :: 0 <= j < |view.replicas| ==> view.Ready(view.replicas[j])
    {
      var q := view.replicas;
      var k := 0;
      while k < |q|
        invariant k <= |q| && FirstUnready(q, view) == FirstUnready(q[k..], view)
        invariant forall j :: 0 <= j < k ==> view.Ready(q[j])
      {
        if !view.Ready(q[k]) {
          return Some(q[k]);
        }
        k := k + 1;
      }
      return None;
    }

    method SelectReplicaToPromote() returns (r: Option<nat>)
      ensures r == SelectReplica(spec, view)
    {
      if ManualRequested(spec, view) {
        var i := ManualIndex(spec, view);
        var k := 0;
        while k < |view.replicas|
          invariant k <= |view.replicas|
          invariant i in view.replicas[..k] ==> !view.Ready(i)
        {
          if view.Ready(view.replicas[k]) && view.replicas[k] == i {
            return Some(i);
          }
          k := k + 1;
        }
        assert view.replicas[..k] == view.replicas;
        return None;
      }
      r := FindReady();
    }

    method DeletePrimaryStatefulSet(a: Replies)
      requires Valid()
      modifies this
      ensures Valid() && Framed()
      ensures Current(false) == DeleteOldPrimary(old(Current(false)), view, a)
    {
      if view.primary.None? {
        calls := calls + [Call(DeletePrimary, 0, false)];
      } else {
        var i := view.primary.value;
        calls := calls + [Call(DeletePrimary, i, a.deleteOk)];
        if a.deleteOk {
          cluster := cluster - {i};
        }
      }
    }

    method PromoteReplicaToPrimary(i: nat, a: Replies) returns (failed: bool)
      requires Valid()
      modifies this, lock, status
      ensures Valid() && Framed()
      ensures Current(failed) == Promote(old(Current(false)), i, a)
    {
      failed := Activate(PrimaryDbCount, FailingOver, i, [], a.now);
      if failed {
        return;
      }
      var ok := a.promoteOk && i in cluster;
      calls := calls + [Call(PromoteReplica, i, ok)];
      if ok {
        cluster := cluster[i := cluster[i].(role := Primary)];
      } else {
        FreeLock();
      }
    }

    method FailOverToReplica(a: Replies) returns (failed: bool)
      requires Valid()
      modifies this, lock, status
      ensures Valid() && Framed()
      ensures Current(failed) == FailOver(old(Current(false)), view, a)
    {
      if lock.IsOtherActive(PrimaryDbCount) || lock.HasTimedOutOn(PrimaryDbCount) {
        return false;
      }
      var s := SelectReplicaToPromote();
      if s.None? {
        return true;
      }
      if lock.IsInTransition(PrimaryDbCount) && lock.previous.step == WaitingBeforeFailingOver {
        failed := PromoteReplicaToPrimary(s.value, a);
      } else {
        DeletePrimaryStatefulSet(a);
        failed := Activate(PrimaryDbCount, WaitingBeforeFailingOver, s.value, [], a.now);
      }
    }

    // ---------- Primary ----------

    method CreateStatefulSet(verb: Verb, i: nat, role: Role, a: Replies) returns (failed: bool)
      requires Valid()
      modifies this, lock, status
      ensures Valid() && Framed()
      ensures Current(failed) == Create(old(Current(false)), verb, i, role, a)
    {
      var ok := a.createOk && i !in cluster;
      calls := calls + [Call(verb, i, ok)];
      if !ok {
        FreeLock();
        return true;
      }
      cluster := cluster[i := StatefulSet(role, false, spec.storage, spec.fields)];
      status.SetEnforcedReplicas(status.current.enforcedReplicas + 1);
      return false;
    }

    method DeployNewPrimary(a: Replies) returns (failed: bool)
      requires Valid()
      modifies this, lock, status
      ensures Valid() && Framed()
      ensures Current(failed) == DeployPrimary(old(Current(false)), a)
    {
      if lock.HasTimedOutOn(PrimaryDbCount) {
        return false;
      }
      var i := 0;
      if !(spec.replicas > 1 || status.current.lastCreated == 0) && a.claimExists {
        i := status.current.lastCreated;
      }
      if i == 0 {
        i := status.current.lastCreated + 1;
      }
      failed := Activate(PrimaryDbCount, PrimaryDbDeploying, i, [], a.now);
      if failed {
        return;
      }
      failed := CreateStatefulSet(CreatePrimary, i, Primary, a);
      if failed {
        return;
      }
      if status.current.lastCreated == 0 {
        status.SetLastCreatedInstanceIndex(1);
      }
    }

    method InitialiseEnforcedReplicas()
      requires Valid()
      modifies status
      ensures Valid() && Framed()
      ensures Current(false) == InitialiseEnforced(old(Current(false)), view)
    {
      if status.current.enforcedReplicas > 0 {
        return;
      }
      if spec.replicas >= 1 && spec.replicas == |view.sets| {
        status.SetEnforcedReplicas(spec.replicas);
      }
    }

    method ShouldWeFailOver() returns (yes: bool)
      requires Valid()
      ensures yes == ShouldFailOver(Current(false), view)
    {
      if status.current.enforcedReplicas <= 0 {
        return false;
      }
      var ready := FindReady();
      if ready.None? {
        return false;
      }
      if ManualRequested(spec, view) {
        return true;
      }
      return !view.PrimaryReady() && !spec.failoverDisabled;
    }

    method PrimaryCount(a: Replies) returns (failed: bool)
      requires Valid()
      modifies this, lock, status
      ensures Valid() && Framed()
      ensures Current(failed) == EnforcePrimary(old(Current(false)), view, a)
    {
      if spec.standby {
        return false;
      }
      InitialiseEnforcedReplicas();
      if lock.IsOtherActive(PrimaryDbCount) {
        return false;
      }
      if view.PrimaryReady() && lock.HasTimedOutOn(PrimaryDbCount) {
        FreeLock();
      }
      var failOver := ShouldWeFailOver();
      if failOver {
        failed := FailOverToReplica(a);
      } else if view.primary.None? && |view.replicas| == 0
                && (spec.replicas == 1 || status.current.enforcedReplicas <= 0) {
        failed := DeployNewPrimary(a);
      } else {
        failed := false;
      }
    }

    // ---------- Replicas ----------

    method DeployReplicaStatefulSet(a: Replies) returns (failed: bool)
      requires Valid()
      modifies this, lock, status
      ensures Valid() && Framed()
      ensures Current(failed) == DeployReplica(old(Current(false)), a)
    {
      var i := status.current.lastCreated + 1;
      failed := Activate(ReplicaDbCount, ReplicaDbDeploying, i, [], a.now);
      if failed {
        return;
      }
      failed := CreateStatefulSet(CreateReplica, i, Replica, a);
      if !failed {
        status.SetLastCreatedInstanceIndex(i);
      }
    }

    method UndeployReplicaStatefulSet(i: nat, a: Replies) returns (failed: bool)
      requires Valid()
      modifies this, lock, status
      ensures Valid() && Framed()
      ensures Current(failed) == UndeployReplica(old(Current(false)), i, a)
    {
      failed := Activate(ReplicaDbCount, ReplicaDbUndeploying, i, [], a.now);
      if failed {
        return;
      }
      calls := calls + [Call(DeleteReplica, i, a.deleteOk)];
      if !a.deleteOk {
        FreeLock();
        return true;
      }
      cluster := cluster - {i};
      status.SetEnforcedReplicas(status.current.enforcedReplicas - 1);
    }

    method Scale(manual: bool, a: Replies) returns (failed: bool)
      requires Valid()
      modifies this, lock, status
      ensures Valid() && Framed()
      ensures Current(failed) == ScaleReplicas(old(Current(false)), view, manual, a)
    {
      failed := false;
      var missing := ExpectedReplicas(spec.replicas, spec.standby) - |view.replicas|;
      if missing > 0 {
        if spec.failoverDisabled && !manual && !(spec.replicas > status.current.enforcedReplicas) {
          return false;
        }
        failed := DeployReplicaStatefulSet(a);
      } else if missing < 0 {
        var highest := Reversed(view.replicas);
        if |highest| > 0 {
          failed := UndeployReplicaStatefulSet(highest[0], a);
        }
      } else {
        var unready := FindUnready();
        if unready.Some? {
          failed := UndeployReplicaStatefulSet(unready.value, a);
        }
      }
    }

    method ResetManualFailover(a: Replies)
      modifies this`spec, this`stored
      ensures Current(false) == ResetPromotePod(old(Current(false)), a)
    {
      spec := spec.(promotePod := None);
      if a.specOk {
        stored := spec;
      }
    }

    /** Forgets a time-out once the replica it happened on is ready or gone. */
    method RecoverReplica() returns (blocked: bool)
      requires Valid()
      modifies lock, status
      ensures Valid() && Framed()
      ensures var p := old(Current(false));
              && blocked == (HasTimedOut(p.lock, ReplicaDbCount) && !FailedReplicaFixed(p.lock, view))
              && Current(false) == if HasTimedOut(p.lock, ReplicaDbCount) && !blocked then Release(p) else p
    {
      if lock.HasTimedOutOn(ReplicaDbCount) {
        if lock.active.index in view.replicas && !view.Ready(lock.active.index) {
          return true;
        }
        FreeLock();
      }
      return false;
    }

    method ReplicaCount(a: Replies) returns (failed: bool)
      requires Valid()
      modifies this, lock, status
      ensures Valid() && Framed()
      ensures Current(failed) == EnforceReplicas(old(Current(false)), view, a)
    {
      if lock.IsOtherActive(ReplicaDbCount) {
        return false;
      }
      var blocked := RecoverReplica();
      if blocked {
        return false;
      }
      if !spec.standby && !view.PrimaryReady() {
        return false;
      }
      var manual := spec.promotePod.Some?;
      if manual {
        ResetManualFailover(a);
      }
      if lock.active.id == ReplicaDbCount {
        return false;
      }
      failed := Scale(manual, a);
    }

    // ---------- Rolling update ----------

    method EnforceOne(i: nat, d: seq<Difference>, a: Replies) returns (failed: bool)
      requires Valid()
      modifies this, lock, status
      ensures Valid() && Framed()
      ensures Current(failed) == UpdateOne(old(Current(false)), i, d, a)
    {
      failed := Activate(StatefulSetSpec, SpecUpdating, i, d, a.now);
      if failed {
        return;
      }
      var ok := a.updateOk && i in cluster;
      calls := calls + [Call(UpdateFields, i, ok)];
      if !ok {
        FreeLock();
        return true;
      }
      cluster := cluster[i := cluster[i].(fields := spec.fields)];
    }

    method HandleStuckPod(i: nat, a: Replies) returns (failed: bool)
      requires Valid()
      modifies this, lock, status
      ensures Valid() && Framed()
      ensures Current(failed) == WaitOnStuckPod(old(Current(false)), view, i, a)
    {
      failed := Activate(StatefulSetSpec, WaitingOnStuckPod, PodIndex(view, i), [], a.now);
      if failed {
        return;
      }
      if !a.podDeleteOk {
        FreeLock();
        return true;
      }
      pods := pods - {i};
    }

    method VerifyOnPod(i: nat, a: Replies) returns (done: bool, failed: bool)
      requires Valid()
      modifies this, lock, status
      ensures Valid() && Framed() && spec == old(spec)
      ensures done == PodVerified(spec.fields, view, i)
      ensures Current(failed) == VerifyPod(old(Current(false)), view, i, a)
    {
      if PodStuck(view, i) {
        failed := HandleStuckPod(i, a);
        return false, failed;
      }
      if !PodUpToDate(spec.fields, view, i) || !view.PodReady(i) {
        failed := Activate(StatefulSetSpec, PodSpecUpdating, PodIndex(view, i), [], a.now);
        return false, failed;
      }
      FreeLock();
      return true, !a.serviceDeleteOk;
    }

    method FieldsOfAll(a: Replies) returns (failed: bool)
      requires Valid()
      modifies this, lock, status
      ensures Valid() && Framed()
      ensures Current(failed) == EnforceFields(old(Current(false)), view, a)
    {
      if !spec.standby && !view.PrimaryReady() {
        return false;
      }
      if lock.IsOtherActive(StatefulSetSpec) {
        return false;
      }
      failed := RollOut(RolloutOrder(spec.standby, view), a);
    }

    /** Forgets a time-out on instance `i` when what is asked for has changed since. */
    method ReopenOn(i: nat, d: seq<Difference>) returns (blocked: bool)
      requires Valid()
      modifies lock, status
      ensures Valid() && Framed()
      ensures var p := old(Current(false));
              && blocked == (UpdateTimedOutOn(p.lock, i) && p.lock.active.differences == d)
              && Current(false) == if blocked then p else Reopened(p, i)
    {
      if lock.HasTimedOutOn(StatefulSetSpec) && lock.active.index == i {
        if lock.active.differences == d {
          return true;
        }
        FreeLock();
      }
      return false;
    }

    /** One StatefulSet of the loop; `stop` says that the loop ends here. */
    method RollOutOne(i: nat, ghost rest: seq<nat>, a: Replies) returns (stop: bool, failed: bool)
      requires Valid()
      modifies this, lock, status
      ensures Valid() && Framed() && (!stop ==> !failed)
      ensures Rollout(old(Current(false)), view, [i] + rest, a)
              == if stop then Current(failed) else Rollout(Current(false), view, rest, a)
    {
      RolloutTurn(Current(false), view, [i] + rest, a);
      assert ([i] + rest)[1..] == rest;
      var d := DifferencesAt(spec.fields, view, i);
      var blocked := ReopenOn(i, d);
      if blocked {
        return true, false;
      }
      if d != [] {
        failed := EnforceOne(i, d, a);
        return true, failed;
      }
      if lock.IsInTransition(StatefulSetSpec) && lock.previous.index == i {
        var done;
        done, failed := VerifyOnPod(i, a);
        return !done || failed, failed;
      }
      return false, false;
    }

    method RollOut(order: seq<nat>, a: Replies) returns (failed: bool)
      requires Valid()
      modifies this, lock, status
      ensures Valid() && Framed()
      ensures Current(failed) == Rollout(old(Current(false)), view, order, a)
    {
      var k := 0;
      ghost var start := Current(false);
      assert order[0..] == order;
      while k < |order|
        invariant k <= |order| && Valid() && Framed()
        invariant Rollout(start, view, order, a) == Rollout(Current(false), view, order[k..], a)
      {
        assert order[k..] == [order[k]] + order[k + 1..];
        var stop;
        stop, failed := RollOutOne(order[k], order[k + 1..], a);
        if stop {
          return;
        }
        k := k + 1;
      }
      return false;
    }

    // ---------- The whole pass ----------

    method Counts(a: Replies) returns (failed: bool)
      requires Valid()
      modifies this, lock, status
      ensures Valid() && Framed()
      ensures Current(failed) == EnforceCounts(old(Current(false)), view, a)
    {
      failed := BaseConfig(a);
      if failed {
        return;
      }
      failed := PrimaryCount(a);
      if failed {
        return;
      }
      failed := ReplicaCount(a);
      if failed {
        return;
      }
      return !a.servicesOk;
    }

    method EnforceSpec(a: Replies) returns (failed: bool)
      requires Valid()
      modifies this, lock, status
      ensures Valid() && Framed()
      ensures Current(failed) == EnforceAll(old(Current(false)), view, a)
    {
      failed := Counts(a);
      if failed {
        return;
      }
      failed := FieldsOfAll(a);
    }

    /** The storage parameters of a running primary cannot change: they are put back. */
    method CheckSpec(a: Replies) returns (fatal: bool)
      requires Valid()
      modifies this
      ensures Valid() && Framed()
      ensures fatal == SpecFatal(old(spec), view)
      ensures Current(false) == if fatal then RollBack(old(Current(false)), view, a) else old(Current(false))
    {
      fatal := !spec.otherwiseValid || spec.replicas <= 0;
      if view.primary.Some? && view.PodReady(view.primary.value) && view.primary.value in view.sets {
        var deployed := view.sets[view.primary.value].storage;
        if spec.storage.mountPath != deployed.mountPath
           || spec.storage.storageClass != deployed.storageClass
           || spec.storage.size != deployed.size
        {
          fatal := true;
          spec := spec.(storage := deployed);
          if a.specOk {
            stored := spec;
          }
        }
      }
    }
  }

  /** What the loaded states show to the enforcers. */
  function ViewFrom(s: Snapshot, w: World): (v: View)
    requires forall x :: x in s.replicas.ascending ==> x.index >= 0
    requires s.primary.Some? ==> s.primary.value.index >= 0
  {
    var r := s.replicas.ascending;
    View(if s.primary.Some? then Some(s.primary.value.index) else None,
         seq(|r|, i requires 0 <= i < |r| => assert r[i] in r; r[i].index),
         w.cluster, w.pods, w.baseConfig)
  }

  lemma ViewLoaded(s: Snapshot, ls: seq<Listed>, pods: seq<ListedPod>, w: World)
    requires Lists(ls, w.cluster) && Loadable(ls) && LoadedFrom(s, ls, pods)
    ensures |Primaries(w.cluster)| <= 1
    ensures forall x :: x in s.replicas.ascending ==> x.index >= 0
    ensures s.primary.Some? ==> s.primary.value.index >= 0
    ensures ViewFrom(s, w) == ViewOf(w)
  {
    LoadShowsWorld(s, ls, pods, w);
    var r, q := s.replicas.ascending, Indices(s.replicas.ascending);
    forall x | x in r ensures x.index >= 0 {
      var k :| 0 <= k < |r| && r[k] == x;
      assert q[k] == x.index && q[k] == ViewOf(w).replicas[k];
    }
    assert ViewFrom(s, w).replicas == q;
  }

  /** The view, unless the states cannot be loaded. */
  method LoadView(w: World, ls: seq<Listed>, listedPods: seq<ListedPod>) returns (v: Option<View>)
    requires Lists(ls, w.cluster)
    ensures v == if |Primaries(w.cluster)| > 1 then None else Some(ViewOf(w))
  {
    var states := new States();
    var ok := states.Load(ls, listedPods);
    if !ok {
      LoadShowsWorld(states.State(), ls, listedPods, w);
      return None;
    }
    ViewLoaded(states.State(), ls, listedPods, w);
    return Some(ViewFrom(states.State(), w));
  }

  /** The objects of a reconcile, with the lock read back. */
  method BeginPass(w: World, v: View, a: Replies) returns (op: Operator, seconds: int)
    requires v == ViewOf(w)
    ensures fresh(op) && fresh(op.lock) && fresh(op.status) && op.Valid() && op.view == v
    ensures op.status.stored == w.status && op.Current(false) == Begin(w, a)
    ensures seconds == RequeueAfter(Begin(w, a).lock, a.now)
  {
    var status := new StatusWrapper(w.status);
    var lock := new BlockingOperation(status);
    lock.RegisterAll();
    op := new Operator(w, v, status, lock);
    seconds := lock.LoadActiveOperation(a.now, Completed(w.status.operation, w.spec, v, a.now));
  }

  /** One reconcile, with the StatefulSets listed in any order: the world it leaves and the
      calls it makes are those of the specification. */
  method ReconcileOnce(w: World, a: Replies, ls: seq<Listed>, listedPods: seq<ListedPod>)
    returns (w': World, calls: seq<Call>)
    requires Lists(ls, w.cluster)
    ensures w' == Reconcile(w, a) && calls == CallsOf(w, a)
  {
    var v := LoadView(w, ls, listedPods);
    if v.None? {
      return w, [];
    }
    var op, seconds := BeginPass(w, v.value, a);
    if seconds <= 0 {
      var fatal := op.CheckSpec(a);
      if !fatal {
        var _ := op.EnforceSpec(a);
      }
    }
    var _ := op.status.UpdateStatusIfChanged(a.statusOk);
    w' := World(op.stored, op.status.stored, op.cluster, op.pods, op.baseConfig);
    calls := op.calls;
  }
}
