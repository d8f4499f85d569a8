/** The enforcers of one reconcile as functions of the pass in progress: base configuration,
    primary and failover, replica count, rolling update. */
module Enforcement {
  import opened Resources
  import opened BlockingOperations
  import opened Snapshots

  /** A reconcile in progress: the lock and the counters held in memory, the spec held in
      memory and the stored one, the cluster as changed so far, the StatefulSet calls made,
      and whether an enforcer returned an error. */
  datatype Pass = Pass(
    lock: Lock,
    enforced: int,
    lastCreated: nat,
    spec: Spec,
    stored: Spec,
    cluster: Cluster,
    pods: Pods,
    baseConfig: bool,
    calls: seq<Call>,
    failed: bool)

  predicate SameSettings(p: Pass, r: Pass) {
    r.spec == p.spec && r.stored == p.stored && r.pods == p.pods && r.baseConfig == p.baseConfig
  }

  function Start(p: Pass, id: OperationId, step: StepId, index: nat, d: seq<Difference>, now: int): (r: Pass)
    ensures !p.lock.active.hasTimedOut ==> !r.lock.active.hasTimedOut
    ensures CoherentLock(p.lock) && now >= 0 && ConfigOf(id, step).Some? ==> CoherentLock(r.lock)
    ensures SameSettings(p, r) && r.cluster == p.cluster
  {
    var op := NewOperation(id, step, index, d);
    if CanActivate(p.lock, op) then p.(lock := Activated(p.lock, op, now)) else p.(failed := true)
  }

  function Release(p: Pass): (r: Pass)
    ensures !p.lock.active.hasTimedOut ==> !r.lock.active.hasTimedOut
    ensures CoherentLock(p.lock) ==> CoherentLock(r.lock)
    ensures SameSettings(p, r) && r.cluster == p.cluster
  {
    p.(lock := Removed(p.lock, false))
  }

  // ---------- Base configuration ----------

  function EnforceBaseConfig(p: Pass, v: View, a: Replies): (r: Pass)
    ensures !p.lock.active.hasTimedOut ==> !r.lock.active.hasTimedOut
    ensures CoherentLock(p.lock) && a.now >= 0 ==> CoherentLock(r.lock)
    ensures r.spec == p.spec && r.stored == p.stored && r.pods == p.pods
  {
    if OtherActive(p.lock, BaseConfigCount) then p
    else if HasTimedOut(p.lock, BaseConfigCount) && !v.baseConfig then p
    else
      var p1 := if HasTimedOut(p.lock, BaseConfigCount) then Release(p) else p;
      if v.baseConfig then p1
      else
        var p2 := Start(p1, BaseConfigCount, BaseConfigDeploying, 0, [], a.now);
        if p2.failed then p2
        else if a.configOk then p2.(baseConfig := true)
        else Release(p2).(failed := true)
  }

  // ---------- Failover ----------

  /** The replica whose pod the user asked to promote, or 0. */
  function ManualIndex(s: Spec, v: View): (i: nat)
  {
    if s.promotePod.Some? && s.promotePod.value in v.pods && s.promotePod.value in v.replicas
    then s.promotePod.value
    else 0
  }

  predicate ManualRequested(s: Spec, v: View) {
    ManualIndex(s, v) > 0 && Some(ManualIndex(s, v)) != v.primary
  }

  predicate ShouldFailOver(p: Pass, v: View) {
    && p.enforced > 0
    && FirstReady(v.replicas, v).Some?
    && (ManualRequested(p.spec, v) || (!v.PrimaryReady() && !p.spec.failoverDisabled))
  }

  function SelectReplica(s: Spec, v: View): (r: Option<nat>)
    ensures r.Some? ==> r.value in v.replicas && v.Ready(r.value)
  {
    if ManualRequested(s, v) then
      if v.Ready(ManualIndex(s, v)) then Some(ManualIndex(s, v)) else None
    else FirstReady(v.replicas, v)
  }

  predicate WaitIsOver(l: Lock) {
    InTransition(l, PrimaryDbCount) && l.previous.step == WaitingBeforeFailingOver
  }

  /** Deleting the primary: an error is swallowed. Without a primary the call names no
      StatefulSet and fails. */
  function DeleteOldPrimary(p: Pass, v: View, a: Replies): (r: Pass)
    ensures !p.lock.active.hasTimedOut ==> !r.lock.active.hasTimedOut
    ensures SameSettings(p, r)
  {
    match v.primary
    case None => p.(calls := p.calls + [Call(DeletePrimary, 0, false)])
    case Some(i) =>
      p.(calls := p.calls + [Call(DeletePrimary, i, a.deleteOk)],
         cluster := if a.deleteOk then p.cluster - {i} else p.cluster)
  }

  function StartWaiting(p: Pass, v: View, i: nat, a: Replies): (r: Pass)
    ensures !p.lock.active.hasTimedOut ==> !r.lock.active.hasTimedOut
    ensures CoherentLock(p.lock) && a.now >= 0 ==> CoherentLock(r.lock)
    ensures SameSettings(p, r)
  {
    Start(DeleteOldPrimary(p, v, a), PrimaryDbCount, WaitingBeforeFailingOver, i, [], a.now)
  }

  /** When the update fails the lock is released, but no error is returned. */
  function Promote(p: Pass, i: nat, a: Replies): (r: Pass)
    ensures !p.lock.active.hasTimedOut ==> !r.lock.active.hasTimedOut
    ensures CoherentLock(p.lock) && a.now >= 0 ==> CoherentLock(r.lock)
    ensures SameSettings(p, r)
  {
    var p1 := Start(p, PrimaryDbCount, FailingOver, i, [], a.now);
    if p1.failed then p1
    else
      var ok := a.promoteOk && i in p1.cluster;
      var p2 := p1.(calls := p1.calls + [Call(PromoteReplica, i, ok)]);
      if ok then p2.(cluster := p2.cluster[i := p2.cluster[i].(role := Primary)]) else Release(p2)
  }

  function FailOver(p: Pass, v: View, a: Replies): (r: Pass)
    ensures !p.lock.active.hasTimedOut ==> !r.lock.active.hasTimedOut
    ensures CoherentLock(p.lock) && a.now >= 0 ==> CoherentLock(r.lock)
    ensures SameSettings(p, r)
  {
    if OtherActive(p.lock, PrimaryDbCount) then p
    else if HasTimedOut(p.lock, PrimaryDbCount) then p
    else
      match SelectReplica(p.spec, v)
      case None => p.(failed := true)
      case Some(i) => if WaitIsOver(p.lock) then Promote(p, i, a) else StartWaiting(p, v, i, a)
  }

  // ---------- Primary ----------

  function InitialiseEnforced(p: Pass, v: View): (r: Pass)
    ensures !p.lock.active.hasTimedOut ==> !r.lock.active.hasTimedOut
    ensures SameSettings(p, r)
  {
    if p.enforced <= 0 && p.spec.replicas >= 1 && p.spec.replicas == |v.sets|
    then p.(enforced := p.spec.replicas)
    else p
  }

  predicate ShouldDeployPrimary(p: Pass, v: View) {
    v.primary.None? && |v.replicas| == 0 && (p.spec.replicas == 1 || p.enforced <= 0)
  }

  /** A lone primary is recreated under the last index if its claim is still there. */
  function NewPrimaryIndex(p: Pass, a: Replies): (i: nat)
  {
    if p.spec.replicas <= 1 && p.lastCreated != 0 && a.claimExists then p.lastCreated
    else p.lastCreated + 1
  }

  function Create(p: Pass, verb: Verb, i: nat, role: Role, a: Replies): (r: Pass)
    ensures !p.lock.active.hasTimedOut ==> !r.lock.active.hasTimedOut
    ensures CoherentLock(p.lock) && a.now >= 0 ==> CoherentLock(r.lock)
    ensures SameSettings(p, r)
  {
    var ok := a.createOk && i !in p.cluster;
    var p1 := p.(calls := p.calls + [Call(verb, i, ok)]);
    if ok then
      p1.(cluster := p1.cluster[i := StatefulSet(role, false, p.spec.storage, p.spec.fields)],
          enforced := p.enforced + 1)
    else Release(p1).(failed := true)
  }

  function DeployPrimary(p: Pass, a: Replies): (r: Pass)
    ensures !p.lock.active.hasTimedOut ==> !r.lock.active.hasTimedOut
    ensures CoherentLock(p.lock) && a.now >= 0 ==> CoherentLock(r.lock)
    ensures SameSettings(p, r)
  {
    if HasTimedOut(p.lock, PrimaryDbCount) then p
    else
      var i := NewPrimaryIndex(p, a);
      var p1 := Start(p, PrimaryDbCount, PrimaryDbDeploying, i, [], a.now);
      if p1.failed then p1
      else
        var p2 := Create(p1, CreatePrimary, i, Primary, a);
        if !p2.failed && p2.lastCreated == 0 then p2.(lastCreated := 1) else p2
  }

  function EnforcePrimary(p: Pass, v: View, a: Replies): (r: Pass)
    ensures !p.lock.active.hasTimedOut ==> !r.lock.active.hasTimedOut
    ensures CoherentLock(p.lock) && a.now >= 0 ==> CoherentLock(r.lock)
    ensures SameSettings(p, r)
  {
    if p.spec.standby then p
    else
      var p1 := InitialiseEnforced(p, v);
      if OtherActive(p1.lock, PrimaryDbCount) then p1
      else
        var p2 := if v.PrimaryReady() && HasTimedOut(p1.lock, PrimaryDbCount) then Release(p1) else p1;
        if ShouldFailOver(p2, v) then FailOver(p2, v, a)
        else if ShouldDeployPrimary(p2, v) then DeployPrimary(p2, a)
        else p2
  }

  // ---------- Replicas ----------

  /** The primary counts as one of the requested instances, unless it runs elsewhere. */
  function ExpectedReplicas(replicas: int, standby: bool): (n: int)
  {
    if standby then replicas else if replicas <= 1 then 0 else replicas - 1
  }

  /** The replica on which the last operation failed is ready again or gone. */
  predicate FailedReplicaFixed(l: Lock, v: View) {
    l.active.index in v.replicas ==> v.Ready(l.active.index)
  }

  /** Clearing the request in memory always happens; storing it may fail. */
  function ResetPromotePod(p: Pass, a: Replies): (r: Pass)
  {
    var s := p.spec.(promotePod := None);
    p.(spec := s, stored := if a.specOk then s else p.stored)
  }

  function DeployReplica(p: Pass, a: Replies): (r: Pass)
    ensures !p.lock.active.hasTimedOut ==> !r.lock.active.hasTimedOut
    ensures CoherentLock(p.lock) && a.now >= 0 ==> CoherentLock(r.lock)
    ensures SameSettings(p, r)
  {
    var i := p.lastCreated + 1;
    var p1 := Start(p, ReplicaDbCount, ReplicaDbDeploying, i, [], a.now);
    if p1.failed then p1
    else
      var p2 := Create(p1, CreateReplica, i, Replica, a);
      if p2.failed then p2 else p2.(lastCreated := i)
  }

  function UndeployReplica(p: Pass, i: nat, a: Replies): (r: Pass)
    ensures !p.lock.active.hasTimedOut ==> !r.lock.active.hasTimedOut
    ensures CoherentLock(p.lock) && a.now >= 0 ==> CoherentLock(r.lock)
    ensures SameSettings(p, r)
  {
    var p1 := Start(p, ReplicaDbCount, ReplicaDbUndeploying, i, [], a.now);
    if p1.failed then p1
    else
      var p2 := p1.(calls := p1.calls + [Call(DeleteReplica, i, a.deleteOk)]);
      if a.deleteOk then p2.(cluster := p2.cluster - {i}, enforced := p2.enforced - 1)
      else Release(p2).(failed := true)
  }

  /** Scale by one: deploy, remove the highest index, or remove the first unready replica. */
  function ScaleReplicas(p: Pass, v: View, manual: bool, a: Replies): (r: Pass)
    ensures !p.lock.active.hasTimedOut ==> !r.lock.active.hasTimedOut
    ensures CoherentLock(p.lock) && a.now >= 0 ==> CoherentLock(r.lock)
    ensures SameSettings(p, r)
  {
    var missing := ExpectedReplicas(p.spec.replicas, p.spec.standby) - |v.replicas|;
    if missing > 0 then
      if p.spec.failoverDisabled && !manual && p.spec.replicas <= p.enforced then p
      else DeployReplica(p, a)
    else if missing < 0 then
      if |v.replicas| == 0 then p else UndeployReplica(p, Reversed(v.replicas)[0], a)
    else
      match FirstUnready(v.replicas, v)
      case None => p
      case Some(i) => UndeployReplica(p, i, a)
  }

  /** With the lock free, or held by a replica operation. */
  function DecideReplicas(p: Pass, v: View, a: Replies): (r: Pass)
    ensures !p.lock.active.hasTimedOut ==> !r.lock.active.hasTimedOut
    ensures CoherentLock(p.lock) && a.now >= 0 ==> CoherentLock(r.lock)
    ensures r.pods == p.pods && r.baseConfig == p.baseConfig
    ensures r.spec == p.spec || r.spec == p.spec.(promotePod := None)
    ensures r.stored == p.stored || r.stored == p.spec.(promotePod := None)
  {
    if !p.spec.standby && !v.PrimaryReady() then p
    else
      var manual := p.spec.promotePod.Some?;
      var p1 := if manual then ResetPromotePod(p, a) else p;
      if p1.lock.active.id == ReplicaDbCount then p1
      else ScaleReplicas(p1, v, manual, a)
  }

  function EnforceReplicas(p: Pass, v: View, a: Replies): (r: Pass)
    ensures !p.lock.active.hasTimedOut ==> !r.lock.active.hasTimedOut
    ensures CoherentLock(p.lock) && a.now >= 0 ==> CoherentLock(r.lock)
    ensures r.pods == p.pods && r.baseConfig == p.baseConfig
    ensures r.spec == p.spec || r.spec == p.spec.(promotePod := None)
    ensures r.stored == p.stored || r.stored == p.spec.(promotePod := None)
  {
    if OtherActive(p.lock, ReplicaDbCount) then p
    else if HasTimedOut(p.lock, ReplicaDbCount) && !FailedReplicaFixed(p.lock, v) then p
    else DecideReplicas(if HasTimedOut(p.lock, ReplicaDbCount) then Release(p) else p, v, a)
  }

  // ---------- Rolling update ----------

  function FieldDifference(name: string, current: string, expected: string): (d: seq<Difference>)
  {
    if current == expected then [] else [Difference(name, expected)]
  }

  function Differences(want: Fields, f: Fields): (d: seq<Difference>)
  {
    FieldDifference("Image", f.image, want.image)
    + FieldDifference("Port", f.port, want.port)
    + FieldDifference("Other", f.other, want.other)
  }

  function DifferencesAt(want: Fields, v: View, i: nat): (d: seq<Difference>)
  {
    if i in v.sets then Differences(want, v.sets[i].fields) else []
  }

  /** Replicas from the highest index down, then the primary. */
  function RolloutOrder(standby: bool, v: View): (q: seq<nat>)
  {
    if standby || v.primary.None? then Reversed(v.replicas)
    else Reversed(v.replicas) + [v.primary.value]
  }

  predicate UpdateTimedOutOn(l: Lock, i: nat) {
    HasTimedOut(l, StatefulSetSpec) && l.active.index == i
  }

  predicate ParkedOn(l: Lock, i: nat) {
    InTransition(l, StatefulSetSpec) && l.previous.index == i
  }

  function UpdateOne(p: Pass, i: nat, d: seq<Difference>, a: Replies): (r: Pass)
    ensures !p.lock.active.hasTimedOut ==> !r.lock.active.hasTimedOut
    ensures CoherentLock(p.lock) && a.now >= 0 ==> CoherentLock(r.lock)
    ensures SameSettings(p, r)
  {
    var p1 := Start(p, StatefulSetSpec, SpecUpdating, i, d, a.now);
    if p1.failed then p1
    else
      var ok := a.updateOk && i in p1.cluster;
      var p2 := p1.(calls := p1.calls + [Call(UpdateFields, i, ok)]);
      if ok then p2.(cluster := p2.cluster[i := p2.cluster[i].(fields := p2.spec.fields)])
      else Release(p2).(failed := true)
  }

  /** The index recorded for the pod of an instance: 0 when no such pod is listed. */
  function PodIndex(v: View, i: nat): (k: nat)
  {
    if i in v.pods then i else 0
  }

  predicate PodStuck(v: View, i: nat) {
    i in v.pods && v.pods[i].stuck
  }

  predicate PodUpToDate(want: Fields, v: View, i: nat) {
    i in v.pods && v.pods[i].image == want.image && v.pods[i].port == want.port
  }

  /** The pod of the instance was seen ready, not stuck, with the wanted image and port. */
  predicate PodVerified(want: Fields, v: View, i: nat) {
    !PodStuck(v, i) && PodUpToDate(want, v, i) && v.PodReady(i)
  }

  function WaitOnStuckPod(p: Pass, v: View, i: nat, a: Replies): (r: Pass)
    ensures !p.lock.active.hasTimedOut ==> !r.lock.active.hasTimedOut
    ensures CoherentLock(p.lock) && a.now >= 0 ==> CoherentLock(r.lock)
    ensures r.spec == p.spec && r.stored == p.stored && r.baseConfig == p.baseConfig && r.cluster == p.cluster
  {
    var p1 := Start(p, StatefulSetSpec, WaitingOnStuckPod, PodIndex(v, i), [], a.now);
    if p1.failed then p1
    else if a.podDeleteOk then p1.(pods := p1.pods - {i})
    else Release(p1).(failed := true)
  }

  function VerifyPod(p: Pass, v: View, i: nat, a: Replies): (r: Pass)
    ensures !p.lock.active.hasTimedOut ==> !r.lock.active.hasTimedOut
    ensures CoherentLock(p.lock) && a.now >= 0 ==> CoherentLock(r.lock)
    ensures r.spec == p.spec && r.stored == p.stored && r.baseConfig == p.baseConfig && r.cluster == p.cluster
  {
    if PodStuck(v, i) then WaitOnStuckPod(p, v, i, a)
    else if !PodVerified(p.spec.fields, v, i) then
      Start(p, StatefulSetSpec, PodSpecUpdating, PodIndex(v, i), [], a.now)
    else Release(p).(failed := !a.serviceDeleteOk)
  }

  function Rollout(p: Pass, v: View, order: seq<nat>, a: Replies): (r: Pass)
    ensures !p.lock.active.hasTimedOut ==> !r.lock.active.hasTimedOut
    ensures CoherentLock(p.lock) && a.now >= 0 ==> CoherentLock(r.lock)
    ensures r.spec == p.spec && r.stored == p.stored && r.baseConfig == p.baseConfig
    decreases |order|
  {
    if order == [] then p
    else
      var i := order[0];
      var d := DifferencesAt(p.spec.fields, v, i);
      if UpdateTimedOutOn(p.lock, i) && p.lock.active.differences == d then p
      else
        var p1 := if UpdateTimedOutOn(p.lock, i) then Release(p) else p;
        if d != [] then UpdateOne(p1, i, d, a)
        else if ParkedOn(p1.lock, i) then
          var p2 := VerifyPod(p1, v, i, a);
          if !PodVerified(p1.spec.fields, v, i) || p2.failed then p2 else Rollout(p2, v, order[1..], a)
        else Rollout(p1, v, order[1..], a)
  }

  function EnforceFields(p: Pass, v: View, a: Replies): (r: Pass)
    ensures !p.lock.active.hasTimedOut ==> !r.lock.active.hasTimedOut
    ensures CoherentLock(p.lock) && a.now >= 0 ==> CoherentLock(r.lock)
  {
    if !p.spec.standby && !v.PrimaryReady() then p
    else if OtherActive(p.lock, StatefulSetSpec) then p
    else Rollout(p, v, RolloutOrder(p.spec.standby, v), a)
  }
}
