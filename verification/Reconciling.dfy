/** One reconcile: load the state, advance the lock, check the spec, run the enforcers,
    write the status back. */
module Reconciling {
  import opened Resources
  import opened BlockingOperations
  import opened Snapshots
  import opened Enforcement

  /** The completion checkers of the registered steps. */
  predicate Completed(op: Operation, s: Spec, v: View, now: int) {
    match op.step
    case BaseConfigDeploying => v.baseConfig
    case PrimaryDbDeploying => v.PrimaryReady()
    case FailingOver => SecondsSinceStart(op, now) >= 40 && v.PrimaryReady()
    case ReplicaDbDeploying => op.index in v.replicas && v.Ready(op.index)
    case ReplicaDbUndeploying => op.index !in v.replicas
    case SpecUpdating =>
      SecondsSinceStart(op, now) >= 10 && op.index in v.sets && Differences(s.fields, v.sets[op.index].fields) == []
    case PodSpecUpdating => op.index in v.sets && v.PodReady(op.index) && PodUpToDate(s.fields, v, op.index)
    case WaitingOnStuckPod => op.index in v.sets && !PodStuck(v, op.index)
    case _ => false
  }

  function Begin(w: World, a: Replies): (p: Pass)
  {
    var v := ViewOf(w);
    Pass(Loaded(w.status.operation, w.status.previous, a.now,
                Completed(w.status.operation, w.spec, v, a.now)),
         w.status.enforcedReplicas, w.status.lastCreated,
         w.spec, w.spec, w.cluster, w.pods, w.baseConfig, [], false)
  }

  /** The running primary disagrees with the spec on a storage parameter. */
  predicate StorageChanged(s: Spec, v: View) {
    && v.primary.Some?
    && v.PodReady(v.primary.value)
    && v.primary.value in v.sets
    && s.storage != v.sets[v.primary.value].storage
  }

  /** Storage parameters are put back to those of a running primary. Each field is rolled
      back and stored separately in the program; the flag stands for all three writes. */
  function RollBack(p: Pass, v: View, a: Replies): (r: Pass)
  {
    if StorageChanged(p.spec, v) then
      var s := p.spec.(storage := v.sets[v.primary.value].storage);
      p.(spec := s, stored := if a.specOk then s else p.stored)
    else p
  }

  predicate SpecFatal(s: Spec, v: View) {
    StorageChanged(s, v) || !s.otherwiseValid || s.replicas <= 0
  }

  function EnforceCounts(p: Pass, v: View, a: Replies): (r: Pass)
    ensures !p.lock.active.hasTimedOut ==> !r.lock.active.hasTimedOut
    ensures CoherentLock(p.lock) && a.now >= 0 ==> CoherentLock(r.lock)
    ensures r.spec == p.spec || r.spec == p.spec.(promotePod := None)
    ensures r.stored == p.stored || r.stored == p.spec.(promotePod := None)
  {
    var p1 := EnforceBaseConfig(p, v, a);
    if p1.failed then p1
    else
      var p2 := EnforcePrimary(p1, v, a);
      if p2.failed then p2
      else
        var p3 := EnforceReplicas(p2, v, a);
        if p3.failed then p3 else p3.(failed := !a.servicesOk)
  }

  function EnforceAll(p: Pass, v: View, a: Replies): (r: Pass)
    ensures !p.lock.active.hasTimedOut ==> !r.lock.active.hasTimedOut
    ensures CoherentLock(p.lock) && a.now >= 0 ==> CoherentLock(r.lock)
    ensures r.spec == p.spec || r.spec == p.spec.(promotePod := None)
    ensures r.stored == p.stored || r.stored == p.spec.(promotePod := None)
  {
    var p1 := EnforceCounts(p, v, a);
    if p1.failed then p1 else EnforceFields(p1, v, a)
  }

  /** Where the pass ends: left alone while an operation runs, stopped by the spec check, or
      after the enforcers. */
  function Finish(w: World, a: Replies): (p: Pass)
  {
    var v, p := ViewOf(w), Begin(w, a);
    if RequeueAfter(p.lock, a.now) > 0 then p
    else if SpecFatal(p.spec, v) then RollBack(p, v, a)
    else EnforceAll(p, v, a)
  }

  function Written(w: World, p: Pass, a: Replies): (w': World)
  {
    World(p.stored,
          if a.statusOk then Status(p.lock.saved, p.lock.previous, p.enforced, p.lastCreated) else w.status,
          p.cluster, p.pods, p.baseConfig)
  }

  /** Two primaries make the loading of the state fail, before anything is done. */
  function Reconcile(w: World, a: Replies): (w': World)
  {
    if |Primaries(w.cluster)| > 1 then w else Written(w, Finish(w, a), a)
  }

  /** The StatefulSet calls of the reconcile. */
  function CallsOf(w: World, a: Replies): (c: seq<Call>)
  {
    if |Primaries(w.cluster)| > 1 then [] else Finish(w, a).calls
  }
}
