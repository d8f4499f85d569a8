/** When each call is made, said of the stored state and of the answers from outside. */
module Decisions {
  import opened Resources
  import opened BlockingOperations
  import opened Snapshots
  import opened Enforcement
  import opened Reconciling
  import opened Effects
  import opened Steps

  /** The reconcile gets as far as the enforcers. */
  predicate Enforces(w: World, a: Replies) {
    && |Primaries(w.cluster)| <= 1
    && RequeueAfter(Begin(w, a).lock, a.now) <= 0
    && !SpecFatal(w.spec, ViewOf(w))
  }

  /** What the enforcers find when they run: no operation is running. */
  predicate Settled(l: Lock) {
    CoherentLock(l) && (!IsActive(l) || l.active.step == TransitionStep || l.active.hasTimedOut)
  }

  lemma EnforcesSettled(w: World, a: Replies)
    requires Readable(w) && a.now >= 0 && Enforces(w, a)
    ensures Settled(Begin(w, a).lock)
  {
    BeginStarts(w, a);
    ReexaminedInTime(w.status.operation, w.status.previous, a.now,
                     Completed(w.status.operation, w.spec, ViewOf(w), a.now));
  }

  lemma FinishEnforces(w: World, a: Replies)
    requires Enforces(w, a)
    ensures Finish(w, a) == EnforceAll(Begin(w, a), ViewOf(w), a)
  {
  }

  // ---------- The primary ----------

  /** The enforcement of the primary is not blocked by another operation. */
  predicate PrimaryTurn(w: World, l: Lock) {
    && !w.spec.standby
    && (|| l.active.id == PrimaryDbCount
        || (w.baseConfig && (l.active.id == NoOperation || l.active.id == BaseConfigCount)))
  }

  /** A replica is to become the primary: the user asks for it, or the primary is not ready. */
  predicate FailoverWanted(w: World) {
    var v := ViewOf(w);
    && EnforcedNow(w) > 0 && FirstReady(v.replicas, v).Some?
    && (ManualRequested(w.spec, v) || (!v.PrimaryReady() && !w.spec.failoverDisabled))
  }

  predicate FailoverDue(w: World, l: Lock) {
    && PrimaryTurn(w, l) && FailoverWanted(w) && SelectReplica(w.spec, ViewOf(w)).Some?
    && (HasTimedOut(l, PrimaryDbCount) ==> ViewOf(w).PrimaryReady())
  }

  predicate PrimaryCreationDue(w: World, l: Lock) {
    && PrimaryTurn(w, l) && w.cluster == map[] && !HasTimedOut(l, PrimaryDbCount)
    && (w.spec.replicas == 1 || w.status.enforcedReplicas <= 0)
  }

  function DeletionCall(v: View, a: Replies): (c: Call)
  {
    match v.primary
    case None => Call(DeletePrimary, 0, false)
    case Some(i) => Call(DeletePrimary, i, a.deleteOk)
  }

  /** The call made for the primary, if any. */
  function PrimaryCalls(w: World, l: Lock, a: Replies): (c: seq<Call>)
    ensures |c| <= 1
    ensures forall x :: x in c ==> x.verb in {CreatePrimary, DeletePrimary, PromoteReplica}
  {
    if FailoverDue(w, l) then
      if WaitIsOver(l) then [Call(PromoteReplica, SelectReplica(w.spec, ViewOf(w)).value, a.promoteOk)]
      else [DeletionCall(ViewOf(w), a)]
    else if PrimaryCreationDue(w, l) then [Call(CreatePrimary, LoneIndex(w, a), a.createOk)]
    else []
  }

  /** How the base configuration decides about the turn of the primary. */
  lemma BaseDecides(w: World, p: Pass, a: Replies)
    requires Starts(p, w, ViewOf(w)) && Settled(p.lock)
    ensures var b := EnforceBaseConfig(p, ViewOf(w), a);
            && (!b.failed && ConsidersPrimary(b) <==> PrimaryTurn(w, p.lock))
            && (PrimaryTurn(w, p.lock) ==>
                  if p.lock.active.id == PrimaryDbCount then b.lock == p.lock else b.lock.active == NONE)
  {
  }

  lemma RefreshedLock(b: Pass, v: View)
    requires !OtherActive(b.lock, PrimaryDbCount)
    requires b.lock.active.hasTimedOut ==> b.lock.active.step != TransitionStep
    ensures var q := Refreshed(b, v);
            && (HasTimedOut(q.lock, PrimaryDbCount) <==> HasTimedOut(b.lock, PrimaryDbCount) && !v.PrimaryReady())
            && WaitIsOver(q.lock) == WaitIsOver(b.lock)
            && !OtherActive(q.lock, PrimaryDbCount)
            && q.calls == b.calls && q.cluster == b.cluster && q.failed == b.failed && q.lastCreated == b.lastCreated
            && q.spec == b.spec
  {
  }

  lemma NothingDeployed(w: World)
    ensures ViewOf(w).primary.None? && |ViewOf(w).replicas| == 0 <==> w.cluster == map[]
  {
    ViewFacts(w);
    RolesPartition(w.cluster);
  }

  /** The two questions asked of the refreshed pass. */
  lemma RefreshedAsks(w: World, q: Pass)
    requires q.enforced == EnforcedNow(w) && q.spec == w.spec && !w.spec.standby
    ensures ShouldFailOver(q, ViewOf(w)) <==> FailoverWanted(w)
    ensures ShouldDeployPrimary(q, ViewOf(w)) <==>
              w.cluster == map[] && (w.spec.replicas == 1 || w.status.enforcedReplicas <= 0)
    ensures ShouldDeployPrimary(q, ViewOf(w)) ==> !FailoverWanted(w)
  {
    NothingDeployed(w);
  }

  lemma FailOverDecides(q: Pass, v: View, a: Replies)
    requires q.calls == [] && !q.failed && !OtherActive(q.lock, PrimaryDbCount) && q.cluster == v.sets
    ensures FailOver(q, v, a).calls
            == (if HasTimedOut(q.lock, PrimaryDbCount) then []
                else match SelectReplica(q.spec, v)
                     case None => []
                     case Some(i) =>
                       if WaitIsOver(q.lock) then [Call(PromoteReplica, i, a.promoteOk)] else [DeletionCall(v, a)])
  {
    match SelectReplica(q.spec, v)
    case None =>
    case Some(i) =>
      StartFacts(q, PrimaryDbCount, FailingOver, i, [], a.now);
      StartFacts(DeleteOldPrimary(q, v, a), PrimaryDbCount, WaitingBeforeFailingOver, i, [], a.now);
  }

  lemma DeployDecides(q: Pass, a: Replies)
    requires q.calls == [] && !q.failed && !OtherActive(q.lock, PrimaryDbCount) && q.cluster == map[]
    ensures DeployPrimary(q, a).calls
            == if HasTimedOut(q.lock, PrimaryDbCount) then []
               else [Call(CreatePrimary, NewPrimaryIndex(q, a), a.createOk)]
  {
    StartFacts(q, PrimaryDbCount, PrimaryDbDeploying, NewPrimaryIndex(q, a), [], a.now);
  }

  /** The pass `q` refreshed for the primary's turn decides as the guards say of lock `l`. */
  lemma TurnDecides(w: World, l: Lock, q: Pass, a: Replies)
    requires PrimaryTurn(w, l) && q.enforced == EnforcedNow(w) && q.spec == w.spec
    requires q.lastCreated == w.status.lastCreated && q.calls == [] && !q.failed && q.cluster == w.cluster
    requires !OtherActive(q.lock, PrimaryDbCount) && WaitIsOver(q.lock) == WaitIsOver(l)
    requires HasTimedOut(q.lock, PrimaryDbCount) <==> HasTimedOut(l, PrimaryDbCount) && !ViewOf(w).PrimaryReady()
    ensures var v := ViewOf(w);
            var r := if ShouldFailOver(q, v) then FailOver(q, v, a)
                     else if ShouldDeployPrimary(q, v) then DeployPrimary(q, a)
                     else q;
            r.calls == PrimaryCalls(w, l, a)
  {
    var v := ViewOf(w);
    RefreshedAsks(w, q);
    if FailoverWanted(w) {
      FailOverDecides(q, v, a);
    } else if ShouldDeployPrimary(q, v) {
      DeployDecides(q, a);
      assert !v.PrimaryReady() by { NothingDeployed(w); }
    }
  }

  lemma PrimaryDecides(w: World, p: Pass, a: Replies)
    requires Starts(p, w, ViewOf(w)) && Settled(p.lock)
    ensures var c := ChainOf(p, ViewOf(w), a);
            if c.base.failed then PrimaryCalls(w, p.lock, a) == []
            else c.primary.calls == PrimaryCalls(w, p.lock, a)
  {
    var v := ViewOf(w);
    var b := EnforceBaseConfig(p, v, a);
    BaseDecides(w, p, a);
    BaseConfigFacts(p, v, a);
    RefreshedFacts(w, p, v, a);
    if !b.failed {
      PrimaryShape(b, v, a);
      if ConsidersPrimary(b) {
        RefreshedLock(b, v);
        TurnDecides(w, p.lock, Refreshed(b, v), a);
      }
    }
  }

  // ---------- The replicas ----------

  /** The enforcement of the replicas is not blocked: nothing else is active or was started, or a
      promotion has just failed. */
  predicate ReplicaTurn(w: World, l: Lock, a: Replies) {
    var v, id := ViewOf(w), l.active.id;
    && (w.spec.standby || v.PrimaryReady())
    && (|| (id == ReplicaDbCount && l.active.hasTimedOut && FailedReplicaFixed(l, v))
        || (w.baseConfig && (id == NoOperation || id == BaseConfigCount) && (w.spec.standby || !FailoverWanted(w)))
        || (!w.spec.standby && id == PrimaryDbCount && l.active.hasTimedOut && !FailoverWanted(w))
        || (WaitIsOver(l) && FailoverDue(w, l) && !a.promoteOk))
  }

  /** A replica is missing, and the user has not forbidden to replace one that was there. */
  predicate ScaleUpDue(w: World) {
    && |ViewOf(w).replicas| < ExpectedReplicas(w.spec.replicas, w.spec.standby)
    && !(w.spec.failoverDisabled && w.spec.promotePod.None? && w.spec.replicas <= EnforcedNow(w))
  }

  /** The scaling call, if any: deploy one, remove the highest index, or remove the first
      unready one. */
  function ScaleCalls(w: World, a: Replies): (c: seq<Call>)
    ensures |c| <= 1
    ensures forall x :: x in c ==> x.verb in {CreateReplica, DeleteReplica}
    ensures ScaleUpDue(w) ==>
              c == [Call(CreateReplica, w.status.lastCreated + 1, a.createOk && w.status.lastCreated + 1 !in w.cluster)]
    ensures !ScaleUpDue(w) && c != [] ==> c[0].verb == DeleteReplica
  {
    if |ViewOf(w).replicas| < ExpectedReplicas(w.spec.replicas, w.spec.standby) then
      if !ScaleUpDue(w) then []
      else [Call(CreateReplica, w.status.lastCreated + 1, a.createOk && w.status.lastCreated + 1 !in w.cluster)]
    else RemovalCalls(w, a)
  }

  function RemovalCalls(w: World, a: Replies): (c: seq<Call>)
    ensures |c| <= 1
    ensures forall x :: x in c ==> x.verb == DeleteReplica
  {
    var v := ViewOf(w);
    if ExpectedReplicas(w.spec.replicas, w.spec.standby) < |v.replicas| then
      if |v.replicas| == 0 then [] else [Call(DeleteReplica, v.replicas[|v.replicas| - 1], a.deleteOk)]
    else
      match FirstUnready(v.replicas, v)
      case None => []
      case Some(i) => [Call(DeleteReplica, i, a.deleteOk)]
  }

  function ReplicaCalls(w: World, l: Lock, a: Replies): (c: seq<Call>)
    ensures |c| <= 1
    ensures forall x :: x in c ==> x.verb in {CreateReplica, DeleteReplica}
  {
    if ReplicaTurn(w, l, a) then ScaleCalls(w, a) else []
  }

  lemma DeployReplicaCalls(p: Pass, a: Replies)
    requires p.calls == [] && !p.failed && !OtherActive(p.lock, ReplicaDbCount)
    ensures var i := p.lastCreated + 1;
            DeployReplica(p, a).calls == [Call(CreateReplica, i, a.createOk && i !in p.cluster)]
  {
    StartFacts(p, ReplicaDbCount, ReplicaDbDeploying, p.lastCreated + 1, [], a.now);
  }

  /** The pass with which the scaling decision starts. */
  predicate ReadyToScale(w: World, q: Pass) {
    && Untouched(q, ViewOf(w)) && !q.failed && !OtherActive(q.lock, ReplicaDbCount)
    && q.enforced == EnforcedNow(w) && q.lastCreated == w.status.lastCreated
    && q.spec == w.spec.(promotePod := None)
  }

  lemma ScaleUpDecides(w: World, q: Pass, a: Replies)
    requires ReadyToScale(w, q) && ExpectedReplicas(w.spec.replicas, w.spec.standby) > |ViewOf(w).replicas|
    ensures ScaleReplicas(q, ViewOf(w), w.spec.promotePod.Some?, a).calls == ScaleCalls(w, a)
  {
    DeployReplicaCalls(q, a);
  }

  lemma ScaleDownDecides(w: World, q: Pass, a: Replies)
    requires ReadyToScale(w, q) && ExpectedReplicas(w.spec.replicas, w.spec.standby) < |ViewOf(w).replicas|
    ensures ScaleReplicas(q, ViewOf(w), w.spec.promotePod.Some?, a).calls == RemovalCalls(w, a)
  {
    var v := ViewOf(w);
    if |v.replicas| > 0 {
      HighestFirst(v.replicas);
      UndeployReplicaFacts(q, v, Reversed(v.replicas)[0], a);
    }
  }

  lemma HighestFirst(q: seq<nat>)
    requires q != []
    ensures Reversed(q) != [] && Reversed(q)[0] == q[|q| - 1]
  {
  }

  lemma ReplaceDecides(w: World, q: Pass, a: Replies)
    requires ReadyToScale(w, q) && ExpectedReplicas(w.spec.replicas, w.spec.standby) == |ViewOf(w).replicas|
    ensures ScaleReplicas(q, ViewOf(w), w.spec.promotePod.Some?, a).calls == RemovalCalls(w, a)
  {
    var v := ViewOf(w);
    if FirstUnready(v.replicas, v).Some? {
      UndeployReplicaFacts(q, v, FirstUnready(v.replicas, v).value, a);
    }
  }

  lemma ScaleDecides(w: World, q: Pass, a: Replies)
    requires ReadyToScale(w, q)
    ensures ScaleReplicas(q, ViewOf(w), w.spec.promotePod.Some?, a).calls == ScaleCalls(w, a)
  {
    if ExpectedReplicas(w.spec.replicas, w.spec.standby) > |ViewOf(w).replicas| {
      ScaleUpDecides(w, q, a);
    } else if ExpectedReplicas(w.spec.replicas, w.spec.standby) < |ViewOf(w).replicas| {
      ScaleDownDecides(w, q, a);
    } else {
      ReplaceDecides(w, q, a);
    }
  }

  lemma ReplicasDecide(w: World, q: Pass, a: Replies)
    requires Midway(w, q, ViewOf(w))
    ensures EnforceReplicas(q, ViewOf(w), a).calls == if Scales(q, ViewOf(w)) then ScaleCalls(w, a) else []
  {
    ReplicaShape(q, ViewOf(w), a);
    if Scales(q, ViewOf(w)) {
      ScaleDecides(w, Cleared(q, a), a);
    }
  }

  /** A failover that was due leaves its own operation active, unless the promotion fails. */
  lemma FailOverLeaves(q: Pass, v: View, a: Replies)
    requires !q.failed && !OtherActive(q.lock, PrimaryDbCount) && q.cluster == v.sets
    requires !HasTimedOut(q.lock, PrimaryDbCount)
    ensures var r, s := FailOver(q, v, a), SelectReplica(q.spec, v);
            && r.failed == s.None?
            && (s.Some? ==>
                  if WaitIsOver(q.lock) && !a.promoteOk then r.lock.active == NONE
                  else r.lock.active.id == PrimaryDbCount)
  {
    match SelectReplica(q.spec, v)
    case None =>
    case Some(i) =>
      StartFacts(q, PrimaryDbCount, FailingOver, i, [], a.now);
      StartFacts(DeleteOldPrimary(q, v, a), PrimaryDbCount, WaitingBeforeFailingOver, i, [], a.now);
  }

  /** Whether the replicas have their turn after `EnforcePrimary` did its part on `b`, beside a
      ready primary: a failover was wanted. */
  lemma TurnAfterFailover(w: World, b: Pass, a: Replies)
    requires Untouched(b, ViewOf(w)) && !b.failed && b.spec == w.spec && ConsidersPrimary(b)
    requires Refreshed(b, ViewOf(w)).enforced == EnforcedNow(w)
    requires ViewOf(w).PrimaryReady() && FailoverWanted(w)
    ensures var q, v := EnforcePrimary(b, ViewOf(w), a), ViewOf(w);
            !q.failed && Scales(q, v) <==> SelectReplica(w.spec, v).Some? && WaitIsOver(b.lock) && !a.promoteOk
  {
    var v := ViewOf(w);
    var q := Refreshed(b, v);
    PrimaryShape(b, v, a);
    RefreshedLock(b, v);
    RefreshedAsks(w, q);
    FailOverLeaves(q, v, a);
    FailOverKeepsStandby(q, v, a);
    ScalesByLock(FailOver(q, v, a), v);
  }

  /** No failover was wanted. */
  lemma TurnOtherwise(w: World, b: Pass, a: Replies)
    requires Untouched(b, ViewOf(w)) && !b.failed && b.spec == w.spec && ConsidersPrimary(b)
    requires Refreshed(b, ViewOf(w)).enforced == EnforcedNow(w)
    requires ViewOf(w).PrimaryReady() && !FailoverWanted(w)
    ensures var q, v := EnforcePrimary(b, ViewOf(w), a), ViewOf(w);
            !q.failed && Scales(q, v) <==> b.lock.active.id == NoOperation || HasTimedOut(b.lock, PrimaryDbCount)
  {
    var v := ViewOf(w);
    PrimaryShape(b, v, a);
    RefreshedLock(b, v);
    RefreshedAsks(w, Refreshed(b, v));
    NothingDeployed(w);
    RefreshedTurn(b, v);
  }

  lemma FailOverKeepsStandby(q: Pass, v: View, a: Replies)
    ensures FailOver(q, v, a).spec == q.spec
  {
  }

  lemma RefreshedTurn(b: Pass, v: View)
    requires ConsidersPrimary(b) && v.PrimaryReady()
    ensures Scales(Refreshed(b, v), v) <==> b.lock.active.id == NoOperation || HasTimedOut(b.lock, PrimaryDbCount)
  {
  }

  /** What the base configuration leaves of a lock that is not the primary's turn. */
  lemma BaseLock(w: World, p: Pass, a: Replies)
    requires Starts(p, w, ViewOf(w)) && Settled(p.lock)
    ensures var b, id := EnforceBaseConfig(p, ViewOf(w), a), p.lock.active.id;
            && b.spec == p.spec
            && if id != NoOperation && id != BaseConfigCount then b == p
               else if w.baseConfig then b.lock.active == NONE && !b.failed
               else b.failed || b.lock.active.id == BaseConfigCount
  {
  }

  lemma NotConsidered(b: Pass, v: View, a: Replies)
    requires !ConsidersPrimary(b)
    ensures var q := EnforcePrimary(b, v, a); q.lock == b.lock && q.spec == b.spec && q.failed == b.failed
  {
  }

  /** When the replicas may scale, read from a lock. */
  lemma ScalesByLock(q: Pass, v: View)
    ensures q.lock.active == NONE ==> (Scales(q, v) <==> q.spec.standby || v.PrimaryReady())
    ensures OtherActive(q.lock, ReplicaDbCount) ==> !Scales(q, v)
    ensures q.lock.active.id == ReplicaDbCount ==>
              (Scales(q, v) <==>
                 q.lock.active.hasTimedOut && FailedReplicaFixed(q.lock, v) && (q.spec.standby || v.PrimaryReady()))
  {
  }

  lemma OthersKeepTurn(w: World, p: Pass, a: Replies)
    requires Starts(p, w, ViewOf(w)) && Settled(p.lock) && !PrimaryTurn(w, p.lock)
    ensures var c := ChainOf(p, ViewOf(w), a);
            (!c.base.failed && !c.primary.failed && Scales(c.primary, ViewOf(w))) <==> ReplicaTurn(w, p.lock, a)
  {
    var v := ViewOf(w);
    var c := ChainOf(p, v, a);
    BaseLock(w, p, a);
    BaseDecides(w, p, a);
    if !c.base.failed {
      NotConsidered(c.base, v, a);
      ScalesByLock(c.primary, v);
    }
  }

  lemma PrimaryPassesTurn(w: World, p: Pass, a: Replies)
    requires Starts(p, w, ViewOf(w)) && Settled(p.lock) && PrimaryTurn(w, p.lock)
    ensures var c := ChainOf(p, ViewOf(w), a);
            (!c.base.failed && !c.primary.failed && Scales(c.primary, ViewOf(w))) <==> ReplicaTurn(w, p.lock, a)
  {
    var v := ViewOf(w);
    var b := EnforceBaseConfig(p, v, a);
    BaseDecides(w, p, a);
    RefreshedFacts(w, p, v, a);
    if v.PrimaryReady() {
      if FailoverWanted(w) {
        TurnAfterFailover(w, b, a);
      } else {
        TurnOtherwise(w, b, a);
      }
    } else {
      NoTurn(b, v, a);
    }
  }

  lemma NoTurn(b: Pass, v: View, a: Replies)
    requires !b.spec.standby && !v.PrimaryReady()
    ensures !Scales(EnforcePrimary(b, v, a), v)
  {
  }

  /** The enforcement of the primary leaves the lock as it is, free, or with its own operation. */
  lemma LockAfterPrimary(b: Pass, v: View, a: Replies)
    requires Untouched(b, v) && !b.failed
    ensures var l := EnforcePrimary(b, v, a).lock; l == b.lock || l.active.id in {NoOperation, PrimaryDbCount}
  {
    var r := EnforcePrimary(b, v, a);
    if r.calls == [] {
      PrimaryIdles(b, v, a);
    } else {
      PrimaryActs(b, v, a);
      LockOfCall(b, v, a, r);
    }
  }

  lemma LockOfCall(b: Pass, v: View, a: Replies, r: Pass)
    requires OneCall(b.spec.storage, b.spec.fields, r, v, a.now) && PrimaryCall(Refreshed(b, v), r, v, a)
    ensures r.lock.active.id in {NoOperation, PrimaryDbCount}
  {
  }

  /** The lock that the enforcement of the replicas meets, unless it is free or about something
      else, is the one that was loaded. */
  lemma LockAfterBoth(w: World, p: Pass, a: Replies)
    requires Starts(p, w, ViewOf(w)) && Settled(p.lock)
    requires !EnforceBaseConfig(p, ViewOf(w), a).failed
    ensures var l := ChainOf(p, ViewOf(w), a).primary.lock;
            l == p.lock || l.active.id in {NoOperation, BaseConfigCount, PrimaryDbCount}
  {
    BaseConfigFacts(p, ViewOf(w), a);
    LockAfterPrimary(EnforceBaseConfig(p, ViewOf(w), a), ViewOf(w), a);
  }

  // ---------- The calls of a reconcile ----------

  predicate OnlyUpdates(u: seq<Call>) {
    |u| <= 1 && forall c :: c in u ==> c.verb == UpdateFields
  }

  /** The calls are `x`, then `y`, then at most one update. */
  ghost predicate Consists(calls: seq<Call>, x: seq<Call>, y: seq<Call>) {
    exists u :: OnlyUpdates(u) && calls == x + (y + u)
  }

  /** What the replicas do in their turn. */
  function TurnCalls(turn: bool, w: World, a: Replies): (c: seq<Call>)
  {
    if turn then ScaleCalls(w, a) else []
  }

  lemma TailConsists(w: World, q: Pass, a: Replies, o: Stage)
    requires Midway(w, q, ViewOf(w))
    requires var r, s := Tail(q, ViewOf(w), a), EnforceReplicas(q, ViewOf(w), a);
             && (o.ByFields? ==> s.calls == [] && OnlyUpdates(r.calls)) && (!o.ByFields? ==> r.calls == s.calls)
    ensures Consists(Tail(q, ViewOf(w), a).calls, [], TurnCalls(Scales(q, ViewOf(w)), w, a))
  {
    ReplicasDecide(w, q, a);
    Parts(Tail(q, ViewOf(w), a).calls, TurnCalls(Scales(q, ViewOf(w)), w, a), o.ByFields?);
  }

  lemma Parts(calls: seq<Call>, y: seq<Call>, updated: bool)
    requires if updated then y == [] && OnlyUpdates(calls) else calls == y
    ensures Consists(calls, [], y)
  {
    if updated {
      assert OnlyUpdates(calls) && calls == [] + (y + calls);
    } else {
      assert OnlyUpdates([]) && calls == [] + (y + []);
    }
  }

  lemma TailStage(q: Pass, v: View, a: Replies) returns (o: Stage)
    requires Untouched(q, v) && !q.failed
    ensures var r, s := Tail(q, v, a), EnforceReplicas(q, v, a);
            && (o.ByFields? ==> s.calls == [] && OnlyUpdates(r.calls)) && (!o.ByFields? ==> r.calls == s.calls)
  {
    o := TailActs(q, v, a);
    if o.ByFields? {
      FieldsAct(EnforceReplicas(q, v, a), v, a);
    }
  }

  lemma TailCalls(w: World, q: Pass, a: Replies)
    requires Midway(w, q, ViewOf(w))
    ensures Consists(Tail(q, ViewOf(w), a).calls, [], TurnCalls(Scales(q, ViewOf(w)), w, a))
  {
    var o := TailStage(q, ViewOf(w), a);
    TailConsists(w, q, a, o);
  }

  lemma TurnOfReplicas(w: World, p: Pass, a: Replies)
    requires Starts(p, w, ViewOf(w)) && Settled(p.lock)
    ensures var c := ChainOf(p, ViewOf(w), a);
            (!c.base.failed && !c.primary.failed && Scales(c.primary, ViewOf(w))) <==> ReplicaTurn(w, p.lock, a)
  {
    if PrimaryTurn(w, p.lock) {
      PrimaryPassesTurn(w, p, a);
    } else {
      OthersKeepTurn(w, p, a);
    }
  }

  lemma ConsistsAfter(first: Call, calls: seq<Call>, y: seq<Call>)
    requires Consists(calls, [], y)
    ensures Consists([first] + calls, [first], y)
  {
    var u :| OnlyUpdates(u) && calls == [] + (y + u);
    assert [first] + calls == [first] + (y + u);
  }

  lemma CallsAfterPromotion(w: World, q: Pass, a: Replies)
    requires FailedPromotion(q, ViewOf(w)) && q.spec == w.spec
    requires q.enforced == EnforcedNow(w) && q.lastCreated == w.status.lastCreated
    ensures Consists(Tail(q, ViewOf(w), a).calls, q.calls, TurnCalls(Scales(q, ViewOf(w)), w, a))
  {
    var v, first, q0 := ViewOf(w), q.calls[0], q.(calls := []);
    assert Following(first, q0) == q && q.calls == [first];
    TailFollows(first, q0, v, a);
    TailCalls(w, q0, a);
    ConsistsAfter(first, Tail(q0, v, a).calls, TurnCalls(Scales(q0, v), w, a));
    assert Scales(q0, v) == Scales(q, v);
  }

  /** The calls from the pass that the enforcement of the primary leaves. */
  lemma CallsAfterPrimary(w: World, p: Pass, a: Replies)
    requires Starts(p, w, ViewOf(w))
    requires var c := ChainOf(p, ViewOf(w), a); !c.base.failed && !c.primary.failed
    ensures var q := ChainOf(p, ViewOf(w), a).primary;
            Consists(Tail(q, ViewOf(w), a).calls, q.calls, TurnCalls(Scales(q, ViewOf(w)), w, a))
  {
    var v := ViewOf(w);
    var c := ChainOf(p, v, a);
    var q := c.primary;
    BaseConfigFacts(p, v, a);
    if q.calls == [] {
      IdleCounters(w, p, v, a);
      TailCalls(w, q, a);
    } else {
      PrimaryJustified(w, p, v, a);
      PrimaryEnds(c.base, v, a);
      if FailedPromotion(q, v) {
        CallsAfterPromotion(w, q, a);
      } else {
        assert OnlyUpdates([]) && q.calls == q.calls + ([] + []);
      }
    }
  }

  lemma ChainCalls(w: World, p: Pass, a: Replies)
    requires Starts(p, w, ViewOf(w)) && Settled(p.lock)
    ensures Consists(EnforceAll(p, ViewOf(w), a).calls, PrimaryCalls(w, p.lock, a), ReplicaCalls(w, p.lock, a))
  {
    var v := ViewOf(w);
    var c := ChainOf(p, v, a);
    AllShape(p, v, a);
    PrimaryDecides(w, p, a);
    TurnOfReplicas(w, p, a);
    if c.base.failed {
      BaseConfigFacts(p, v, a);
      assert OnlyUpdates([]) && c.base.calls == [] + ([] + []);
    } else if c.primary.failed {
      assert OnlyUpdates([]) && c.primary.calls == c.primary.calls + ([] + []);
    } else {
      CallsAfterPrimary(w, p, a);
      assert TurnCalls(Scales(c.primary, v), w, a) == ReplicaCalls(w, p.lock, a);
    }
  }

  /** Exactly which calls a reconcile makes: none unless it reaches the enforcers; then the one
      decided for the primary, the one decided for the replicas, and at most one update. */
  lemma CallsExactly(w: World, a: Replies)
    requires Readable(w) && a.now >= 0
    ensures if Enforces(w, a)
            then Consists(CallsOf(w, a), PrimaryCalls(w, Begin(w, a).lock, a), ReplicaCalls(w, Begin(w, a).lock, a))
            else CallsOf(w, a) == []
  {
    BeginStarts(w, a);
    if Enforces(w, a) {
      EnforcesSettled(w, a);
      ChainCalls(w, Begin(w, a), a);
    }
  }

  // ---------- Two calls in one reconcile ----------

  /** The wait of a pending failover is over when the reconcile starts. */
  predicate WaitOverAt(s: Status, now: int) {
    && s.operation.id == PrimaryDbCount
    && (|| s.operation.step == TransitionStep
        || (s.operation.step == WaitingBeforeFailingOver && s.operation.timeOut <= now))
  }

  lemma WaitOverLoads(w: World, a: Replies)
    requires Readable(w) && a.now >= 0
    ensures WaitIsOver(Begin(w, a).lock) <==> WaitOverAt(w.status, a.now)
  {
  }

  predicate ScalingDue(w: World) {
    var v := ViewOf(w);
    |v.replicas| != ExpectedReplicas(w.spec.replicas, false) || exists i :: i in v.replicas && !v.Ready(i)
  }

  predicate FieldsDue(w: World) {
    exists i :: i in w.cluster && w.cluster[i].fields != w.spec.fields
  }

  lemma ScalingAfterRequest(w: World, a: Replies)
    requires !w.spec.standby && w.spec.promotePod.Some?
    ensures ScaleCalls(w, a) != [] <==> ScalingDue(w)
  {
    assert ScaleUpDue(w) <==> |ViewOf(w).replicas| < ExpectedReplicas(w.spec.replicas, false);
    if !ScaleUpDue(w) {
      RemovalDue(w, a);
    }
  }

  lemma RemovalDue(w: World, a: Replies)
    requires !w.spec.standby && ExpectedReplicas(w.spec.replicas, false) <= |ViewOf(w).replicas|
    ensures RemovalCalls(w, a) != [] <==> ScalingDue(w)
  {
    var v := ViewOf(w);
    if FirstUnready(v.replicas, v).Some? {
      assert FirstUnready(v.replicas, v).value in v.replicas;
    }
  }

  /** The rollout order holds every replica, and the primary unless it runs elsewhere. */
  lemma OrderCovers(w: World, standby: bool, i: nat)
    requires |Primaries(w.cluster)| <= 1
    ensures i in RolloutOrder(standby, ViewOf(w)) <==> i in w.cluster && (standby ==> w.cluster[i].role.Replica?)
  {
    ViewFacts(w);
    var v := ViewOf(w);
    var order := RolloutOrder(standby, v);
    if !standby && v.primary.Some? {
      assert order == Reversed(v.replicas) + [v.primary.value];
      assert v.primary.value in order;
    }
    if i in w.cluster {
      match w.cluster[i].role {
        case Primary => assert v.primary == Some(i);
        case Replica => assert i in v.replicas && i in Reversed(v.replicas);
      }
    }
  }

  /** With a free lock, the rollout updates something exactly when something differs. */
  lemma FreeFields(w: World, s: Pass, a: Replies)
    requires |Primaries(w.cluster)| <= 1 && !IsActive(s.lock) && Untouched(s, ViewOf(w)) && !s.failed
    requires s.spec.fields == w.spec.fields && !s.spec.standby && ViewOf(w).PrimaryReady()
    ensures EnforceFields(s, ViewOf(w), a).calls != [] <==> FieldsDue(w)
  {
    var v := ViewOf(w);
    var order := RolloutOrder(false, v);
    var k := FreeRollout(s, v, order, a);
    if k >= 0 {
      var i := order[k];
      OrderCovers(w, false, i);
      NoDifference(w.spec.fields, w.cluster[i].fields);
      UpdateOneFacts(s, v, i, DifferencesAt(w.spec.fields, v, i), a);
    } else {
      forall i | i in w.cluster ensures w.cluster[i].fields == w.spec.fields {
        OrderCovers(w, false, i);
        NoDifference(w.spec.fields, w.cluster[i].fields);
        var j :| 0 <= j < |order| && order[j] == i;
        assert DifferencesAt(w.spec.fields, v, order[j]) == [];
      }
    }
  }

  lemma FreeTailActs(w: World, q: Pass, a: Replies)
    requires |Primaries(w.cluster)| <= 1 && Midway(w, q, ViewOf(w)) && q.lock.active == NONE
    requires !w.spec.standby && ViewOf(w).PrimaryReady()
    ensures Tail(q, ViewOf(w), a).calls != [] <==> ScaleCalls(w, a) != [] || (a.servicesOk && FieldsDue(w))
  {
    var v := ViewOf(w);
    var s := EnforceReplicas(q, v, a);
    var o := TailActs(q, v, a);
    ReplicasDecide(w, q, a);
    if s.calls == [] && !s.failed {
      ReplicaIdles(q, v, a);
      FreeFields(w, s, a);
    }
  }

  /** A promotion is due that will fail beside a ready primary, and there is something else to
      do. */
  predicate SecondCallDue(w: World, a: Replies) {
    && Enforces(w, a) && FailoverDue(w, Begin(w, a).lock) && WaitOverAt(w.status, a.now)
    && !a.promoteOk && ViewOf(w).PrimaryReady()
    && (ScalingDue(w) || (a.servicesOk && FieldsDue(w)))
  }

  /** A due promotion that fails beside a ready primary. */
  predicate PromotionFailsDue(w: World, l: Lock, a: Replies) {
    && FailoverDue(w, l) && WaitIsOver(l) && !a.promoteOk && ViewOf(w).PrimaryReady() && |Primaries(w.cluster)| <= 1
  }

  lemma PromotionTried(w: World, p: Pass, a: Replies)
    requires Starts(p, w, ViewOf(w)) && Settled(p.lock) && PromotionFailsDue(w, p.lock, a)
    ensures var c := ChainOf(p, ViewOf(w), a);
            && !c.base.failed && FailedPromotion(c.primary, ViewOf(w)) && c.primary.spec == w.spec
            && c.primary.enforced == EnforcedNow(w) && c.primary.lastCreated == w.status.lastCreated
  {
    var v := ViewOf(w);
    var c := ChainOf(p, v, a);
    PromotionCalled(w, p, a);
    BaseConfigFacts(p, v, a);
    PromotionGoesOn(w, c.base, a);
    PrimaryJustified(w, p, v, a);
    PromotionCounts(w, p.lock, c.primary, a);
  }

  lemma PromotionCalled(w: World, p: Pass, a: Replies)
    requires Starts(p, w, ViewOf(w)) && Settled(p.lock) && PromotionFailsDue(w, p.lock, a)
    ensures var c := ChainOf(p, ViewOf(w), a);
            && !c.base.failed && |c.primary.calls| == 1
            && c.primary.calls[0].verb == PromoteReplica && !c.primary.calls[0].ok
  {
    PrimaryDecides(w, p, a);
    assert PrimaryCalls(w, p.lock, a) == [Call(PromoteReplica, SelectReplica(w.spec, ViewOf(w)).value, false)];
  }

  lemma PromotionCounts(w: World, l: Lock, q: Pass, a: Replies)
    requires Accounted(w, ViewOf(w), l, a, q) && q.calls[0].verb == PromoteReplica
    ensures q.enforced == EnforcedNow(w) && q.lastCreated == w.status.lastCreated
  {
  }

  lemma PromotionFails(w: World, p: Pass, a: Replies)
    requires Starts(p, w, ViewOf(w)) && Settled(p.lock) && PromotionFailsDue(w, p.lock, a)
    ensures |EnforceAll(p, ViewOf(w), a).calls| == 2 <==> ScaleCalls(w, a) != [] || (a.servicesOk && FieldsDue(w))
  {
    PromotionTried(w, p, a);
    AllShape(p, ViewOf(w), a);
    TailAfterPromotion(w, ChainOf(p, ViewOf(w), a).primary, a);
  }

  lemma PromotionGoesOn(w: World, b: Pass, a: Replies)
    requires Untouched(b, ViewOf(w)) && !b.failed
    requires var q := EnforcePrimary(b, ViewOf(w), a);
             |q.calls| == 1 && q.calls[0].verb == PromoteReplica && !q.calls[0].ok
    requires ViewOf(w).PrimaryReady()
    ensures FailedPromotion(EnforcePrimary(b, ViewOf(w), a), ViewOf(w))
  {
    PrimaryActs(b, ViewOf(w), a);
  }

  lemma TailAfterPromotion(w: World, q: Pass, a: Replies)
    requires FailedPromotion(q, ViewOf(w)) && q.spec == w.spec && !w.spec.standby
    requires q.enforced == EnforcedNow(w) && q.lastCreated == w.status.lastCreated && |Primaries(w.cluster)| <= 1
    ensures |Tail(q, ViewOf(w), a).calls| == 2 <==> ScaleCalls(w, a) != [] || (a.servicesOk && FieldsDue(w))
  {
    var v, first, q0 := ViewOf(w), q.calls[0], q.(calls := []);
    assert Following(first, q0) == q && q.calls == [first];
    TailFollows(first, q0, v, a);
    FreeTailActs(w, q0, a);
    var _ := TailActs(q0, v, a);
  }

  /** A reconcile makes a second call if and only if a due promotion fails beside a ready primary
      while scaling or an update is due. */
  lemma SecondCallExactly(w: World, a: Replies)
    requires Readable(w) && a.now >= 0
    ensures |CallsOf(w, a)| == 2 <==> SecondCallDue(w, a)
  {
    var l := Begin(w, a).lock;
    BeginStarts(w, a);
    WaitOverLoads(w, a);
    FinishFacts(w, a);
    CallsExactly(w, a);
    if Enforces(w, a) {
      EnforcesSettled(w, a);
      if FailoverDue(w, l) && WaitIsOver(l) && !a.promoteOk && ViewOf(w).PrimaryReady() {
        assert w.spec.promotePod.Some?;
        ScalingAfterRequest(w, a);
        PromotionFails(w, Begin(w, a), a);
      } else {
        NoSecondCall(w, l, CallsOf(w, a), a);
      }
    }
  }

  lemma NoSecondCall(w: World, l: Lock, calls: seq<Call>, a: Replies)
    requires Consists(calls, PrimaryCalls(w, l, a), ReplicaCalls(w, l, a))
    requires |calls| == 2 ==> calls[0].verb == PromoteReplica && !calls[0].ok
    ensures |calls| == 2 ==> FailoverDue(w, l) && WaitIsOver(l) && !a.promoteOk
  {
    var x, y := PrimaryCalls(w, l, a), ReplicaCalls(w, l, a);
    var u :| OnlyUpdates(u) && calls == x + (y + u);
    assert x == [] ==> calls == y + u;
    assert |calls| == 2 ==> calls[0] in calls;
  }

  // ---------- Creations ----------

  predicate Creates(c: Call) {
    c.verb == CreatePrimary || c.verb == CreateReplica
  }

  predicate ReplicaCreationDue(w: World, l: Lock, a: Replies) {
    ReplicaTurn(w, l, a) && ScaleUpDue(w)
  }

  /** A StatefulSet is to be created, its name is free, and the API creates it. */
  predicate CreationSucceeds(w: World, a: Replies) {
    var l := Begin(w, a).lock;
    && Enforces(w, a) && a.createOk
    && (PrimaryCreationDue(w, l) || (ReplicaCreationDue(w, l, a) && w.status.lastCreated + 1 !in w.cluster))
  }

  predicate HasCreation(calls: seq<Call>) {
    exists c :: c in calls && Creates(c) && c.ok
  }

  lemma CreationAmong(calls: seq<Call>, x: seq<Call>, y: seq<Call>)
    requires Consists(calls, x, y)
    ensures HasCreation(calls) <==> HasCreation(x) || HasCreation(y)
  {
    var u :| OnlyUpdates(u) && calls == x + (y + u);
    if HasCreation(x) {
      var c :| c in x && Creates(c) && c.ok;
      assert c in calls;
    }
    if HasCreation(y) {
      var c :| c in y && Creates(c) && c.ok;
      assert c in calls;
    }
  }

  lemma SameCreations(calls: seq<Call>, fewer: seq<Call>)
    requires Fewer(calls, fewer)
    ensures HasCreation(calls) <==> HasCreation(fewer)
  {
    if HasCreation(calls) {
      var c :| c in calls && Creates(c) && c.ok;
      assert c in fewer;
    }
    if HasCreation(fewer) {
      var c :| c in fewer && Creates(c) && c.ok;
      assert c in calls;
    }
  }

  lemma CreationInOne(x: seq<Call>)
    requires |x| <= 1
    ensures HasCreation(x) <==> x != [] && Creates(x[0]) && x[0].ok
  {
    assert x != [] ==> x[0] in x;
  }

  lemma PrimaryCreates(w: World, l: Lock, a: Replies)
    ensures HasCreation(PrimaryCalls(w, l, a)) <==> PrimaryCreationDue(w, l) && a.createOk
  {
    CreationInOne(PrimaryCalls(w, l, a));
    CreationExcludesFailover(w, l);
  }

  lemma ScaleCreates(w: World, a: Replies)
    ensures var c := ScaleCalls(w, a);
            c != [] && Creates(c[0]) && c[0].ok <==>
              ScaleUpDue(w) && a.createOk && w.status.lastCreated + 1 !in w.cluster
  {
  }

  lemma ReplicaCreates(w: World, l: Lock, a: Replies)
    ensures HasCreation(ReplicaCalls(w, l, a)) <==>
              ReplicaCreationDue(w, l, a) && a.createOk && w.status.lastCreated + 1 !in w.cluster
  {
    CreationInOne(ReplicaCalls(w, l, a));
    ScaleCreates(w, a);
  }

  /** Exactly when a reconcile creates a StatefulSet. */
  lemma CreationExactly(w: World, a: Replies)
    requires Readable(w) && a.now >= 0
    ensures HasCreation(CallsOf(w, a)) <==> CreationSucceeds(w, a)
  {
    var l := Begin(w, a).lock;
    CallsExactly(w, a);
    PrimaryCreates(w, l, a);
    ReplicaCreates(w, l, a);
    if Enforces(w, a) {
      CreationAmong(CallsOf(w, a), PrimaryCalls(w, l, a), ReplicaCalls(w, l, a));
    }
  }

  // ---------- The agreement of lock and cluster ----------

  /** A wait is recorded beside an old primary that could not be deleted, or a primary is made and
      the record still says that one is to be promoted. */
  predicate LosesAgreement(w: World, a: Replies) {
    var l := Begin(w, a).lock;
    && Enforces(w, a)
    && (|| (FailoverDue(w, l) && !WaitOverAt(w.status, a.now)
            && Primaries(w.cluster) != {} && !a.deleteOk && a.statusOk)
        || (FailoverDue(w, l) && WaitOverAt(w.status, a.now) && a.promoteOk && !a.statusOk)
        || (PrimaryCreationDue(w, l) && FailoverPending(w.status.operation) && a.createOk && !a.statusOk))
  }

  /** The calls for the primary are those decided for it. */
  lemma PrimaryVerbs(w: World, l: Lock, calls: seq<Call>, a: Replies, c: Call)
    requires Consists(calls, PrimaryCalls(w, l, a), ReplicaCalls(w, l, a))
    requires c.verb in {CreatePrimary, DeletePrimary, PromoteReplica}
    ensures c in calls <==> c in PrimaryCalls(w, l, a)
  {
    var x, y := PrimaryCalls(w, l, a), ReplicaCalls(w, l, a);
    var u :| OnlyUpdates(u) && calls == x + (y + u);
  }

  lemma CarefulSame(w: World, l: Lock, calls: seq<Call>, a: Replies)
    requires Consists(calls, PrimaryCalls(w, l, a), ReplicaCalls(w, l, a))
    ensures Careful(w, calls, a) <==> Careful(w, PrimaryCalls(w, l, a), a)
  {
    forall c: Call | LeavesOldPrimary(w, c) || MakesPrimary(c)
      ensures c in calls <==> c in PrimaryCalls(w, l, a)
    {
      PrimaryVerbs(w, l, calls, a, c);
    }
  }

  /** A single call loses the agreement. */
  predicate Loses(w: World, c: Call, a: Replies) {
    || (LeavesOldPrimary(w, c) && a.statusOk)
    || (MakesPrimary(c) && FailoverPending(w.status.operation) && !a.statusOk)
  }

  lemma CarefulOne(w: World, x: seq<Call>, a: Replies)
    requires |x| <= 1
    ensures Careful(w, x, a) <==> x == [] || !Loses(w, x[0], a)
  {
    assert x != [] ==> x[0] in x;
  }

  lemma DeletionLoses(w: World, a: Replies)
    ensures Loses(w, DeletionCall(ViewOf(w), a), a) <==> Primaries(w.cluster) != {} && !a.deleteOk && a.statusOk
  {
    ViewFacts(w);
  }

  lemma CarefulFrom(w: World, l: Lock, calls: seq<Call>, a: Replies)
    requires Consists(calls, PrimaryCalls(w, l, a), ReplicaCalls(w, l, a))
    requires WaitIsOver(l) ==> FailoverPending(w.status.operation)
    ensures Careful(w, calls, a) <==>
              && !(FailoverDue(w, l) && !WaitIsOver(l) && Primaries(w.cluster) != {} && !a.deleteOk && a.statusOk)
              && !(FailoverDue(w, l) && WaitIsOver(l) && a.promoteOk && !a.statusOk)
              && !(PrimaryCreationDue(w, l) && FailoverPending(w.status.operation) && a.createOk && !a.statusOk)
  {
    CarefulSame(w, l, calls, a);
    CarefulOne(w, PrimaryCalls(w, l, a), a);
    CreationExcludesFailover(w, l);
    if FailoverDue(w, l) && !WaitIsOver(l) {
      DeletionLoses(w, a);
    }
  }

  lemma CreationExcludesFailover(w: World, l: Lock)
    ensures !(FailoverDue(w, l) && PrimaryCreationDue(w, l))
  {
    NothingDeployed(w);
  }

  lemma CarefulByGuards(w: World, a: Replies)
    requires Readable(w) && a.now >= 0
    ensures Careful(w, CallsOf(w, a), a) <==> !LosesAgreement(w, a)
  {
    CallsExactly(w, a);
    WaitOverLoads(w, a);
    if Enforces(w, a) {
      CarefulFrom(w, Begin(w, a).lock, CallsOf(w, a), a);
    }
  }

  /** A reconcile keeps lock and cluster in agreement if and only if it does not lose it in one of
      the three ways; even then it leaves at most one primary. */
  lemma SoundStep(w: World, a: Replies)
    requires Sound(w) && a.now >= 0
    ensures Sound(Reconcile(w, a)) <==> !LosesAgreement(w, a)
    ensures |Primaries(Reconcile(w, a).cluster)| <= 1
  {
    SoundByCalls(w, a);
    CarefulByGuards(w, a);
  }
}
