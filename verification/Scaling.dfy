/** Scaling comes to an end: with the spec constant, a ready primary and no faults, every call
    brings the replicas closer to what is asked for, however often the operator has to wait. */
module Scaling {
  import opened Resources
  import opened BlockingOperations
  import opened Snapshots
  import opened Enforcement
  import opened Reconciling
  import opened Effects
  import opened Steps
  import opened Runs

  /** Nothing but the number and the readiness of replicas is left to enforce. */
  predicate OnlyReplicasLeft(s: Spec, v: View) {
    && !s.standby && !s.failoverDisabled && s.promotePod.None?
    && v.baseConfig && v.PrimaryReady()
    && forall i :: i in v.sets ==> v.sets[i].fields == s.fields
  }

  lemma {:induction false} RolloutDoesNothing(p: Pass, v: View, order: seq<nat>, a: Replies)
    requires !IsActive(p.lock) && forall i :: i in v.sets ==> v.sets[i].fields == p.spec.fields
    ensures Rollout(p, v, order, a) == p
    decreases |order|
  {
    if order != [] {
      RolloutDoesNothing(p, v, order[1..], a);
    }
  }

  /** The whole chain then amounts to one scaling decision. */
  lemma ScalingChain(p: Pass, v: View, a: Replies)
    requires Untouched(p, v) && !p.failed && !IsActive(p.lock) && OnlyReplicasLeft(p.spec, v) && a.servicesOk
    ensures EnforceAll(p, v, a) == ScaleReplicas(InitialiseEnforced(p, v), v, false, a)
  {
    var q := InitialiseEnforced(p, v);
    assert EnforceBaseConfig(p, v, a) == p;
    assert EnforcePrimary(p, v, a) == q by {
      PrimaryShape(p, v, a);
      assert !ManualRequested(p.spec, v);
    }
    var s := EnforceReplicas(q, v, a);
    assert s == ScaleReplicas(q, v, false, a) by {
      ReplicaShape(q, v, a);
    }
    ScaleFacts(q, v, false, a);
    AllShape(p, v, a);
    if s.calls != [] {
      if !s.failed {
        NothingAfterReplica(s, v, a);
      }
    } else {
      RolloutDoesNothing(q, v, RolloutOrder(q.spec.standby, v), a);
    }
  }

  function UnreadyReplicas(c: Cluster): (s: set<nat>)
  {
    set i | i in c && c[i].role.Replica? && !c[i].ready
  }

  function Gap(replicas: int, c: Cluster): (n: nat)
  {
    var d := ExpectedReplicas(replicas, false) - |ReplicaKeys(c)|;
    if d < 0 then -d else d
  }

  // ---------- One scaling decision ----------

  /** A reconcile in a calm moment: no faults, and the last replica operation, if any, is
      completed in time. */
  predicate Calm(w: World, a: Replies) {
    && Sound(w) && a.now >= 0
    && OnlyReplicasLeft(w.spec, ViewOf(w)) && w.spec.otherwiseValid && w.spec.replicas >= 1
    && (forall i :: i in w.cluster && w.cluster[i].role.Primary? ==> w.cluster[i].storage == w.spec.storage)
    && (forall i :: i in w.cluster ==> i <= w.status.lastCreated)
    && a.createOk && a.deleteOk && a.servicesOk && a.statusOk
    && (|| w.status.operation == NONE
        || (&& w.status.operation.id == ReplicaDbCount && w.status.operation.timeOut > a.now
            && Completed(w.status.operation, w.spec, ViewOf(w), a.now)))
  }

  lemma CalmStarts(w: World, a: Replies)
    requires Calm(w, a)
    ensures var p, v := Begin(w, a), ViewOf(w);
            && Starts(p, w, v) && !IsActive(p.lock) && p.lock.saved == NONE
            && Finish(w, a) == ScaleReplicas(InitialiseEnforced(p, v), v, false, a)
  {
    BeginStarts(w, a);
    ViewFacts(w);
    ScalingChain(Begin(w, a), ViewOf(w), a);
  }

  /** The decision taken, read from the view. */
  ghost predicate Scaled(w: World, a: Replies, v: View, f: Pass) {
    var missing := ExpectedReplicas(w.spec.replicas, false) - |v.replicas|;
    if missing == 0 && FirstUnready(v.replicas, v).None? then
      f.calls == [] && f.cluster == w.cluster && f.lock.saved == NONE && f.lastCreated == w.status.lastCreated
    else
      && |f.calls| == 1 && f.calls[0].ok
      && f.cluster == Applied(w.cluster, f.calls[0], w.spec.storage, w.spec.fields)
      && HeldFor(f.lock, f.calls[0], a.now)
      && if missing > 0 then
           f.calls[0] == Call(CreateReplica, w.status.lastCreated + 1, true)
           && f.lastCreated == w.status.lastCreated + 1
         else
           && f.calls[0].verb == DeleteReplica && f.calls[0].index in v.replicas
           && (missing == 0 ==> !v.Ready(f.calls[0].index)) && f.lastCreated == w.status.lastCreated
  }

  lemma CalmOutcome(w: World, a: Replies)
    requires Calm(w, a)
    ensures Scaled(w, a, ViewOf(w), Finish(w, a))
  {
    CalmStarts(w, a);
    ViewFacts(w);
    var v, p := ViewOf(w), Begin(w, a);
    OutcomeFrom(w, InitialiseEnforced(p, v), v, a);
  }

  lemma OutcomeFrom(w: World, q: Pass, v: View, a: Replies)
    requires Untouched(q, v) && !q.failed && !IsActive(q.lock) && q.lock.saved == NONE && v.sets == w.cluster
    requires q.spec == w.spec && !w.spec.standby && !w.spec.failoverDisabled
    requires q.lastCreated == w.status.lastCreated && a.createOk && a.deleteOk
    requires forall i :: i in w.cluster ==> i <= w.status.lastCreated
    ensures Scaled(w, a, v, ScaleReplicas(q, v, false, a))
  {
    var missing := ExpectedReplicas(w.spec.replicas, false) - |v.replicas|;
    if missing > 0 {
      DeployReplicaFacts(q, v, a);
    } else if missing < 0 {
      UndeployReplicaFacts(q, v, Reversed(v.replicas)[0], a);
      assert Reversed(v.replicas)[0] in v.replicas;
    } else if FirstUnready(v.replicas, v).Some? {
      UndeployReplicaFacts(q, v, FirstUnready(v.replicas, v).value, a);
    }
  }

  // ---------- Between the decisions ----------

  /** What a scaling decision leaves in the lock. */
  predicate LeftBehind(op: Operation, c: Cluster) {
    || op == NONE
    || (&& op.id == ReplicaDbCount
        && (|| (op.step == ReplicaDbDeploying && op.index in c && c[op.index].role.Replica?)
            || (op.step == ReplicaDbUndeploying && op.index !in c)))
  }

  lemma ScaledLeaves(w: World, a: Replies, v: View, f: Pass)
    requires Scaled(w, a, v, f)
    ensures LeftBehind(f.lock.saved, f.cluster)
  {
  }

  /** What scaling keeps of a cluster: the primary as it is, the wanted fields everywhere,
      indices within the counter. */
  ghost predicate Tidy(c: Cluster, s: Spec, lastCreated: nat, p: nat) {
    && p in c && c[p].role.Primary? && c[p].ready && c[p].storage == s.storage
    && (forall i :: i in c ==> c[i].fields == s.fields && i <= lastCreated && (c[i].role.Primary? ==> i == p))
  }

  lemma ScaledTidy(w: World, a: Replies, v: View, f: Pass, p: nat)
    requires Scaled(w, a, v, f) && Tidy(w.cluster, w.spec, w.status.lastCreated, p) && p !in v.replicas
    ensures Tidy(f.cluster, w.spec, f.lastCreated, p)
  {
    if f.calls != [] {
      var call := f.calls[0];
      forall i | i in f.cluster
        ensures f.cluster[i].fields == w.spec.fields && i <= f.lastCreated && (f.cluster[i].role.Primary? ==> i == p)
      {
        if i != call.index { assert i in w.cluster && f.cluster[i] == w.cluster[i]; }
      }
    }
  }

  lemma TidyView(w: World, p: nat)
    requires Tidy(w.cluster, w.spec, w.status.lastCreated, p)
    requires !w.spec.standby && !w.spec.failoverDisabled && w.spec.promotePod.None? && w.baseConfig
    ensures |Primaries(w.cluster)| <= 1 && OnlyReplicasLeft(w.spec, ViewOf(w))
  {
    assert Primaries(w.cluster) == {p};
    ViewFacts(w);
  }

  lemma SettledTidy(w: World, w': World, p: nat)
    requires Settles(w, w') && Tidy(w.cluster, w.spec, w.status.lastCreated, p)
    ensures Tidy(w'.cluster, w'.spec, w'.status.lastCreated, p)
  {
    forall i | i in w'.cluster
      ensures w'.cluster[i].fields == w'.spec.fields && i <= w'.status.lastCreated
              && (w'.cluster[i].role.Primary? ==> i == p)
    {
      assert i in w.cluster.Keys;
    }
    assert p in w.cluster.Keys;
  }

  /** What a calm reconcile writes. */
  lemma CalmWrites(w: World, a: Replies)
    requires Calm(w, a)
    ensures var f := Finish(w, a);
            && Reconcile(w, a) == World(w.spec, Status(f.lock.saved, f.lock.previous, f.enforced, f.lastCreated),
                                        f.cluster, w.pods, w.baseConfig)
            && Sound(Reconcile(w, a))
  {
    CalmIsSound(w, a);
    CalmSettings(w, a);
  }

  lemma CalmIsSound(w: World, a: Replies)
    requires Calm(w, a)
    ensures Sound(Reconcile(w, a))
  {
    CalmOutcome(w, a);
    SoundByCalls(w, a);
    CalmIsCareful(w, a, Finish(w, a));
  }

  lemma CalmIsCareful(w: World, a: Replies, f: Pass)
    requires Scaled(w, a, ViewOf(w), f)
    ensures Careful(w, f.calls, a)
  {
  }

  lemma CalmSettings(w: World, a: Replies)
    requires Calm(w, a)
    ensures var f := Finish(w, a); f.stored == w.spec && f.pods == w.pods && f.baseConfig == w.baseConfig
  {
    CalmStarts(w, a);
    BeginStarts(w, a);
    ScalingKeepsSettings(InitialiseEnforced(Begin(w, a), ViewOf(w)), ViewOf(w), a);
  }

  lemma ScalingKeepsSettings(q: Pass, v: View, a: Replies)
    ensures SameSettings(q, ScaleReplicas(q, v, false, a))
  {
  }

  /** The spec is settled but for the replicas, and the lock is free or held by a replica
      operation. */
  predicate Quiet(w: World) {
    && Readable(w) && |Primaries(w.cluster)| <= 1
    && OnlyReplicasLeft(w.spec, ViewOf(w)) && w.spec.otherwiseValid && w.spec.replicas >= 1
    && (forall i :: i in w.cluster && w.cluster[i].role.Primary? ==> w.cluster[i].storage == w.spec.storage)
    && (forall i :: i in w.cluster ==> i <= w.status.lastCreated)
    && LeftBehind(w.status.operation, w.cluster)
  }

  /** The reconcile meets no fault and comes before the time-out of what was started. */
  predicate InTime(w: World, a: Replies) {
    && a.now >= 0 && a.createOk && a.deleteOk && a.servicesOk && a.statusOk
    && (w.status.operation == NONE || a.now < w.status.operation.timeOut)
  }

  /** The replica being deployed is not ready yet. */
  predicate Waits(w: World) {
    var op := w.status.operation;
    op.step == ReplicaDbDeploying && op.index in w.cluster && !w.cluster[op.index].ready
  }

  /** Between two reconciles: what was ready stays ready, nothing comes or goes. */
  ghost predicate Settles(w: World, w': World) {
    && w'.status == w.status && w'.spec == w.spec && w'.baseConfig == w.baseConfig
    && w'.cluster.Keys == w.cluster.Keys
    && forall i :: i in w.cluster ==>
         && w'.cluster[i] == w.cluster[i].(ready := w'.cluster[i].ready)
         && (w.cluster[i].ready ==> w'.cluster[i].ready)
  }

  /** A reconcile that waits leaves the world exactly as it is. */
  lemma WaitingChangesNothing(w: World, a: Replies)
    requires Quiet(w) && InTime(w, a) && Waits(w)
    ensures CallsOf(w, a) == [] && Reconcile(w, a) == w
  {
    ViewFacts(w);
    var op, l := w.status.operation, Begin(w, a).lock;
    assert !Completed(op, w.spec, ViewOf(w), a.now);
    assert l == Lock(op, w.status.previous, op) && RequeueAfter(l, a.now) > 0;
  }

  lemma CompletedUnlessWaiting(w: World, now: int)
    requires LeftBehind(w.status.operation, w.cluster) && w.status.operation != NONE && !Waits(w)
    ensures Completed(w.status.operation, w.spec, ViewOf(w), now)
  {
    ViewFacts(w);
  }

  /** A reconcile that does not wait decides. */
  lemma CalmUnlessWaiting(w: World, a: Replies)
    requires Quiet(w) && InTime(w, a) && !Waits(w)
    ensures Calm(w, a)
  {
    if w.status.operation != NONE {
      CompletedUnlessWaiting(w, a.now);
    }
  }

  lemma QuietIsTidy(w: World) returns (p: nat)
    requires Quiet(w)
    ensures Tidy(w.cluster, w.spec, w.status.lastCreated, p) && p !in ViewOf(w).replicas
  {
    ViewFacts(w);
    p := ViewOf(w).primary.value;
  }

  lemma QuietFromTidy(w: World, p: nat)
    requires Readable(w) && Tidy(w.cluster, w.spec, w.status.lastCreated, p)
    requires !w.spec.standby && !w.spec.failoverDisabled && w.spec.promotePod.None? && w.baseConfig
    requires w.spec.otherwiseValid && w.spec.replicas >= 1 && LeftBehind(w.status.operation, w.cluster)
    ensures Quiet(w)
  {
    TidyView(w, p);
  }

  /** Every reconcile keeps the stretch quiet. */
  lemma DecisionStaysQuiet(w: World, a: Replies)
    requires Quiet(w) && InTime(w, a) && !Waits(w)
    ensures Quiet(Reconcile(w, a)) && Reconcile(w, a).spec == w.spec
  {
    CalmUnlessWaiting(w, a);
    var p := QuietIsTidy(w);
    CalmOutcome(w, a);
    CalmWrites(w, a);
    ScaledTidy(w, a, ViewOf(w), Finish(w, a), p);
    ScaledLeaves(w, a, ViewOf(w), Finish(w, a));
    QuietFromTidy(Reconcile(w, a), p);
  }

  lemma SettlingStaysQuiet(w: World, w': World)
    requires Quiet(w) && Settles(w, w')
    ensures Quiet(w')
  {
    var p := QuietIsTidy(w);
    SettledTidy(w, w', p);
    assert w.status.operation.index in w.cluster <==> w.status.operation.index in w'.cluster.Keys;
    QuietFromTidy(w', p);
  }

  // ---------- The measure ----------

  lemma SizeOfSets(s: set<nat>, t: set<nat>)
    requires s <= t
    ensures |s| <= |t| && (s != t ==> |s| < |t|)
  {
    assert t == s + (t - s);
    if s != t {
      assert t - s != {};
    }
  }

  lemma ReplicaAdded(c: Cluster, i: nat, c': Cluster)
    requires i !in c && c'.Keys == c.Keys + {i} && c'[i].role.Replica?
    requires forall k :: k in c ==> c'[k].role == c[k].role
    ensures |ReplicaKeys(c')| == |ReplicaKeys(c)| + 1
  {
    assert ReplicaKeys(c') == ReplicaKeys(c) + {i};
  }

  /** The replicas that have to be replaced: the unready ones, except the one being deployed. */
  function ToReplace(w: World): (s: set<nat>)
  {
    set i | i in UnreadyReplicas(w.cluster)
            && !(w.status.operation.step == ReplicaDbDeploying && i == w.status.operation.index)
  }

  /** How far the replicas are from what is asked for. Replacing an unready replica costs one
      removal and one deployment, hence the weight. */
  function Distance(w: World): (n: nat)
  {
    2 * |ToReplace(w)| + Gap(w.spec.replicas, w.cluster)
  }

  /** The pair (replicas to replace, gap) gets smaller, and so does the distance. */
  predicate Closer(w: World, w': World) {
    var u, u' := |ToReplace(w)|, |ToReplace(w')|;
    var g, g' := Gap(w.spec.replicas, w.cluster), Gap(w'.spec.replicas, w'.cluster);
    (u' < u || (u' == u && g' < g)) && Distance(w') < Distance(w)
  }

  /** The wanted number of replicas is deployed, and all of them are ready. */
  predicate Done(w: World) {
    |ReplicaKeys(w.cluster)| == ExpectedReplicas(w.spec.replicas, false) && UnreadyReplicas(w.cluster) == {}
  }

  lemma NotWaitingReplaces(w: World)
    requires LeftBehind(w.status.operation, w.cluster) && !Waits(w)
    ensures ToReplace(w) == UnreadyReplicas(w.cluster)
    ensures Distance(w) == 0 <==> Done(w)
  {
  }

  lemma DoneInView(w: World)
    ensures var v := ViewOf(w);
            Done(w) <==> ExpectedReplicas(w.spec.replicas, false) == |v.replicas| && FirstUnready(v.replicas, v).None?
  {
    ViewFacts(w);
    var v := ViewOf(w);
    if FirstUnready(v.replicas, v).Some? {
      assert FirstUnready(v.replicas, v).value in UnreadyReplicas(w.cluster);
    } else {
      assert UnreadyReplicas(w.cluster) == {};
    }
  }

  /** Settling brings nothing further away. */
  lemma SettlingKeepsDistance(w: World, w': World)
    requires Settles(w, w')
    ensures Distance(w') <= Distance(w)
  {
    assert ReplicaKeys(w'.cluster) == ReplicaKeys(w.cluster) by {
      forall i ensures i in ReplicaKeys(w'.cluster) <==> i in ReplicaKeys(w.cluster) {
        assert i in w'.cluster.Keys <==> i in w.cluster.Keys;
      }
    }
    SizeOfSets(ToReplace(w'), ToReplace(w)) by {
      forall i | i in ToReplace(w') ensures i in ToReplace(w) {
        assert i in w.cluster.Keys;
      }
    }
  }

  lemma CreationCloser(w: World, w': World, i: nat)
    requires ToReplace(w) == UnreadyReplicas(w.cluster) && w'.spec == w.spec
    requires i !in w.cluster && ExpectedReplicas(w.spec.replicas, false) > |ReplicaKeys(w.cluster)|
    requires w'.cluster == w.cluster[i := StatefulSet(Replica, false, w.spec.storage, w.spec.fields)]
    requires w'.status.operation.step == ReplicaDbDeploying && w'.status.operation.index == i
    ensures Closer(w, w')
  {
    var c, c' := w.cluster, w'.cluster;
    OneFewer(c, i, c', w.spec.replicas);
    assert ToReplace(w') == ToReplace(w) by {
      UnreadyAdded(c, i, c');
    }
  }

  lemma OneFewer(c: Cluster, i: nat, c': Cluster, replicas: int)
    requires i !in c && c'.Keys == c.Keys + {i} && c'[i].role.Replica?
    requires forall k :: k in c ==> c'[k].role == c[k].role
    requires ExpectedReplicas(replicas, false) > |ReplicaKeys(c)|
    ensures Gap(replicas, c') == Gap(replicas, c) - 1
  {
    ReplicaAdded(c, i, c');
  }

  lemma UnreadyAdded(c: Cluster, i: nat, c': Cluster)
    requires i !in c && c'.Keys == c.Keys + {i} && c'[i].role.Replica? && !c'[i].ready
    requires forall k :: k in c ==> c'[k] == c[k]
    ensures UnreadyReplicas(c') - {i} == UnreadyReplicas(c)
  {
    forall k ensures k in UnreadyReplicas(c') - {i} <==> k in UnreadyReplicas(c) {
      assert k in c' <==> k in c || k == i;
    }
  }

  lemma DeletionCloser(w: World, w': World, i: nat)
    requires ToReplace(w) == UnreadyReplicas(w.cluster) && w'.spec == w.spec
    requires i in w.cluster && w.cluster[i].role.Replica?
    requires ExpectedReplicas(w.spec.replicas, false) <= |ReplicaKeys(w.cluster)|
    requires ExpectedReplicas(w.spec.replicas, false) == |ReplicaKeys(w.cluster)| ==> !w.cluster[i].ready
    requires w'.cluster == w.cluster - {i} && w'.status.operation.step != ReplicaDbDeploying
    ensures Closer(w, w')
  {
    assert ReplicaKeys(w'.cluster) == ReplicaKeys(w.cluster) - {i};
    assert ToReplace(w') == ToReplace(w) - {i};
  }

  lemma DecisionFrom(w: World, a: Replies, f: Pass, w': World)
    requires Scaled(w, a, ViewOf(w), f) && ToReplace(w) == UnreadyReplicas(w.cluster)
    requires forall i :: i in w.cluster ==> i <= w.status.lastCreated
    requires w'.spec == w.spec && w'.cluster == f.cluster && w'.status.operation == f.lock.saved
    ensures f.calls == [] <==> Done(w)
    ensures f.calls == [] ==> Distance(w') <= Distance(w)
    ensures f.calls != [] ==> Closer(w, w')
  {
    DoneInView(w);
    ViewFacts(w);
    if f.calls != [] {
      if f.calls[0].verb == CreateReplica {
        CreationCloser(w, w', w.status.lastCreated + 1);
      } else {
        DeletionCloser(w, w', f.calls[0].index);
      }
    }
  }

  /** A decision makes a call exactly when the replicas are not as wanted, and the call brings them
      closer. */
  lemma DecisionCloser(w: World, a: Replies)
    requires Quiet(w) && InTime(w, a) && !Waits(w)
    ensures CallsOf(w, a) == [] <==> Done(w)
    ensures CallsOf(w, a) == [] ==> Distance(Reconcile(w, a)) <= Distance(w)
    ensures CallsOf(w, a) != [] ==> Closer(w, Reconcile(w, a))
  {
    CalmUnlessWaiting(w, a);
    CalmOutcome(w, a);
    CalmWrites(w, a);
    NotWaitingReplaces(w);
    DecisionFrom(w, a, Finish(w, a), Reconcile(w, a));
  }

  // ---------- Stretches of a run ----------

  /** From state `i` to state `j` of a run the spec is constant, nothing fails and nothing times
      out. Reconciles come as often as they like. */
  ghost predicate ScalingStretch(r: Run, i: int, j: int)
    requires |r.states| == |r.events| + 1
  {
    && 0 <= i <= j < |r.states| && Quiet(r.states[i])
    && forall k :: i <= k < j ==> ScalingEvent(r, k)
  }

  ghost predicate ScalingEvent(r: Run, k: int)
    requires |r.states| == |r.events| + 1
  {
    && 0 <= k < |r.events|
    && if r.Reconciles(k) then InTime(r.states[k], r.events[k].replies) else Settles(r.states[k], r.states[k + 1])
  }

  /** How many reconciles between states `i` and `j` make a call. */
  ghost function CallCount(r: Run, i: int, j: int): (n: nat)
    requires 0 <= i <= j <= |r.events|
    decreases j - i
  {
    if i == j then 0
    else CallCount(r, i, j - 1) + CallCost(r, j - 1)
  }

  ghost function CallCost(r: Run, k: int): (n: nat)
  {
    if r.Reconciles(k) && |r.Calls(k)| > 0 then 1 else 0
  }

  lemma NextQuiet(r: Run, k: int)
    requires IsRun(r) && ScalingEvent(r, k) && Quiet(r.states[k])
    ensures Quiet(r.states[k + 1])
    ensures r.states[k + 1].spec == r.states[k].spec
  {
    assert r.Steps(k);
    if r.Reconciles(k) {
      ScalingReconcile(r.states[k], r.events[k].replies);
    } else {
      SettlingStaysQuiet(r.states[k], r.states[k + 1]);
    }
  }

  lemma NextActs(r: Run, k: int)
    requires IsRun(r) && ScalingEvent(r, k) && Quiet(r.states[k]) && r.Reconciles(k)
    ensures r.Calls(k) == [] <==> Waits(r.states[k]) || Done(r.states[k])
    ensures if r.Calls(k) != [] then Closer(r.states[k], r.states[k + 1])
            else Distance(r.states[k + 1]) <= Distance(r.states[k])
  {
    assert r.Steps(k);
    ScalingReconcile(r.states[k], r.events[k].replies);
  }

  lemma NextCost(r: Run, k: int)
    requires IsRun(r) && ScalingEvent(r, k) && Quiet(r.states[k])
    ensures CallCost(r, k) + Distance(r.states[k + 1]) <= Distance(r.states[k])
  {
    if r.Reconciles(k) {
      NextActs(r, k);
    } else {
      SettlingKeepsDistance(r.states[k], r.states[k + 1]);
    }
  }

  lemma ScalingReconcile(w: World, a: Replies)
    requires Quiet(w) && InTime(w, a)
    ensures Quiet(Reconcile(w, a)) && Reconcile(w, a).spec == w.spec
    ensures CallsOf(w, a) == [] <==> Waits(w) || Done(w)
    ensures if CallsOf(w, a) != [] then Closer(w, Reconcile(w, a)) else Distance(Reconcile(w, a)) <= Distance(w)
  {
    if Waits(w) {
      WaitingChangesNothing(w, a);
    } else {
      DecisionStaysQuiet(w, a);
      DecisionCloser(w, a);
    }
  }

  lemma EventOf(r: Run, i: int, j: int, k: int)
    requires |r.states| == |r.events| + 1 && ScalingStretch(r, i, j) && i <= k < j
    ensures ScalingEvent(r, k)
  {
  }

  lemma {:induction false} StretchQuiet(r: Run, i: int, j: int)
    requires IsRun(r) && ScalingStretch(r, i, j)
    ensures Quiet(r.states[j]) && r.states[j].spec == r.states[i].spec
    decreases j - i
  {
    if i < j {
      var k := j - 1;
      EventOf(r, i, j, k);
      ShorterStretch(r, i, k, j);
      StretchQuiet(r, i, k);
      NextQuiet(r, k);
    }
  }

  /** A call costs a unit of the distance. */
  ghost predicate Costs(r: Run, k: int)
    requires |r.states| == |r.events| + 1 && 0 <= k < |r.events|
  {
    Pays(CallCost(r, k), Distance(r.states[k]), Distance(r.states[k + 1]))
  }

  lemma CostAt(r: Run, i: int, j: int, k: int)
    requires IsRun(r) && ScalingStretch(r, i, j) && i <= k < j
    ensures Costs(r, k)
  {
    EventOf(r, i, j, k);
    ShorterStretch(r, i, k, j);
    StretchQuiet(r, i, k);
    NextCost(r, k);
  }

  /** The calls between two states are paid for by the distance. */
  ghost predicate Bounded(r: Run, i: int, j: int)
    requires |r.states| == |r.events| + 1 && 0 <= i <= j <= |r.events|
  {
    Pays(CallCount(r, i, j), Distance(r.states[i]), Distance(r.states[j]))
  }

  /** Coming from distance `d` to distance `d'` pays for `n` calls. */
  predicate Pays(n: nat, d: nat, d': nat) {
    n + d' <= d
  }

  lemma CountStep(r: Run, i: int, k: int, j: int)
    requires 0 <= i <= k < j <= |r.events| && j == k + 1
    ensures CallCount(r, i, j) == CallCount(r, i, k) + CallCost(r, k)
  {
  }

  lemma OneMoreEvent(r: Run, i: int, k: int, j: int)
    requires |r.states| == |r.events| + 1 && 0 <= i <= k < j <= |r.events| && j == k + 1
    requires Bounded(r, i, k) && Costs(r, k)
    ensures Bounded(r, i, j)
  {
    CountStep(r, i, k, j);
  }

  lemma {:induction false} CostsAddUp(r: Run, i: int, j: int)
    requires |r.states| == |r.events| + 1 && 0 <= i <= j <= |r.events|
    requires forall k :: i <= k < j ==> Costs(r, k)
    ensures Bounded(r, i, j)
    decreases j - i
  {
    if i < j {
      var k := j - 1;
      CostsAddUp(r, i, k);
      OneMoreEvent(r, i, k, j);
    }
  }

  lemma StretchCounts(r: Run, i: int, j: int)
    requires IsRun(r) && ScalingStretch(r, i, j)
    ensures Bounded(r, i, j)
  {
    forall k | i <= k < j ensures Costs(r, k) {
      CostAt(r, i, j, k);
    }
    CostsAddUp(r, i, j);
  }

  lemma ShorterStretch(r: Run, i: int, k: int, j: int)
    requires |r.states| == |r.events| + 1 && ScalingStretch(r, i, j) && i <= k < j
    ensures ScalingStretch(r, i, k)
  {
  }

  /** Scaling terminates. In a stretch, with any number of reconciles that only wait, the operator
      makes no more calls than the distance at the start. A reconcile makes a call exactly when it
      neither waits for a replica nor finds the wanted replicas deployed and ready, and every
      call makes the pair (replicas to replace, gap) smaller in lexicographic order. */
  lemma ScalingTerminates(r: Run, i: int, j: int, k: int)
    requires IsRun(r) && ScalingStretch(r, i, j) && i <= k < j && r.Reconciles(k)
    ensures Bounded(r, i, j)
    ensures r.Calls(k) == [] <==> Waits(r.states[k]) || Done(r.states[k])
    ensures r.Calls(k) != [] ==> Closer(r.states[k], r.states[k + 1])
  {
    StretchCounts(r, i, j);
    EventOf(r, i, j, k);
    ShorterStretch(r, i, k, j);
    StretchQuiet(r, i, k);
    NextActs(r, k);
  }
}
