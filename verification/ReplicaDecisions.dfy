/** Which replica is deployed or removed, said of the cluster and of the specification. */
module ReplicaDecisions {
  import opened Resources
  import opened Snapshots
  import opened Reconciling
  import opened Effects
  import opened Steps
  import opened Decisions

  /** How many replicas the specification asks for: the primary is one of the instances, unless
      it runs elsewhere. */
  function WantedReplicas(s: Spec): (n: int)
  {
    if s.standby then s.replicas else s.replicas - 1
  }

  predicate UnreadyReplica(c: Cluster, i: nat) {
    i in ReplicaKeys(c) && !c[i].ready
  }

  /** The call that brings the replicas closer to what is wanted: with too few a new one is
      deployed, with too many the one with the highest index goes, and otherwise the unready one
      with the lowest index. */
  predicate ScalingCall(w: World, c: Call, a: Replies) {
    var replicas := ReplicaKeys(w.cluster);
    if |replicas| < WantedReplicas(w.spec) then
      && c.verb == CreateReplica && c.index == w.status.lastCreated + 1
      && c.ok == (a.createOk && c.index !in w.cluster)
      && !(w.spec.failoverDisabled && w.spec.promotePod.None? && w.spec.replicas <= EnforcedNow(w))
    else if |replicas| > WantedReplicas(w.spec) then
      && c.verb == DeleteReplica && c.ok == a.deleteOk
      && c.index in replicas && forall j :: j in replicas ==> j <= c.index
    else
      && c.verb == DeleteReplica && c.ok == a.deleteOk
      && UnreadyReplica(w.cluster, c.index) && forall j :: UnreadyReplica(w.cluster, j) ==> c.index <= j
  }

  lemma HighestLast(q: seq<nat>, i: nat)
    requires StrictlyAscending(q) && q != []
    ensures i == q[|q| - 1] <==> i in q && forall j :: j in q ==> j <= i
  {
    if i in q && forall j :: j in q ==> j <= i {
      assert q[|q| - 1] in q;
    }
  }

  lemma UnreadyShown(w: World, i: nat)
    ensures UnreadyReplica(w.cluster, i) <==> i in ViewOf(w).replicas && !ViewOf(w).Ready(i)
  {
  }

  lemma FirstUnreadyMeans(w: World, i: nat)
    ensures var v := ViewOf(w);
            FirstUnready(v.replicas, v) == Some(i) <==>
              UnreadyReplica(w.cluster, i) && forall j :: UnreadyReplica(w.cluster, j) ==> i <= j
  {
    var v := ViewOf(w);
    var f := FirstUnready(v.replicas, v);
    UnreadyShown(w, i);
    if f.Some? {
      UnreadyShown(w, f.value);
    }
    forall j | UnreadyReplica(w.cluster, j) ensures f.Some? && f.value <= j {
      UnreadyShown(w, j);
      FirstUnreadyIsLowest(v.replicas, v, j);
    }
  }

  lemma HighestMeans(w: World, i: nat)
    requires |ReplicaKeys(w.cluster)| > 0
    ensures var q, replicas := ViewOf(w).replicas, ReplicaKeys(w.cluster);
            |q| > 0 && (i == q[|q| - 1] <==> i in replicas && forall j :: j in replicas ==> j <= i)
  {
    HighestLast(ViewOf(w).replicas, i);
  }

  lemma SurplusMeans(w: World, a: Replies, c: Call)
    requires WantedReplicas(w.spec) < |ReplicaKeys(w.cluster)| && w.spec.replicas > 0
    ensures c in RemovalCalls(w, a) <==> ScalingCall(w, c, a)
  {
    var q := ViewOf(w).replicas;
    HighestMeans(w, c.index);
    assert RemovalCalls(w, a) == [Call(DeleteReplica, q[|q| - 1], a.deleteOk)];
  }

  lemma ReplacementMeans(w: World, a: Replies, c: Call)
    requires WantedReplicas(w.spec) == |ReplicaKeys(w.cluster)| && w.spec.replicas > 0
    ensures c in RemovalCalls(w, a) <==> ScalingCall(w, c, a)
  {
    FirstUnreadyMeans(w, c.index);
  }

  lemma ScalingMeans(w: World, a: Replies, c: Call)
    requires w.spec.replicas > 0
    ensures c in ScaleCalls(w, a) <==> ScalingCall(w, c, a)
  {
    if WantedReplicas(w.spec) < |ReplicaKeys(w.cluster)| {
      SurplusMeans(w, a, c);
    } else if WantedReplicas(w.spec) == |ReplicaKeys(w.cluster)| {
      ReplacementMeans(w, a, c);
    }
  }

  lemma ReplicaVerbs(calls: seq<Call>, x: seq<Call>, y: seq<Call>, c: Call)
    requires Consists(calls, x, y) && c.verb in {CreateReplica, DeleteReplica}
    requires forall d :: d in x ==> d.verb in {CreatePrimary, DeletePrimary, PromoteReplica}
    ensures c in calls <==> c in y
  {
    var u :| OnlyUpdates(u) && calls == x + (y + u);
  }

  /** Exactly which replica a reconcile deploys or removes. */
  lemma ReplicaCallExactly(w: World, a: Replies, c: Call)
    requires Readable(w) && a.now >= 0 && c.verb in {CreateReplica, DeleteReplica}
    ensures c in CallsOf(w, a) <==>
              Enforces(w, a) && ReplicaTurn(w, Begin(w, a).lock, a) && ScalingCall(w, c, a)
  {
    var l := Begin(w, a).lock;
    CallsExactly(w, a);
    if Enforces(w, a) {
      ReplicaVerbs(CallsOf(w, a), PrimaryCalls(w, l, a), ReplicaCalls(w, l, a), c);
      ScalingMeans(w, a, c);
    }
  }
}
