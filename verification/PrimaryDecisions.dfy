/** What is done for the primary, said of the cluster, the pods and the specification. */
module PrimaryDecisions {
  import opened Resources
  import opened BlockingOperations
  import opened Snapshots
  import opened Enforcement
  import opened Reconciling
  import opened Effects
  import opened Steps
  import opened Decisions

  /** The user asks for instance `i`: its pod is listed and it is a replica. */
  predicate AskedFor(w: World, i: nat) {
    w.spec.promotePod == Some(i) && i > 0 && i in w.pods && i in ReplicaKeys(w.cluster)
  }

  predicate ReadyReplica(w: World, i: nat) {
    i in ReplicaKeys(w.cluster) && w.cluster[i].ready
  }

  predicate HasReadyPrimary(w: World) {
    exists i :: i in Primaries(w.cluster) && w.cluster[i].ready
  }

  /** Who is to be promoted: the ready replica that the user asks for, or without such a request
      the ready replica with the lowest index. */
  ghost predicate Successor(w: World, i: nat) {
    && ReadyReplica(w, i)
    && if exists j :: AskedFor(w, j) then AskedFor(w, i) else forall j :: ReadyReplica(w, j) ==> i <= j
  }

  /** A failover to `i` is due under lock `l`: the user asks for one, or there is no ready primary
      and failover is not forbidden; a failover that timed out is only tried beside a ready
      primary. */
  ghost predicate FailoverTo(w: World, l: Lock, i: nat) {
    && PrimaryTurn(w, l) && EnforcedNow(w) > 0 && Successor(w, i)
    && ((exists j :: AskedFor(w, j)) || (!HasReadyPrimary(w) && !w.spec.failoverDisabled))
    && (HasTimedOut(l, PrimaryDbCount) ==> HasReadyPrimary(w))
  }

  lemma RequestMeans(w: World)
    ensures ManualRequested(w.spec, ViewOf(w)) <==> exists j :: AskedFor(w, j)
  {
    ViewFacts(w);
    if ManualRequested(w.spec, ViewOf(w)) {
      assert AskedFor(w, w.spec.promotePod.value);
    }
  }

  lemma ReadyPrimaryMeans(w: World)
    requires |Primaries(w.cluster)| <= 1
    ensures ViewOf(w).PrimaryReady() <==> HasReadyPrimary(w)
  {
    ViewFacts(w);
    if ViewOf(w).PrimaryReady() {
      assert ViewOf(w).primary.value in Primaries(w.cluster);
    }
  }

  lemma ReadyReplicaShown(w: World, i: nat)
    ensures ReadyReplica(w, i) <==> i in ViewOf(w).replicas && ViewOf(w).Ready(i)
  {
  }

  lemma FirstReadyMeans(w: World, i: nat)
    ensures var v := ViewOf(w);
            FirstReady(v.replicas, v) == Some(i) <==> ReadyReplica(w, i) && forall j :: ReadyReplica(w, j) ==> i <= j
  {
    var v := ViewOf(w);
    var f := FirstReady(v.replicas, v);
    ReadyReplicaShown(w, i);
    if f.Some? {
      ReadyReplicaShown(w, f.value);
    }
    forall j | ReadyReplica(w, j) ensures f.Some? && f.value <= j {
      ReadyReplicaShown(w, j);
      FirstReadyIsLowest(v.replicas, v, j);
    }
  }

  lemma AskedSuccessor(w: World, j: nat, i: nat)
    requires AskedFor(w, j)
    ensures SelectReplica(w.spec, ViewOf(w)) == Some(i) <==> i == j && ReadyReplica(w, i)
    ensures AskedFor(w, i) <==> i == j
  {
    RequestMeans(w);
    ReadyReplicaShown(w, j);
    assert ManualIndex(w.spec, ViewOf(w)) == j;
  }

  /** The two selection loops find the successor. */
  lemma SuccessorMeans(w: World, i: nat)
    ensures SelectReplica(w.spec, ViewOf(w)) == Some(i) <==> Successor(w, i)
  {
    RequestMeans(w);
    if j :| AskedFor(w, j) {
      AskedSuccessor(w, j, i);
    } else {
      FirstReadyMeans(w, i);
    }
  }

  lemma FailoverMeans(w: World, l: Lock, i: nat)
    requires |Primaries(w.cluster)| <= 1
    ensures FailoverTo(w, l, i) <==> FailoverDue(w, l) && SelectReplica(w.spec, ViewOf(w)) == Some(i)
  {
    SuccessorMeans(w, i);
    RequestMeans(w);
    ReadyPrimaryMeans(w);
  }

  /** The call for the primary that is due under lock `l`: without a deployed StatefulSet a new
      primary, under its old index if it is a lone one and its claim is there; for a failover the
      deletion of the old primary first, and the promotion once the wait is over. */
  ghost predicate CallForPrimary(w: World, l: Lock, c: Call, a: Replies) {
    match c.verb
    case CreatePrimary =>
      && PrimaryTurn(w, l) && w.cluster == map[] && !HasTimedOut(l, PrimaryDbCount)
      && (w.spec.replicas == 1 || w.status.enforcedReplicas <= 0)
      && c.ok == a.createOk
      && (if w.spec.replicas <= 1 && w.status.lastCreated != 0 && a.claimExists then c.index == w.status.lastCreated
          else c.index == w.status.lastCreated + 1)
    case DeletePrimary =>
      && (exists i :: FailoverTo(w, l, i)) && !WaitIsOver(l)
      && (if Primaries(w.cluster) == {} then c.index == 0 && !c.ok
          else c.index in Primaries(w.cluster) && c.ok == a.deleteOk)
    case PromoteReplica => FailoverTo(w, l, c.index) && WaitIsOver(l) && c.ok == a.promoteOk
    case _ => false
  }

  lemma DeletionMeans(w: World, c: Call, a: Replies)
    requires |Primaries(w.cluster)| <= 1 && c.verb == DeletePrimary
    ensures c == DeletionCall(ViewOf(w), a) <==>
              if Primaries(w.cluster) == {} then c.index == 0 && !c.ok
              else c.index in Primaries(w.cluster) && c.ok == a.deleteOk
  {
    ViewFacts(w);
  }

  lemma PromotionMeans(w: World, l: Lock, c: Call, a: Replies)
    requires |Primaries(w.cluster)| <= 1 && FailoverDue(w, l) && WaitIsOver(l)
    ensures c in PrimaryCalls(w, l, a) <==> CallForPrimary(w, l, c, a)
  {
    CreationExcludesFailover(w, l);
    FailoverMeans(w, l, c.index);
  }

  lemma StartMeans(w: World, l: Lock, c: Call, a: Replies)
    requires |Primaries(w.cluster)| <= 1 && FailoverDue(w, l) && !WaitIsOver(l)
    ensures c in PrimaryCalls(w, l, a) <==> CallForPrimary(w, l, c, a)
  {
    CreationExcludesFailover(w, l);
    FailoverMeans(w, l, SelectReplica(w.spec, ViewOf(w)).value);
    if c.verb == DeletePrimary {
      DeletionMeans(w, c, a);
    }
  }

  lemma OtherCallMeans(w: World, l: Lock, c: Call, a: Replies)
    requires |Primaries(w.cluster)| <= 1 && !FailoverDue(w, l)
    ensures c in PrimaryCalls(w, l, a) <==> CallForPrimary(w, l, c, a)
  {
    forall i ensures !FailoverTo(w, l, i) {
      FailoverMeans(w, l, i);
    }
  }

  /** Exactly what a reconcile does for the primary. */
  lemma PrimaryCallExactly(w: World, a: Replies, c: Call)
    requires Readable(w) && a.now >= 0 && c.verb in {CreatePrimary, DeletePrimary, PromoteReplica}
    ensures c in CallsOf(w, a) <==> Enforces(w, a) && CallForPrimary(w, Begin(w, a).lock, c, a)
  {
    var l := Begin(w, a).lock;
    CallsExactly(w, a);
    if Enforces(w, a) {
      PrimaryVerbs(w, l, CallsOf(w, a), a, c);
      if !FailoverDue(w, l) {
        OtherCallMeans(w, l, c, a);
      } else if WaitIsOver(l) {
        PromotionMeans(w, l, c, a);
      } else {
        StartMeans(w, l, c, a);
      }
    }
  }
}
