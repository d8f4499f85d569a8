/** How a failover ends, and what goes wrong when the record of a pending one is stale. */
module Failovers {
  import opened Resources
  import opened BlockingOperations
  import opened Snapshots
  import opened Enforcement
  import opened Reconciling
  import opened Effects
  import opened Steps
  import opened Decisions
  import opened Runs
  import opened Freezing
  import opened Records

  /** A promotion recorded at `start` is taken for completed exactly between 40 and 300
      seconds later, and only with a ready primary; from 300 seconds on it has timed out. */
  lemma CompletionWindow(w: World, a: Replies, start: int)
    requires w.status.operation
             == Operation(PrimaryDbCount, FailingOver, w.status.operation.index, [], start + 300, false)
    requires 0 <= start <= a.now
    ensures !IsActive(Begin(w, a).lock) <==> 40 <= a.now - start < 300 && ViewOf(w).PrimaryReady()
    ensures Begin(w, a).lock.active.hasTimedOut <==> a.now - start >= 300
    ensures RequeueAfter(Begin(w, a).lock, a.now) > 0 <==>
              a.now - start < 300 && (a.now - start < 40 || !ViewOf(w).PrimaryReady())
  {
  }

  lemma FailoverEndsStep(w: World, a: Replies, start: int)
    requires w.status.operation
             == Operation(PrimaryDbCount, FailingOver, w.status.operation.index, [], start + 300, false)
    requires 0 <= start <= a.now
    requires Reconcile(w, a).status.operation != w.status.operation
    ensures ViewOf(w).PrimaryReady() && a.now - start >= 40
  {
    CompletionWindow(w, a, start);
    if a.now - start >= 300 && !ViewOf(w).PrimaryReady() {
      FrozenStep(w, a);
    }
  }

  /** Event `i` promotes a replica and records it. */
  ghost predicate Promotes(r: Run, i: int) {
    && r.Reconciles(i) && r.events[i].replies.statusOk
    && exists c :: c in r.Calls(i) && c.verb == PromoteReplica && c.ok
  }

  /** In every run the record of a promotion, made at event `i` and still there at
      event `j`, is only dropped by a reconcile that sees the primary ready, at least 40
      seconds after the promotion. */
  lemma FailoverEnds(r: Run, i: int, j: int)
    requires IsRun(r) && Promotes(r, i) && i < j && r.Reconciles(j)
    requires r.states[j].status.operation == r.states[i + 1].status.operation
    requires r.states[j + 1].status.operation != r.states[j].status.operation
    ensures r.Clock(j) >= r.Clock(i) + 40 && ViewOf(r.states[j]).PrimaryReady()
  {
    var c :| c in r.Calls(i) && c.verb == PromoteReplica && c.ok;
    PromotionRecordedAt(r, i, c);
    assert r.Steps(j) && r.Clock(i) <= r.Clock(j);
    FailoverEndsStep(r.states[j], r.events[j].replies, r.Clock(i));
  }

  lemma PromotionRecordedAt(r: Run, i: int, c: Call)
    requires IsRun(r) && r.Reconciles(i) && r.events[i].replies.statusOk
    requires c in r.Calls(i) && c.verb == PromoteReplica && c.ok
    ensures r.Clock(i) >= 0
    ensures r.states[i + 1].status.operation
            == Operation(PrimaryDbCount, FailingOver, c.index, [], r.Clock(i) + 300, false)
  {
    assert r.Steps(i);
    ReadableAt(r, i);
    CallIsRecorded(r.states[i], r.events[i].replies, c);
  }

  // ---------- A stale record ----------

  /** A promotion is due and the update succeeds. */
  predicate Promoting(w: World, a: Replies) {
    && Readable(w) && a.now >= 0 && Enforces(w, a)
    && FailoverDue(w, Begin(w, a).lock) && WaitOverAt(w.status, a.now) && a.promoteOk
  }

  lemma FirstCall(w: World, a: Replies)
    requires Readable(w) && a.now >= 0 && Enforces(w, a) && PrimaryCalls(w, Begin(w, a).lock, a) != []
    ensures CallsOf(w, a) != [] && CallsOf(w, a)[0] == PrimaryCalls(w, Begin(w, a).lock, a)[0]
  {
    CallsExactly(w, a);
    FirstOf(CallsOf(w, a), PrimaryCalls(w, Begin(w, a).lock, a), ReplicaCalls(w, Begin(w, a).lock, a));
  }

  lemma FirstOf(calls: seq<Call>, x: seq<Call>, y: seq<Call>)
    requires Consists(calls, x, y) && x != []
    ensures calls != [] && calls[0] == x[0]
  {
  }

  /** A promotion that succeeds is the only call. */
  lemma PromotionIsOnlyCall(w: World, a: Replies)
    requires Promoting(w, a)
    ensures CallsOf(w, a) == [Call(PromoteReplica, SelectReplica(w.spec, ViewOf(w)).value, true)]
  {
    WaitOverLoads(w, a);
    FirstCall(w, a);
    OneCallPerReconcile(w, a);
    OnlyCall(CallsOf(w, a), SelectReplica(w.spec, ViewOf(w)).value);
  }

  lemma PromotesSelected(w: World, a: Replies)
    requires Promoting(w, a)
    ensures var i := SelectReplica(w.spec, ViewOf(w)).value;
            && i in w.cluster && w.cluster[i].role.Replica?
            && Reconcile(w, a).cluster == w.cluster[i := w.cluster[i].(role := Primary)]
  {
    ViewFacts(w);
    PromotionIsOnlyCall(w, a);
    OneCallPerReconcile(w, a);
    RecordedPromotion(w, SelectReplica(w.spec, ViewOf(w)).value, a, CallsOf(w, a), Reconcile(w, a));
  }

  lemma RecordedPromotion(w: World, i: nat, a: Replies, calls: seq<Call>, w': World)
    requires i in w.cluster && calls == [Call(PromoteReplica, i, true)] && CallsAccount(w, calls, a, w')
    ensures w'.cluster == w.cluster[i := w.cluster[i].(role := Primary)]
  {
  }

  lemma OnlyCall(calls: seq<Call>, i: nat)
    requires 1 <= |calls| <= 2 && calls[0] == Call(PromoteReplica, i, true)
    requires |calls| == 2 ==> !calls[0].ok
    ensures calls == [Call(PromoteReplica, i, true)]
  {
  }

  lemma OneMorePrimary(c: Cluster, i: nat)
    requires i in c && c[i].role.Replica?
    ensures Primaries(c[i := c[i].(role := Primary)]) == Primaries(c) + {i}
    ensures |Primaries(c[i := c[i].(role := Primary)])| == |Primaries(c)| + 1
  {
    assert Primaries(c[i := c[i].(role := Primary)]) == Primaries(c) + {i};
  }

  /** The promotion never looks whether the old primary is gone. So when the record of a
      pending failover is stale and a primary is still deployed, the next promotion makes a
      second one, and every later reconcile fails. The record becomes stale in the ways that
      `LosesAgreement` names. */
  lemma StaleRecordMakesTwo(w: World, a: Replies, a': Replies)
    requires Promoting(w, a) && |Primaries(w.cluster)| == 1
    ensures |Primaries(Reconcile(w, a).cluster)| == 2
    ensures Reconcile(Reconcile(w, a), a') == Reconcile(w, a)
  {
    PromotesSelected(w, a);
    OneMorePrimary(w.cluster, SelectReplica(w.spec, ViewOf(w)).value);
  }

  /** The deletion that starts a failover is due and fails. */
  predicate DeletionFails(w: World, a: Replies) {
    && Readable(w) && a.now >= 0 && Enforces(w, a) && Primaries(w.cluster) != {}
    && FailoverDue(w, Begin(w, a).lock) && !WaitOverAt(w.status, a.now) && !a.deleteOk
  }

  /** It leaves such a record: the wait starts beside the old primary. */
  lemma SilentDeletionIsStale(w: World, a: Replies)
    requires DeletionFails(w, a) && a.statusOk
    ensures var w' := Reconcile(w, a);
            && w'.cluster == w.cluster && |Primaries(w'.cluster)| == 1
            && Readable(w') && WaitOverAt(w'.status, a.now + 10)
  {
    ViewFacts(w);
    WaitOverLoads(w, a);
    FirstCall(w, a);
    var c := CallsOf(w, a)[0];
    var l, g := Outcome(w, a);
    SilentDeletionFrom(w, l, a, g, c);
  }

  lemma SilentDeletionFrom(w: World, l: Lock, a: Replies, g: Pass, c: Call)
    requires g.calls != [] && Accounted(w, ViewOf(w), l, a, g) && CoherentLock(g.lock)
    requires |Primaries(w.cluster)| <= 1 && c in g.calls && LeavesOldPrimary(w, c)
    ensures g.cluster == w.cluster && |Primaries(w.cluster)| == 1
    ensures WaitOverAt(Status(g.lock.saved, g.lock.previous, g.enforced, g.lastCreated), a.now + 10)
  {
    assert c == g.calls[0];
    assert |Primaries(w.cluster)| != 0;
  }

  /** A promotion whose status write is lost leaves such a record. */
  lemma LostPromotionIsStale(w: World, a: Replies)
    requires Promoting(w, a) && Primaries(w.cluster) == {} && !a.statusOk
    ensures var w' := Reconcile(w, a);
            && |Primaries(w'.cluster)| == 1
            && Readable(w') && WaitOverAt(w'.status, a.now)
  {
    PromotesSelected(w, a);
    OneMorePrimary(w.cluster, SelectReplica(w.spec, ViewOf(w)).value);
    var l, g := Outcome(w, a);
  }
}
