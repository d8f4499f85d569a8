/** Inputs on which the code does not do what one expects: concrete worlds and one whole run. */
module Witnesses {
  import opened Resources
  import opened BlockingOperations
  import opened Snapshots
  import opened Enforcement
  import opened Reconciling
  import opened Effects
  import opened Steps
  import opened Decisions
  import opened Runs
  import opened Counting
  import opened PodVerification
  import opened Failovers
  import opened StorageAgreement

  const STORAGE := Storage("/var/lib/postgresql/data", "standard", "1Gi")
  const NEW_FIELDS := Fields("postgres:16", "5432", "")
  const OLD_FIELDS := Fields("postgres:15", "5432", "")

  function Asked(replicas: int): (s: Spec)
  {
    Spec(replicas, false, false, None, STORAGE, NEW_FIELDS, true)
  }

  /** Every call succeeds. */
  function Fine(now: int): (a: Replies)
  {
    Replies(now, true, true, true, true, true, true, true, true, true, true, true)
  }

  function Set(role: Role, ready: bool): (s: StatefulSet)
  {
    StatefulSet(role, ready, STORAGE, NEW_FIELDS)
  }

  // ---------- What the views show ----------

  lemma OneDeployed(w: World, i: nat)
    requires w.cluster.Keys == {i} && w.cluster[i].role.Primary?
    ensures ViewOf(w).primary == Some(i) && ViewOf(w).replicas == []
    ensures Primaries(w.cluster) == {i}
  {
    ViewFacts(w);
    assert Primaries(w.cluster) == {i};
    assert ReplicaKeys(w.cluster) == {};
  }

  lemma TwoDeployedShown(w: World, i: nat, j: nat)
    requires w.cluster.Keys == {i, j} && i != j
    requires w.cluster[i].role.Primary? && w.cluster[j].role.Replica?
    ensures ViewOf(w).primary == Some(i) && ViewOf(w).replicas == [j]
    ensures Primaries(w.cluster) == {i}
  {
    ViewFacts(w);
    assert Primaries(w.cluster) == {i};
    assert ReplicaKeys(w.cluster) == {j};
    assert ViewOf(w).replicas[0] in ViewOf(w).replicas;
  }

  /** A reconcile whose first decided call is not a failed promotion makes just that call. */
  lemma JustPrimary(w: World, a: Replies, c: Call)
    requires Readable(w) && a.now >= 0 && Enforces(w, a)
    requires PrimaryCalls(w, Begin(w, a).lock, a) == [c] && (c.verb == PromoteReplica ==> c.ok)
    ensures CallsOf(w, a) == [c]
  {
    FirstCall(w, a);
    OneCallPerReconcile(w, a);
    JustFirst(w, CallsOf(w, a), c, a, Reconcile(w, a));
  }

  lemma JustFirst(w: World, calls: seq<Call>, c: Call, a: Replies, w': World)
    requires CallsAccount(w, calls, a, w') && calls != [] && calls[0] == c && (c.verb == PromoteReplica ==> c.ok)
    ensures calls == [c]
  {
  }

  lemma JustReplica(w: World, a: Replies, c: Call)
    requires Readable(w) && a.now >= 0 && Enforces(w, a)
    requires PrimaryCalls(w, Begin(w, a).lock, a) == [] && ReplicaCalls(w, Begin(w, a).lock, a) == [c]
    ensures CallsOf(w, a) == [c]
  {
    CallsExactly(w, a);
    OneCallPerReconcile(w, a);
    SecondPart(CallsOf(w, a), c);
  }

  lemma SecondPart(calls: seq<Call>, c: Call)
    requires Consists(calls, [], [c]) && |calls| <= 2 && c.verb in {CreateReplica, DeleteReplica}
    requires |calls| == 2 ==> calls[0].verb == PromoteReplica
    ensures calls == [c]
  {
    var u :| OnlyUpdates(u) && calls == [] + ([c] + u);
    assert calls[0] == c;
  }

  // ---------- Two calls in one reconcile ----------

  function PendingPromotion(): (w: World)
  {
    World(Asked(3).(promotePod := Some(2)),
          Status(Operation(PrimaryDbCount, TransitionStep, 2, [], 0, false),
                 Operation(PrimaryDbCount, WaitingBeforeFailingOver, 2, [], 100, true), 3, 3),
          map[1 := Set(Primary, true), 2 := Set(Replica, true)],
          map[2 := Pod(true, false, "postgres:16", "5432")], true)
  }

  lemma PendingPromotionLoads(w: World, a: Replies)
    requires w == PendingPromotion() && a.now == 200
    ensures Readable(w) && Enforces(w, a)
    ensures Begin(w, a).lock == Lock(w.status.operation, w.status.previous, w.status.operation)
  {
    TwoDeployedShown(w, 1, 2);
  }

  lemma PendingPromotionDecides(w: World, l: Lock, a: Replies)
    requires w == PendingPromotion() && a == Fine(200).(promoteOk := false)
    requires l == Lock(w.status.operation, w.status.previous, w.status.operation)
    ensures PrimaryCalls(w, l, a) == [Call(PromoteReplica, 2, false)]
    ensures ReplicaCalls(w, l, a) == [Call(CreateReplica, 4, true)]
  {
    TwoDeployedShown(w, 1, 2);
    PendingPromotionDue(w, l);
  }

  lemma PendingPromotionDue(w: World, l: Lock)
    requires w == PendingPromotion() && l == Lock(w.status.operation, w.status.previous, w.status.operation)
    ensures FailoverDue(w, l) && WaitIsOver(l) && SelectReplica(w.spec, ViewOf(w)) == Some(2)
  {
    TwoDeployedShown(w, 1, 2);
  }

  lemma TwoParts(calls: seq<Call>, c: Call, d: Call)
    requires Consists(calls, [c], [d]) && |calls| <= 2
    ensures calls == [c, d]
  {
    var u :| OnlyUpdates(u) && calls == [c] + ([d] + u);
  }

  /** A manual promotion fails beside a ready primary, and the reconcile goes on to create a
      replica. */
  lemma TwoCallsExample()
    ensures Readable(PendingPromotion())
    ensures CallsOf(PendingPromotion(), Fine(200).(promoteOk := false))
            == [Call(PromoteReplica, 2, false), Call(CreateReplica, 4, true)]
  {
    var w, a := PendingPromotion(), Fine(200).(promoteOk := false);
    PendingPromotionLoads(w, a);
    PendingPromotionDecides(w, Begin(w, a).lock, a);
    CallsExactly(w, a);
    OneCallPerReconcile(w, a);
    TwoParts(CallsOf(w, a), Call(PromoteReplica, 2, false), Call(CreateReplica, 4, true));
  }

  // ---------- A run that ends with two primaries ----------

  /** What a reconcile that made one successful creation leaves. */
  predicate Left(w: World, c: Cluster, id: OperationId, step: StepId, index: nat, timeOut: int,
                 enforced: int, last: nat)
  {
    && Readable(w) && w.cluster == c && w.status.enforcedReplicas == enforced && w.status.lastCreated == last
    && w.status.operation.id == id && w.status.operation.step == step
    && w.status.operation.index == index && w.status.operation.timeOut == timeOut
  }

  /** The environment sets everything but the status and the set of StatefulSets. */
  function Meanwhile(w: World, c: Cluster): (w': World)
  {
    World(Asked(2), w.status, c, map[], true)
  }

  function Blank(): (w: World)
  {
    World(Asked(2), Status(NONE, NONE, 0, 0), map[], map[], true)
  }

  lemma FirstPrimary(w: World)
    requires w == Blank()
    ensures CallsOf(w, Fine(0)) == [Call(CreatePrimary, 1, true)]
    ensures Left(Reconcile(w, Fine(0)), map[1 := Set(Primary, false)], PrimaryDbCount, PrimaryDbDeploying, 1, 300, 1, 1)
  {
    var a := Fine(0);
    NothingDeployed(w);
    assert Primaries(w.cluster) == {};
    JustPrimary(w, a, Call(CreatePrimary, 1, true));
    CreationLeaves(w, a, Call(CreatePrimary, 1, true));
  }

  /** A creation that is the only call. */
  lemma CreationLeaves(w: World, a: Replies, c: Call)
    requires Readable(w) && a.now >= 0 && a.statusOk
    requires CallsOf(w, a) == [c] && c.ok && Creates(c) && c.index !in w.cluster
    requires EnforcedNow(w) == w.status.enforcedReplicas && c.index == w.status.lastCreated + 1
    requires c.verb == CreatePrimary ==> w.status.lastCreated == 0
    ensures Left(Reconcile(w, a),
                 w.cluster[c.index := StatefulSet(if c.verb == CreatePrimary then Primary else Replica,
                                                  false, w.spec.storage, w.spec.fields)],
                 StepOf(c.verb).0, StepOf(c.verb).1, c.index, a.now + 300,
                 w.status.enforcedReplicas + 1, c.index)
  {
    ReadableStep(w, a);
    var l, g := Outcome(w, a);
    assert c in g.calls && g.calls == [c];
    CreationLeavesFrom(w, l, a, g, c);
  }

  lemma CreationLeavesFrom(w: World, l: Lock, a: Replies, g: Pass, c: Call)
    requires Accounted(w, ViewOf(w), l, a, g) && g.calls == [c] && c.ok && Creates(c) && a.statusOk
    requires CoherentLock(g.lock) && EnforcedNow(w) == w.status.enforcedReplicas
    requires c.index == w.status.lastCreated + 1 && (c.verb == CreatePrimary ==> w.status.lastCreated == 0)
    ensures Left(Written(w, g, a),
                 w.cluster[c.index := StatefulSet(if c.verb == CreatePrimary then Primary else Replica,
                                                  false, w.spec.storage, w.spec.fields)],
                 StepOf(c.verb).0, StepOf(c.verb).1, c.index, a.now + 300,
                 w.status.enforcedReplicas + 1, c.index)
  {
  }

  /** A replica operation or a deployment of the primary that is completed frees the lock. */
  lemma CompletedFrees(w: World, a: Replies)
    requires Readable(w) && ConfigOf(w.status.operation.id, w.status.operation.step).Some?
    requires w.status.operation.step in {PrimaryDbDeploying, ReplicaDbDeploying}
    requires 0 <= a.now < w.status.operation.timeOut && Completed(w.status.operation, w.spec, ViewOf(w), a.now)
    ensures Begin(w, a).lock.active == NONE
  {
  }

  lemma FirstReplica(w: World)
    requires w.spec == Asked(2) && w.baseConfig && w.pods == map[]
    requires Left(w, map[1 := Set(Primary, true)], PrimaryDbCount, PrimaryDbDeploying, 1, 300, 1, 1)
    ensures CallsOf(w, Fine(10)) == [Call(CreateReplica, 2, true)]
    ensures Left(Reconcile(w, Fine(10)), map[1 := Set(Primary, true), 2 := Set(Replica, false)],
                 ReplicaDbCount, ReplicaDbDeploying, 2, 310, 2, 2)
  {
    var a := Fine(10);
    OneDeployed(w, 1);
    CompletedFrees(w, a);
    JustReplica(w, a, Call(CreateReplica, 2, true));
    CreationLeaves(w, a, Call(CreateReplica, 2, true));
  }

  function Failing(): (c: Cluster)
  {
    map[1 := Set(Primary, false), 2 := Set(Replica, true)]
  }

  lemma DeletionDue(w: World, a: Replies)
    requires w.spec == Asked(2) && w.baseConfig && w.pods == map[] && a == Fine(20).(deleteOk := false)
    requires Left(w, Failing(), ReplicaDbCount, ReplicaDbDeploying, 2, 310, 2, 2)
    ensures DeletionFails(w, a)
  {
    TwoDeployedShown(w, 1, 2);
    CompletedFrees(w, a);
  }

  /** The failover starts, and the deletion of the old primary fails. */
  lemma DeletionSwallowed(w: World, a: Replies)
    requires w.spec == Asked(2) && w.baseConfig && w.pods == map[] && a == Fine(20).(deleteOk := false)
    requires Left(w, Failing(), ReplicaDbCount, ReplicaDbDeploying, 2, 310, 2, 2)
    ensures var w' := Reconcile(w, a);
            && w'.cluster == Failing() && Readable(w') && WaitOverAt(w'.status, 30)
            && w'.status.enforcedReplicas == 2
  {
    DeletionDue(w, a);
    SilentDeletionIsStale(w, a);
    DeletionCounted(w, a);
  }

  lemma DeletionCounted(w: World, a: Replies)
    requires w.spec == Asked(2) && Readable(w) && w.cluster == Failing() && w.status.enforcedReplicas == 2
    requires a.now >= 0 && a.statusOk && Reconcile(w, a).cluster == w.cluster
    ensures Reconcile(w, a).status.enforcedReplicas == 2
  {
    TwoDeployedShown(w, 1, 2);
    var l, g := Outcome(w, a);
    DeletionKeepsCount(w, l, a, g);
  }

  lemma DeletionKeepsCount(w: World, l: Lock, a: Replies, g: Pass)
    requires w.status.enforcedReplicas == 2 && a.statusOk && g.cluster == w.cluster
    requires g.calls == [] ==> IdlePass(w, l, g)
    requires g.calls != [] ==> Accounted(w, ViewOf(w), l, a, g)
    requires ViewOf(w).primary.Some? && !ViewOf(w).PrimaryReady() && !w.spec.standby
    ensures Written(w, g, a).status.enforcedReplicas == 2
  {
  }

  lemma SecondPromotion(w: World)
    requires w.spec == Asked(2) && w.baseConfig && w.pods == map[] && w.cluster == Failing()
    requires Readable(w) && WaitOverAt(w.status, 30) && w.status.enforcedReplicas == 2
    ensures |Primaries(Reconcile(w, Fine(30)).cluster)| == 2
  {
    var a := Fine(30);
    TwoDeployedShown(w, 1, 2);
    WaitOverLoads(w, a);
    PromotionRuns(w, a);
    StaleRecordMakesTwo(w, a, a);
  }

  lemma PromotionRuns(w: World, a: Replies)
    requires w.spec == Asked(2) && w.baseConfig && w.pods == map[] && w.cluster == Failing() && a == Fine(30)
    requires Readable(w) && WaitOverAt(w.status, 30) && w.status.enforcedReplicas == 2
    ensures Promoting(w, a)
  {
    TwoDeployedShown(w, 1, 2);
    WaitOverLoads(w, a);
    ReexaminedInTime(w.status.operation, w.status.previous, a.now,
                     Completed(w.status.operation, w.spec, ViewOf(w), a.now));
  }

  ghost predicate Linked(w: World, e: Event, w': World) {
    Next(w, e, w')
  }

  /** The event of a reconcile. */
  lemma ReconcileLinks(w: World, a: Replies) returns (e: Event)
    requires a.now >= 0
    ensures e == Reconciled(a, CallsOf(w, a)) && Linked(w, e, Reconcile(w, a))
  {
    e := Reconciled(a, CallsOf(w, a));
  }

  lemma EnvironmentLinks(w: World, w': World)
    requires EnvironmentStep(w, w')
    ensures Linked(w, Environment, w')
  {
  }

  /** Worlds and events that make a run up to time `t`, with every call answered well except,
      possibly, deletions and, unless `kept`, status writes. */
  ghost predicate Path(w: seq<World>, e: seq<Event>, t: int, kept: bool) {
    && |w| == |e| + 1 && Fresh(w[0])
    && (forall i :: 0 <= i < |e| ==> Linked(w[i], e[i], w[i + 1]))
    && (forall i :: 0 <= i < |e| && e[i].Reconciled? ==> e[i].replies.now <= t && Answers(e[i].replies, kept))
    && (forall i, j :: 0 <= i <= j < |e| && e[i].Reconciled? && e[j].Reconciled? ==>
          e[i].replies.now <= e[j].replies.now)
  }

  predicate Answers(a: Replies, kept: bool) {
    a == Fine(a.now).(deleteOk := a.deleteOk, statusOk := a.statusOk) && (kept ==> a.statusOk)
  }

  lemma PathIsRun(w: seq<World>, e: seq<Event>, t: int, kept: bool)
    requires Path(w, e, t, kept)
    ensures IsRun(Run(w, e))
  {
    var r := Run(w, e);
    forall i | 0 <= i < |e| ensures r.Steps(i) {
      assert Linked(w[i], e[i], w[i + 1]);
    }
  }

  lemma Continue(w: seq<World>, e: seq<Event>, t: int, kept: bool, ev: Event, next: World, t': int)
    requires Path(w, e, t, kept) && Linked(w[|e|], ev, next) && t <= t'
    requires ev.Reconciled? ==> ev.replies.now == t' && Answers(ev.replies, kept)
    ensures Path(w + [next], e + [ev], t', kept)
  {
    var w', e' := w + [next], e + [ev];
    forall i | 0 <= i < |e'| ensures Linked(w'[i], e'[i], w'[i + 1]) {
      assert i < |e| ==> Linked(w[i], e[i], w[i + 1]);
    }
  }

  /** One reconcile. */
  lemma ThenReconciles(w: seq<World>, e: seq<Event>, t: int, kept: bool, a: Replies)
    returns (w': seq<World>, e': seq<Event>)
    requires Path(w, e, t, kept) && t <= a.now && a.now >= 0 && Answers(a, kept)
    ensures Path(w', e', a.now, kept)
    ensures w' == w + [Reconcile(w[|e|], a)] && e' == e + [Reconciled(a, CallsOf(w[|e|], a))]
  {
    var ev := ReconcileLinks(w[|e|], a);
    Continue(w, e, t, kept, ev, Reconcile(w[|e|], a), a.now);
    w', e' := w + [Reconcile(w[|e|], a)], e + [ev];
  }

  /** What the environment does after it. */
  lemma ThenChanges(w: seq<World>, e: seq<Event>, t: int, kept: bool, next: World)
    returns (w': seq<World>, e': seq<Event>)
    requires Path(w, e, t, kept) && EnvironmentStep(w[|e|], next)
    ensures Path(w', e', t, kept) && w' == w + [next] && e' == e + [Environment]
  {
    EnvironmentLinks(w[|e|], next);
    Continue(w, e, t, kept, Environment, next, t);
    w', e' := w + [next], e + [Environment];
  }

  lemma Round(w: seq<World>, e: seq<Event>, t: int, kept: bool, a: Replies, c: Cluster)
    returns (w': seq<World>, e': seq<Event>)
    requires Path(w, e, t, kept) && t <= a.now && a.now >= 0 && Answers(a, kept)
    requires EnvironmentStep(Reconcile(w[|e|], a), Meanwhile(Reconcile(w[|e|], a), c))
    ensures Path(w', e', a.now, kept)
    ensures w' == w + [Reconcile(w[|e|], a)] + [Meanwhile(Reconcile(w[|e|], a), c)]
    ensures e' == e + [Reconciled(a, CallsOf(w[|e|], a))] + [Environment]
  {
    var w1 := Reconcile(w[|e|], a);
    w', e' := ThenReconciles(w, e, t, kept, a);
    w', e' := ThenChanges(w', e', a.now, kept, Meanwhile(w1, c));
  }

  lemma Opening() returns (w: seq<World>, e: seq<Event>)
    ensures Path(w, e, 0, true) && w[|e|].spec == Asked(2) && w[|e|].baseConfig && w[|e|].pods == map[]
    ensures Left(w[|e|], map[1 := Set(Primary, true)], PrimaryDbCount, PrimaryDbDeploying, 1, 300, 1, 1)
  {
    FirstPrimary(Blank());
    w, e := Round([Blank()], [], 0, true, Fine(0), map[1 := Set(Primary, true)]);
  }

  lemma Growing() returns (w: seq<World>, e: seq<Event>)
    ensures Path(w, e, 10, true) && w[|e|].spec == Asked(2) && w[|e|].baseConfig && w[|e|].pods == map[]
    ensures Left(w[|e|], Failing(), ReplicaDbCount, ReplicaDbDeploying, 2, 310, 2, 2)
  {
    w, e := Opening();
    FirstReplica(w[|e|]);
    w, e := Round(w, e, 0, true, Fine(10), Failing());
  }

  lemma FailingOverBadly() returns (w: seq<World>, e: seq<Event>)
    ensures Path(w, e, 20, true) && w[|e|].spec == Asked(2) && w[|e|].baseConfig && w[|e|].pods == map[]
    ensures w[|e|].cluster == Failing()
    ensures Readable(w[|e|]) && WaitOverAt(w[|e|].status, 30) && w[|e|].status.enforcedReplicas == 2
  {
    w, e := Growing();
    DeletionSwallowed(w[|e|], Fine(20).(deleteOk := false));
    w, e := Round(w, e, 10, true, Fine(20).(deleteOk := false), Failing());
  }

  /** From a fresh resource, with every call answered well except deletions, a run reaches two
      primaries: the deletion that starts the failover fails silently, the wait passes, and the
      promotion does not look for the old primary. */
  lemma TwoPrimariesRun() returns (r: Run)
    ensures IsRun(r) && |Primaries(r.states[|r.events|].cluster)| == 2
    ensures forall i :: r.Reconciles(i) ==> Answers(r.events[i].replies, true)
  {
    var w, e := FailingOverBadly();
    SecondPromotion(w[|e|]);
    w, e := ThenReconciles(w, e, 20, true, Fine(30));
    PathIsRun(w, e, 30, true);
    r := Run(w, e);
  }

  // ---------- A lost claim ----------

  function LonePrimaryGone(): (w: World)
  {
    World(Asked(1), Status(NONE, NONE, 1, 1), map[], map[], true)
  }

  /** The lone primary was deleted and so was its claim: it comes back as instance 2, and the
      counter stays at 1. */
  lemma LostClaimExample()
    ensures var w, a := LonePrimaryGone(), Fine(100).(claimExists := false);
            && ClaimLost(w, a) && Counted(w) && Indexed(w) && !Indexed(Reconcile(w, a))
            && CallsOf(w, a) == [Call(CreatePrimary, 2, true)]
            && Reconcile(w, a).status.lastCreated == 1 && 2 in Reconcile(w, a).cluster
  {
    var w, a := LonePrimaryGone(), Fine(100).(claimExists := false);
    NothingDeployed(w);
    assert Primaries(w.cluster) == {};
    JustPrimary(w, a, Call(CreatePrimary, 2, true));
    LostClaim(w, a);
  }

  function LonePrimaryAhead(): (w: World)
  {
    World(Asked(2), Status(NONE, NONE, 2, 1), map[2 := Set(Primary, true)], map[], true)
  }

  /** Then no replica can be created: the next name is the primary's. */
  lemma BlockedExample()
    ensures CallsOf(LonePrimaryAhead(), Fine(200)) == [Call(CreateReplica, 2, false)]
    ensures Reconcile(LonePrimaryAhead(), Fine(200)).cluster == LonePrimaryAhead().cluster
  {
    var w, a := LonePrimaryAhead(), Fine(200);
    OneDeployed(w, 2);
    JustReplica(w, a, Call(CreateReplica, 2, false));
    BlockedByIndex(w, a, Call(CreateReplica, 2, false));
  }

  /** The write after the first creation is lost: instance 1 is deployed, and both counters say that
      there is none. */
  lemma LostCountExample()
    ensures var w, a := Blank(), Fine(0).(statusOk := false);
            && Counted(w) && Indexed(w) && CreationSucceeds(w, a) && !ClaimLost(w, a)
            && !Counted(Reconcile(w, a)) && !Indexed(Reconcile(w, a))
  {
    var w, a := Blank(), Fine(0).(statusOk := false);
    NothingDeployed(w);
    assert Primaries(w.cluster) == {};
    assert CreationSucceeds(w, a);
    CountedStep(w, a);
    IndexedStep(w, a);
  }

  lemma BlankAgain(w: World, a: Replies)
    requires w == Blank() && a == Fine(a.now).(statusOk := a.statusOk) && a.now >= 0
    ensures CallsOf(w, a) == [Call(CreatePrimary, 1, true)]
    ensures !a.statusOk ==> Reconcile(w, a).status == w.status
  {
    NothingDeployed(w);
    assert Primaries(w.cluster) == {};
    JustPrimary(w, a, Call(CreatePrimary, 1, true));
    var l, g := Outcome(w, a);
  }

  /** No reconcile changes the number of instances asked for. */
  lemma ReplicasKept(w: World, a: Replies)
    ensures Reconcile(w, a).spec.replicas == w.spec.replicas
  {
  }

  /** The status write of the first creation is lost, and the user deletes what was created: nothing
      is left to tell the resource from a fresh one. */
  lemma BlankOnce() returns (w: seq<World>, e: seq<Event>)
    ensures Path(w, e, 0, false) && |e| == 2 && w[2] == Blank()
    ensures e[0] == Reconciled(Fine(0).(statusOk := false), [Call(CreatePrimary, 1, true)])
    ensures w[0].spec.replicas == w[1].spec.replicas == 2
  {
    var a := Fine(0).(statusOk := false);
    BlankAgain(Blank(), a);
    ReplicasKept(Blank(), a);
    w, e := Round([Blank()], [], 0, false, a, map[]);
  }

  lemma BlankTwice() returns (r: Run)
    ensures IsRun(r) && |r.events| == 3
    ensures r.events[0] == Reconciled(Fine(0).(statusOk := false), [Call(CreatePrimary, 1, true)])
    ensures r.events[2] == Reconciled(Fine(10), [Call(CreatePrimary, 1, true)])
    ensures r.states[0].spec.replicas == r.states[1].spec.replicas == 2
    ensures r.states[2].spec.replicas == r.states[3].spec.replicas == 2
  {
    var w, e := BlankOnce();
    BlankAgain(w[2], Fine(10));
    ReplicasKept(w[2], Fine(10));
    w, e := ThenReconciles(w, e, 0, false, Fine(10));
    PathIsRun(w, e, 10, false);
    r := Run(w, e);
  }

  lemma CreatesBlank(r: Run, k: int, a: Replies)
    requires 0 <= k < |r.events| && r.events[k] == Reconciled(a, [Call(CreatePrimary, 1, true)])
    ensures CreatesPrimary(r, k)
  {
    assert Call(CreatePrimary, 1, true) in r.Calls(k);
  }

  /** So that, with two instances asked for throughout, a blank primary is created twice in a run. */
  lemma TwoBlankPrimariesRun() returns (r: Run)
    ensures IsRun(r) && CreatesPrimary(r, 0) && CreatesPrimary(r, 2)
    ensures |r.states| == 4 && forall k :: 0 <= k < 4 ==> r.states[k].spec.replicas == 2
  {
    r := BlankTwice();
    CreatesBlank(r, 0, Fine(0).(statusOk := false));
    CreatesBlank(r, 2, Fine(10));
  }

  // ---------- Pods that are not looked at ----------

  function HalfRolledOut(status: Status, pods: Pods): (w: World)
  {
    World(Asked(2), status,
          map[1 := Set(Primary, true).(fields := OLD_FIELDS), 2 := Set(Replica, true)], pods, true)
  }

  const OLD_POD := map[2 := Pod(false, false, "postgres:15", "5432")]

  lemma HalfRolledOutShown(w: World, status: Status, pods: Pods)
    requires w == HalfRolledOut(status, pods) && 1 !in pods
    ensures RolloutOrder(false, ViewOf(w)) == [2, 1] && Primaries(w.cluster) == {1}
    ensures DifferencesAt(NEW_FIELDS, ViewOf(w), 2) == [] && DifferencesAt(NEW_FIELDS, ViewOf(w), 1) != []
    ensures ViewOf(w).primary == Some(1) && ViewOf(w).replicas == [2]
    ensures !SpecFatal(w.spec, ViewOf(w))
  {
    TwoDeployedShown(w, 1, 2);
    FieldsShown(w.cluster);
    assert RolloutOrder(false, ViewOf(w)) == Reversed([2]) + [1];
  }

  lemma FieldsShown(c: Cluster)
    requires c == map[1 := Set(Primary, true).(fields := OLD_FIELDS), 2 := Set(Replica, true)]
    ensures Differences(NEW_FIELDS, c[2].fields) == [] && Differences(NEW_FIELDS, c[1].fields) != []
  {
    NoDifference(NEW_FIELDS, c[2].fields);
    NoDifference(NEW_FIELDS, c[1].fields);
    assert OLD_FIELDS.image[10] != NEW_FIELDS.image[10];
  }

  function LateStatus(): (s: Status)
  {
    Status(Operation(StatefulSetSpec, SpecUpdating, 2, [Difference("Image", "postgres:16")], 300, false), NONE, 2, 2)
  }

  /** The update of instance 2 is found timed out; its pod still runs the old image and is not
      ready; the primary is updated. */
  lemma LateUpdateExample()
    ensures var w := HalfRolledOut(LateStatus(), OLD_POD);
            && !PodVerified(w.spec.fields, ViewOf(w), 2)
            && CallsOf(w, Fine(300)) == [Call(UpdateFields, 1, true)]
  {
    var w, a := HalfRolledOut(LateStatus(), OLD_POD), Fine(300);
    OldPodShown(w, LateStatus());
    LateUpdateDue(w);
    LateUpdateMovesOn(w, a, 0, 2, 1);
  }

  lemma OldPodShown(w: World, status: Status)
    requires w == HalfRolledOut(status, OLD_POD)
    ensures !PodVerified(w.spec.fields, ViewOf(w), 2)
  {
  }

  lemma LateUpdateDue(w: World)
    requires w == HalfRolledOut(LateStatus(), OLD_POD)
    ensures Readable(w) && On(w.status.operation, w.status.previous, 2) && |Primaries(w.cluster)| <= 1
    ensures !SpecFatal(w.spec, ViewOf(w)) && ViewOf(w).PrimaryReady() && !w.spec.standby
    ensures RolloutOrder(false, ViewOf(w)) == [2, 1]
    ensures CleanUpTo(w.spec.fields, ViewOf(w), RolloutOrder(w.spec.standby, ViewOf(w)), 0, 2)
    ensures w.cluster[1].fields != w.spec.fields
  {
    HalfRolledOutShown(w, LateStatus(), OLD_POD);
    NoDifference(NEW_FIELDS, w.cluster[1].fields);
  }

  lemma HalfRolledOutLeft(w: World, a: Replies, status: Status)
    requires w == HalfRolledOut(status, OLD_POD) && a == Fine(20) && status == Status(NONE, NONE, 2, 2)
    ensures OnlyUpdatesLeft(w, a)
  {
    HalfRolledOutShown(w, status, OLD_POD);
    HalfRolledOutScaled(w, a);
  }

  lemma HalfRolledOutScaled(w: World, a: Replies)
    requires w.spec == Asked(2) && ViewOf(w).replicas == [2] && ViewOf(w).Ready(2)
    ensures ScaleCalls(w, a) == [] && !ManualRequested(w.spec, ViewOf(w))
  {
    assert FirstUnready([2], ViewOf(w)) == FirstUnready([2][1..], ViewOf(w));
  }

  /** The same when the status write of that update was lost: nothing is recorded. */
  lemma LostUpdateExample()
    ensures var w := HalfRolledOut(Status(NONE, NONE, 2, 2), OLD_POD);
            && !PodVerified(w.spec.fields, ViewOf(w), 2)
            && CallsOf(w, Fine(20)) == [Call(UpdateFields, 1, true)]
  {
    var status := Status(NONE, NONE, 2, 2);
    var w, a := HalfRolledOut(status, OLD_POD), Fine(20);
    OldPodShown(w, status);
    HalfRolledOutShown(w, status, OLD_POD);
    HalfRolledOutLeft(w, a, status);
    FreeMovesOn(w, a, 1, 1);
  }

  function ZeroStatus(): (s: Status)
  {
    Status(Operation(StatefulSetSpec, PodSpecUpdating, 0, [], 300, false), NONE, 2, 2)
  }

  /** The pod of instance 2 was never listed; once the wait for instance 0 has timed out, the primary
      is updated. */
  lemma PodMissingExample()
    ensures var w := HalfRolledOut(ZeroStatus(), map[]);
            WaitsForZero(w) && CallsOf(w, Fine(300)) == [Call(UpdateFields, 1, true)]
  {
    var w, a := HalfRolledOut(ZeroStatus(), map[]), Fine(300);
    HalfRolledOutShown(w, ZeroStatus(), map[]);
    ZeroMovesOn(w, a, 1, 1);
  }

  // ---------- Storage that was edited ----------

  const OTHER_STORAGE := Storage("/var/lib/postgresql/data", "fast", "1Gi")

  /** The StatefulSet of the primary is ready, its pod is not listed, and the storage class was
      edited. */
  function EditedStorage(): (w: World)
  {
    World(Asked(2).(storage := OTHER_STORAGE), Status(NONE, NONE, 1, 1), map[1 := Set(Primary, true)], map[], true)
  }

  /** The spec check does not look at the storage, and a replica with the other storage class is
      created. */
  lemma EditedStorageExample()
    ensures var w, a := EditedStorage(), Fine(100);
            && Agreeing(w.cluster) && !PodFollows(w)
            && CallsOf(w, a) == [Call(CreateReplica, 2, true)] && !Agreeing(Reconcile(w, a).cluster)
  {
    var w, a := EditedStorage(), Fine(100);
    OneDeployed(w, 1);
    assert 1 in Primaries(w.cluster);
    JustReplica(w, a, Call(CreateReplica, 2, true));
    EditedStorageDiffers(w);
    assert CreationSucceeds(w, a);
    StorageStep(w, a);
  }

  lemma EditedStorageDiffers(w: World)
    requires w == EditedStorage()
    ensures !AllStored(w.cluster, w.spec.storage)
  {
    assert OTHER_STORAGE.storageClass[0] != STORAGE.storageClass[0];
    assert 1 in w.cluster;
  }
}
