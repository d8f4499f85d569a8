/** The two counters of the status along runs: how many instances were enforced, and which
    instance indices were used. */
module Counting {
  import opened Resources
  import opened BlockingOperations
  import opened Snapshots
  import opened Enforcement
  import opened Reconciling
  import opened Effects
  import opened Steps
  import opened Decisions
  import opened Runs

  /** The status is written whenever a StatefulSet was created. */
  ghost predicate StatusKept(r: Run) {
    forall i, c :: r.Reconciles(i) && c in r.Calls(i) && Creates(c) && c.ok ==> r.events[i].replies.statusOk
  }

  ghost predicate NeverStandby(r: Run) {
    forall i :: 0 <= i < |r.states| ==> !r.states[i].spec.standby
  }

  /** Nothing is assumed about deletions, promotions and updates, or about their status writes. */
  ghost predicate CountedRun(r: Run) {
    IsRun(r) && StatusKept(r) && NeverStandby(r)
  }

  /** The counter never falls below the number of StatefulSets, and both counters start
      together. */
  predicate Counted(w: World) {
    && w.status.enforcedReplicas >= |w.cluster|
    && (w.status.enforcedReplicas == 0 <==> w.status.lastCreated == 0)
  }

  lemma AppliedSize(c: Cluster, call: Call, s: Storage, f: Fields)
    requires call.ok && (call.verb == CreatePrimary || call.verb == CreateReplica) ==> call.index !in c
    requires call.ok && (call.verb == DeletePrimary || call.verb == DeleteReplica) ==> call.index in c
    ensures |Applied(c, call, s, f)|
            == (if !call.ok then |c|
                else match call.verb
                     case CreatePrimary | CreateReplica => |c| + 1
                     case DeletePrimary | DeleteReplica => |c| - 1
                     case PromoteReplica | UpdateFields => |c|)
  {
    var c' := Applied(c, call, s, f);
    KeysAfter(c, call, s, f);
    if call.ok && (call.verb == CreatePrimary || call.verb == CreateReplica) {
      OneAdded(c, c', call.index);
    } else if call.ok && (call.verb == DeletePrimary || call.verb == DeleteReplica) {
      OneRemoved(c, c', call.index);
    } else {
      SameKeys(c, c');
    }
  }

  lemma KeysAfter(c: Cluster, call: Call, s: Storage, f: Fields)
    ensures Applied(c, call, s, f).Keys
            == (if call.ok && (call.verb == CreatePrimary || call.verb == CreateReplica) then c.Keys + {call.index}
                else if call.ok && (call.verb == DeletePrimary || call.verb == DeleteReplica) then c.Keys - {call.index}
                else c.Keys)
  {
  }

  lemma SameKeys(c: Cluster, c': Cluster)
    requires c'.Keys == c.Keys
    ensures |c'| == |c|
  {
    assert |c'.Keys| == |c.Keys|;
  }

  lemma OneAdded(c: Cluster, c': Cluster, i: nat)
    requires i !in c && c'.Keys == c.Keys + {i}
    ensures |c'| == |c| + 1
  {
    assert |c'.Keys| == |c.Keys| + 1;
  }

  lemma OneRemoved(c: Cluster, c': Cluster, i: nat)
    requires i in c && c'.Keys == c.Keys - {i}
    ensures |c'| == |c| - 1
  {
    assert |c'.Keys| == |c.Keys| - 1;
  }

  /** What a reconcile makes of the counters, read from its effective pass. */
  lemma CountedFrom(w: World, l: Lock, a: Replies, g: Pass)
    requires Counted(w) && !w.spec.standby
    requires g.calls == [] ==> g.cluster == w.cluster && IdlePass(w, l, g)
    requires g.calls != [] ==> Accounted(w, ViewOf(w), l, a, g)
    ensures var w' := Written(w, g, a);
            && (Counted(w') <==> !(HasCreation(g.calls) && !a.statusOk && w.status.enforcedReplicas == |w.cluster|))
            && (w.status.enforcedReplicas > 0 ==> w'.status.enforcedReplicas > 0)
            && w.status.lastCreated <= w'.status.lastCreated
  {
    assert EnforcedNow(w) == w.status.enforcedReplicas;
    CreationInOne(g.calls);
    if g.calls != [] {
      var call := g.calls[0];
      ViewFacts(w);
      AppliedSize(w.cluster, call, w.spec.storage, w.spec.fields);
      if call.verb == DeleteReplica {
        TwoDeployed(w, call.index);
      }
    }
  }

  lemma CountedByCalls(w: World, a: Replies)
    requires Readable(w) && Counted(w) && a.now >= 0 && !w.spec.standby
    ensures Counted(Reconcile(w, a)) <==>
              !(HasCreation(CallsOf(w, a)) && !a.statusOk && w.status.enforcedReplicas == |w.cluster|)
    ensures w.status.enforcedReplicas > 0 ==> Reconcile(w, a).status.enforcedReplicas > 0
    ensures w.status.lastCreated <= Reconcile(w, a).status.lastCreated
  {
    var l, g := Outcome(w, a);
    CountedFrom(w, l, a, g);
    SameCreations(CallsOf(w, a), g.calls);
  }

  /** A reconcile breaks the bound if and only if it creates a StatefulSet, the status write is
      lost, and the counter had no room left. Whatever happens, a positive counter stays
      positive and no index is given back. */
  lemma CountedStep(w: World, a: Replies)
    requires Readable(w) && Counted(w) && a.now >= 0 && !w.spec.standby
    ensures Counted(Reconcile(w, a)) <==>
              !(CreationSucceeds(w, a) && !a.statusOk && w.status.enforcedReplicas == |w.cluster|)
    ensures w.status.enforcedReplicas > 0 ==> Reconcile(w, a).status.enforcedReplicas > 0
    ensures w.status.lastCreated <= Reconcile(w, a).status.lastCreated
  {
    CountedByCalls(w, a);
    CreationExactly(w, a);
  }

  /** A replica is only removed beside a ready primary. */
  lemma TwoDeployed(w: World, i: nat)
    requires ViewOf(w).PrimaryReady() && i in ViewOf(w).replicas
    ensures |w.cluster| >= 2
  {
    ViewFacts(w);
    var p := ViewOf(w).primary.value;
    SubsetSize({p, i}, w.cluster.Keys);
  }

  lemma {:induction false} CountedAt(r: Run, i: int)
    requires CountedRun(r) && 0 <= i < |r.states|
    ensures Counted(r.states[i])
  {
    if i > 0 {
      CountedAt(r, i - 1);
      CountedNext(r, i - 1);
    }
  }

  lemma CountedNext(r: Run, i: int)
    requires CountedRun(r) && 0 <= i < |r.events| && Counted(r.states[i])
    ensures Counted(r.states[i + 1])
    ensures r.states[i].status.enforcedReplicas > 0 ==> r.states[i + 1].status.enforcedReplicas > 0
  {
    ReadableAt(r, i);
    assert r.Steps(i);
    match r.events[i] {
      case Environment => EnvironmentCounts(r.states[i], r.states[i + 1]);
      case Reconciled(a, calls) =>
        assert r.Reconciles(i);
        CountedByCalls(r.states[i], a);
        if HasCreation(calls) {
          var c :| c in calls && Creates(c) && c.ok;
          assert c in r.Calls(i);
        }
    }
  }

  lemma EnvironmentCounts(w: World, w': World)
    requires EnvironmentStep(w, w') && Counted(w)
    ensures Counted(w')
  {
    SubsetSize(w'.cluster.Keys, w.cluster.Keys);
  }

  lemma IndicesFrom(w: World, l: Lock, a: Replies, g: Pass)
    requires g.calls == [] ==> IdlePass(w, l, g)
    requires g.calls != [] ==> Accounted(w, ViewOf(w), l, a, g)
    ensures w.status.lastCreated <= Written(w, g, a).status.lastCreated
  {
  }

  lemma IndicesStep(w: World, a: Replies)
    requires Readable(w) && a.now >= 0
    ensures w.status.lastCreated <= Reconcile(w, a).status.lastCreated
  {
    var l, g := Outcome(w, a);
    IndicesFrom(w, l, a, g);
  }

  lemma IndicesNext(r: Run, i: int)
    requires IsRun(r) && 0 <= i < |r.events|
    ensures r.states[i].status.lastCreated <= r.states[i + 1].status.lastCreated
  {
    ReadableAt(r, i);
    assert r.Steps(i);
    if r.events[i].Reconciled? {
      IndicesStep(r.states[i], r.events[i].replies);
    }
  }

  /** In every run, `LastCreatedInstanceIndex` never decreases. */
  lemma {:induction false} IndicesGrow(r: Run, i: int, j: int)
    requires IsRun(r) && 0 <= i <= j < |r.states|
    ensures r.states[i].status.lastCreated <= r.states[j].status.lastCreated
    decreases j - i
  {
    if i < j {
      IndicesGrow(r, i, j - 1);
      IndicesNext(r, j - 1);
    }
  }

  lemma {:induction false} StaysPositive(r: Run, i: int, j: int)
    requires CountedRun(r) && 0 <= i <= j < |r.states|
    ensures r.states[i].status.enforcedReplicas > 0 ==> r.states[j].status.enforcedReplicas > 0
    decreases j - i
  {
    if i < j {
      StaysPositive(r, i, j - 1);
      CountedAt(r, j - 1);
      CountedNext(r, j - 1);
    }
  }

  /** `EnforcedReplicas` is never below the number of deployed StatefulSets and stays
      positive once it is positive. */
  lemma EnforcedReplicasBound(r: Run, i: int, j: int)
    requires CountedRun(r) && 0 <= i <= j < |r.states|
    ensures r.states[i].status.enforcedReplicas >= |r.states[i].cluster|
    ensures r.states[i].status.enforcedReplicas > 0 ==> r.states[j].status.enforcedReplicas > 0
  {
    CountedAt(r, i);
    StaysPositive(r, i, j);
  }

  /** Event `i` creates a blank primary. */
  ghost predicate CreatesPrimary(r: Run, i: int) {
    r.Reconciles(i) && exists c :: c in r.Calls(i) && c.verb == CreatePrimary && c.ok
  }

  lemma CreationCounts(r: Run, i: int)
    requires CountedRun(r) && CreatesPrimary(r, i)
    ensures r.states[i + 1].status.enforcedReplicas > 0
    ensures r.states[i].spec.replicas >= 2 ==> r.states[i].status.enforcedReplicas == 0
  {
    CountedAt(r, i);
    ReadableAt(r, i);
    assert r.Steps(i);
    var c :| c in r.Calls(i) && c.verb == CreatePrimary && c.ok;
    BlankCounts(r.states[i], r.events[i].replies, c);
  }

  lemma BlankCounts(w: World, a: Replies, c: Call)
    requires Readable(w) && Counted(w) && a.now >= 0 && a.statusOk
    requires c in CallsOf(w, a) && c.verb == CreatePrimary && c.ok
    ensures Reconcile(w, a).status.enforcedReplicas > 0
    ensures w.spec.replicas >= 2 ==> w.status.enforcedReplicas == 0
  {
    var l, g := Outcome(w, a);
    CreationCountsFrom(w, l, a, g, c);
  }

  lemma CreationCountsFrom(w: World, l: Lock, a: Replies, f: Pass, c: Call)
    requires Counted(w) && f.calls != [] && Accounted(w, ViewOf(w), l, a, f)
    requires c in f.calls && c.verb == CreatePrimary && c.ok && a.statusOk
    ensures Written(w, f, a).status.enforcedReplicas > 0
    ensures w.spec.replicas >= 2 ==> w.status.enforcedReplicas == 0
  {
    assert c == f.calls[0];
  }

  /** With two or more instances asked for throughout, a blank primary is created at most
      once in a run; every later primary comes from the promotion of a replica. */
  lemma BlankPrimaryOnce(r: Run, i: int, j: int)
    requires CountedRun(r)
    requires forall k :: 0 <= k < |r.states| ==> r.states[k].spec.replicas >= 2
    requires CreatesPrimary(r, i) && CreatesPrimary(r, j)
    ensures i == j
  {
    if i != j {
      var x, y := if i < j then i else j, if i < j then j else i;
      CreationCounts(r, x);
      CreationCounts(r, y);
      StaysPositive(r, x + 1, y);
    }
  }

  // ---------- Instance indices ----------

  predicate Indexed(w: World) {
    forall i :: i in w.cluster ==> i <= w.status.lastCreated
  }

  /** The counter after a creation: a replica always advances it, a primary only from 0, and a
      lost status write leaves it where it was. */
  function CounterAfter(w: World, c: Call, a: Replies): (n: nat)
  {
    if !a.statusOk then w.status.lastCreated
    else if c.verb == CreateReplica then c.index
    else if w.status.lastCreated == 0 then 1
    else w.status.lastCreated
  }

  /** The call creates a StatefulSet that is numbered above the counter. */
  predicate Escapes(w: World, c: Call, a: Replies) {
    Creates(c) && c.ok && c.index > CounterAfter(w, c, a)
  }

  predicate NoneEscapes(w: World, calls: seq<Call>, a: Replies) {
    forall c :: c in calls ==> !Escapes(w, c, a)
  }

  /** A new StatefulSet gets an index that is not in use, so that only the API can make the
      creation fail; a new replica gets the one above the counter. */
  predicate FreshCalls(w: World, calls: seq<Call>, a: Replies) {
    forall c :: c in calls && Creates(c) ==>
      && c.index !in w.cluster && (c.ok <==> a.createOk)
      && (c.verb == CreateReplica ==> c.index == w.status.lastCreated + 1)
  }

  lemma FreshIndex(w: World, l: Lock, a: Replies, g: Pass)
    requires Indexed(w) && g.calls != [] && Accounted(w, ViewOf(w), l, a, g) && Creates(g.calls[0])
    ensures FreshCalls(w, [g.calls[0]], a)
    ensures g.calls[0].ok ==> Written(w, g, a).status.lastCreated == CounterAfter(w, g.calls[0], a)
    ensures CounterAfter(w, g.calls[0], a) >= w.status.lastCreated
  {
    NothingDeployed(w);
  }

  lemma IndexedAfterCreation(w: World, l: Lock, a: Replies, g: Pass)
    requires Indexed(w) && g.calls != [] && Accounted(w, ViewOf(w), l, a, g) && Creates(g.calls[0])
    ensures Indexed(Written(w, g, a)) <==> !Escapes(w, g.calls[0], a)
  {
    var call := g.calls[0];
    KeysAfter(w.cluster, call, w.spec.storage, w.spec.fields);
    FreshIndex(w, l, a, g);
    IndicesFrom(w, l, a, g);
    if call.ok {
      assert call.index in g.cluster.Keys;
    }
  }

  lemma IndexedOtherwise(w: World, l: Lock, a: Replies, g: Pass)
    requires Indexed(w) && g.calls != [] && Accounted(w, ViewOf(w), l, a, g) && !Creates(g.calls[0])
    ensures Indexed(Written(w, g, a))
  {
    KeysAfter(w.cluster, g.calls[0], w.spec.storage, w.spec.fields);
    assert g.lastCreated == w.status.lastCreated;
  }

  lemma IndexedOne(w: World, l: Lock, a: Replies, g: Pass)
    requires Indexed(w) && g.calls != [] && Accounted(w, ViewOf(w), l, a, g)
    ensures Indexed(Written(w, g, a)) <==> !Escapes(w, g.calls[0], a)
    ensures FreshCalls(w, [g.calls[0]], a)
  {
    if Creates(g.calls[0]) {
      FreshIndex(w, l, a, g);
      IndexedAfterCreation(w, l, a, g);
    } else {
      IndexedOtherwise(w, l, a, g);
    }
  }

  lemma EscapesInOne(w: World, x: seq<Call>, a: Replies)
    requires |x| == 1
    ensures NoneEscapes(w, x, a) <==> !Escapes(w, x[0], a)
    ensures FreshCalls(w, [x[0]], a) <==> FreshCalls(w, x, a)
  {
    assert x == [x[0]] && x[0] in x;
  }

  lemma IndexedFrom(w: World, l: Lock, a: Replies, g: Pass)
    requires Indexed(w) && |g.calls| <= 1
    requires g.calls == [] ==> g.cluster == w.cluster && IdlePass(w, l, g)
    requires g.calls != [] ==> Accounted(w, ViewOf(w), l, a, g)
    ensures Indexed(Written(w, g, a)) <==> NoneEscapes(w, g.calls, a)
    ensures FreshCalls(w, g.calls, a)
  {
    if g.calls != [] {
      IndexedOne(w, l, a, g);
      EscapesInOne(w, g.calls, a);
    }
  }

  lemma SameEscapes(w: World, calls: seq<Call>, fewer: seq<Call>, a: Replies)
    requires Fewer(calls, fewer)
    ensures NoneEscapes(w, calls, a) <==> NoneEscapes(w, fewer, a)
    ensures FreshCalls(w, fewer, a) ==> FreshCalls(w, calls, a)
  {
  }

  lemma IndexedByCalls(w: World, a: Replies)
    requires Readable(w) && Indexed(w) && a.now >= 0
    ensures Indexed(Reconcile(w, a)) <==> NoneEscapes(w, CallsOf(w, a), a)
    ensures FreshCalls(w, CallsOf(w, a), a)
  {
    var l, g := Outcome(w, a);
    SameEscapes(w, CallsOf(w, a), g.calls, a);
    IndexedFrom(w, l, a, g);
  }

  /** A StatefulSet is created above the counter: a replica, or a primary under a new index, whose
      status write is lost, or a primary created again under a new index, which does not advance
      the counter. */
  predicate IndexEscapes(w: World, a: Replies) {
    && CreationSucceeds(w, a)
    && if PrimaryCreationDue(w, Begin(w, a).lock)
       then LoneIndex(w, a) > w.status.lastCreated && !(a.statusOk && w.status.lastCreated == 0)
       else !a.statusOk
  }

  lemma PrimaryEscapes(w: World, l: Lock, a: Replies)
    ensures NoneEscapes(w, PrimaryCalls(w, l, a), a) <==>
              !(PrimaryCreationDue(w, l) && a.createOk
                && LoneIndex(w, a) > w.status.lastCreated && !(a.statusOk && w.status.lastCreated == 0))
  {
    CreationExcludesFailover(w, l);
    EscapesAtMostOnce(w, PrimaryCalls(w, l, a), a);
  }

  lemma EscapesAtMostOnce(w: World, x: seq<Call>, a: Replies)
    requires |x| <= 1
    ensures NoneEscapes(w, x, a) <==> x == [] || !Escapes(w, x[0], a)
  {
    assert x != [] ==> x[0] in x;
  }

  lemma ScalingEscapes(w: World, due: bool, free: bool, x: seq<Call>, a: Replies)
    requires due ==> x == [Call(CreateReplica, w.status.lastCreated + 1, a.createOk && free)]
    requires !due && x != [] ==> x[0].verb == DeleteReplica
    ensures x != [] && Escapes(w, x[0], a) <==> due && a.createOk && free && !a.statusOk
  {
  }

  lemma ReplicaEscapes(w: World, l: Lock, a: Replies)
    ensures NoneEscapes(w, ReplicaCalls(w, l, a), a) <==>
              !(ReplicaCreationDue(w, l, a) && a.createOk && w.status.lastCreated + 1 !in w.cluster && !a.statusOk)
  {
    EscapesAtMostOnce(w, ReplicaCalls(w, l, a), a);
    ScalingEscapes(w, ScaleUpDue(w), w.status.lastCreated + 1 !in w.cluster, ScaleCalls(w, a), a);
  }

  lemma EscapesAmong(w: World, calls: seq<Call>, x: seq<Call>, y: seq<Call>, a: Replies)
    requires Consists(calls, x, y)
    ensures NoneEscapes(w, calls, a) <==> NoneEscapes(w, x, a) && NoneEscapes(w, y, a)
  {
    var u :| OnlyUpdates(u) && calls == x + (y + u);
    assert forall c :: c in calls <==> c in x || c in y || c in u;
  }

  /** A primary is created beside nothing, a replica beside a primary or in standby. */
  lemma OneCreation(w: World, l: Lock, a: Replies)
    ensures !(PrimaryCreationDue(w, l) && ReplicaCreationDue(w, l, a))
  {
    NothingDeployed(w);
  }

  /** A reconcile keeps every deployed index within the counter if and only if no StatefulSet is
      created above it. */
  lemma IndexedStep(w: World, a: Replies)
    requires Readable(w) && Indexed(w) && a.now >= 0
    ensures Indexed(Reconcile(w, a)) <==> !IndexEscapes(w, a)
  {
    var l := Begin(w, a).lock;
    IndexedByCalls(w, a);
    CallsExactly(w, a);
    if Enforces(w, a) {
      EscapesAmong(w, CallsOf(w, a), PrimaryCalls(w, l, a), ReplicaCalls(w, l, a), a);
      PrimaryEscapes(w, l, a);
      ReplicaEscapes(w, l, a);
      OneCreation(w, l, a);
    }
  }

  /** A lone primary is to be created again, and its claim is gone. */
  predicate ClaimLost(w: World, a: Replies) {
    && Enforces(w, a) && PrimaryCreationDue(w, Begin(w, a).lock)
    && a.createOk && w.status.lastCreated > 0 && !a.claimExists
  }

  /** Where creations keep their status write and the counters agree, an index escapes exactly when
      a claim was lost. */
  lemma OnlyLostClaimsEscape(w: World, a: Replies)
    requires Counted(w) && !w.spec.standby && (CreationSucceeds(w, a) ==> a.statusOk)
    ensures IndexEscapes(w, a) <==> ClaimLost(w, a)
  {
  }

  /** A lone primary is created again only over its claim. */
  ghost predicate ClaimsSurvive(r: Run)
    requires |r.states| == |r.events| + 1
  {
    forall i :: r.Reconciles(i) ==> !ClaimLost(r.states[i], r.events[i].replies)
  }

  /** No index escapes the counter. */
  ghost predicate IndexedRun(r: Run) {
    IsRun(r) && forall i :: r.Reconciles(i) ==> !IndexEscapes(r.states[i], r.events[i].replies)
  }

  /** That holds, in particular, of every standby-off run in which creations keep their status write
      and lone primaries their claim. */
  lemma ClaimsKeepIndices(r: Run)
    requires CountedRun(r) && ClaimsSurvive(r)
    ensures IndexedRun(r)
  {
    forall i | r.Reconciles(i) ensures !IndexEscapes(r.states[i], r.events[i].replies) {
      ClaimKeepsIndex(r, i);
    }
  }

  lemma ClaimKeepsIndex(r: Run, i: int)
    requires CountedRun(r) && ClaimsSurvive(r) && r.Reconciles(i)
    ensures !IndexEscapes(r.states[i], r.events[i].replies)
  {
    var w, a := r.states[i], r.events[i].replies;
    CountedAt(r, i);
    ReadableAt(r, i);
    assert r.Steps(i);
    CreationExactly(w, a);
    if HasCreation(CallsOf(w, a)) {
      var c :| c in r.Calls(i) && Creates(c) && c.ok;
    }
    OnlyLostClaimsEscape(w, a);
  }

  lemma {:induction false} IndexedAt(r: Run, i: int)
    requires IndexedRun(r) && 0 <= i < |r.states|
    ensures Indexed(r.states[i])
  {
    if i > 0 {
      IndexedAt(r, i - 1);
      IndexedNext(r, i - 1);
    }
  }

  lemma IndexedNext(r: Run, i: int)
    requires IndexedRun(r) && 0 <= i < |r.events| && Indexed(r.states[i])
    ensures Indexed(r.states[i + 1])
  {
    ReadableAt(r, i);
    assert r.Steps(i);
    if r.events[i].Reconciled? {
      assert r.Reconciles(i);
      IndexedStep(r.states[i], r.events[i].replies);
    } else {
      EnvironmentIndexed(r.states[i], r.states[i + 1]);
    }
  }

  lemma EnvironmentIndexed(w: World, w': World)
    requires EnvironmentStep(w, w') && Indexed(w)
    ensures Indexed(w')
  {
  }

  /** Deployed indices never exceed the counter; whatever is created gets an index that no
      deployed StatefulSet has, and a new replica one that no StatefulSet had at any earlier
      moment of the run. */
  lemma NewIndices(r: Run, k: int, i: int, call: Call)
    requires IndexedRun(r) && r.Reconciles(i) && 0 <= k <= i && call in r.Calls(i)
    ensures forall x :: x in r.states[k].cluster ==> x <= r.states[k].status.lastCreated
    ensures Creates(call) ==> call.index !in r.states[i].cluster && (call.ok <==> r.events[i].replies.createOk)
    ensures call.verb == CreateReplica ==> forall x :: x in r.states[k].cluster ==> x < call.index
  {
    IndexedAt(r, k);
    IndexedAt(r, i);
    ReadableAt(r, i);
    IndicesGrow(r, k, i);
    assert r.Steps(i);
    IndexedByCalls(r.states[i], r.events[i].replies);
  }

  /** Without the claim the lone primary gets an index above the counter, and the counter stays
      behind. */
  lemma LostClaim(w: World, a: Replies)
    requires Readable(w) && a.now >= 0 && ClaimLost(w, a)
    ensures Reconcile(w, a).status.lastCreated == w.status.lastCreated
    ensures Reconcile(w, a).cluster.Keys == {w.status.lastCreated + 1}
  {
    var l := Begin(w, a).lock;
    CreationExcludesFailover(w, l);
    CallsExactly(w, a);
    var c := PrimaryCalls(w, l, a)[0];
    PrimaryVerbs(w, l, CallsOf(w, a), a, c);
    var l', g := Outcome(w, a);
    LostClaimFrom(w, l', a, g, c);
  }

  lemma LostClaimFrom(w: World, l: Lock, a: Replies, g: Pass, c: Call)
    requires g.calls != [] && Accounted(w, ViewOf(w), l, a, g) && c in g.calls
    requires c.verb == CreatePrimary && c.ok && w.status.lastCreated > 0 && w.cluster == map[]
    ensures Written(w, g, a).status.lastCreated == w.status.lastCreated
    ensures g.cluster.Keys == {c.index}
  {
    assert g.calls == [g.calls[0]];
    KeysAfter(w.cluster, c, w.spec.storage, w.spec.fields);
  }

  /** From then on no replica can be created as long as that StatefulSet is deployed: every
      attempt picks its name. */
  lemma BlockedByIndex(w: World, a: Replies, call: Call)
    requires Readable(w) && a.now >= 0 && w.status.lastCreated + 1 in w.cluster
    requires call in CallsOf(w, a) && call.verb == CreateReplica
    ensures !call.ok && Reconcile(w, a).cluster == w.cluster
    ensures Reconcile(w, a).status.lastCreated == w.status.lastCreated
  {
    var l, g := Outcome(w, a);
    BlockedFrom(w, l, a, g, call);
  }

  lemma BlockedFrom(w: World, l: Lock, a: Replies, f: Pass, call: Call)
    requires f.calls != [] && Accounted(w, ViewOf(w), l, a, f) && call in f.calls
    requires w.status.lastCreated + 1 in w.cluster && call.verb == CreateReplica
    ensures !call.ok && f.cluster == w.cluster && f.lastCreated == w.status.lastCreated
  {
    assert f.calls == [f.calls[0]];
  }
}
