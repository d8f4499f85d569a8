/** One reconcile against the stored state: its calls, the lock it leaves, and exactly when the
    agreement between lock and cluster survives. */
module Steps {
  import opened Resources
  import opened BlockingOperations
  import opened Snapshots
  import opened Enforcement
  import opened Reconciling
  import opened Effects

  /** The record of the lock is one that the calls of the lock can leave. Nothing is said about
      the cluster. */
  predicate Readable(w: World) {
    Coherent(w.status.operation, w.status.previous)
  }

  lemma BeginStarts(w: World, a: Replies)
    requires Readable(w)
    ensures Starts(Begin(w, a), w, ViewOf(w)) && CoherentLock(Begin(w, a).lock)
    ensures Begin(w, a).stored == w.spec
  {
    ViewFacts(w);
    RolesPartition(w.cluster);
    LoadedWait(w, a);
  }

  /** The wait can only be over for an operation that was stored waiting or parked, and not
      before its time-out. */
  lemma LoadedWait(w: World, a: Replies)
    requires Coherent(w.status.operation, w.status.previous)
    ensures var op, l := w.status.operation, Begin(w, a).lock;
            && (l.active.id == PrimaryDbCount && l.active.step == TransitionStep ==>
                  && WaitIsOver(l) && op.id == PrimaryDbCount
                  && (|| (op.step == TransitionStep && l == Lock(op, w.status.previous, op))
                      || (op.step == WaitingBeforeFailingOver && op.timeOut <= a.now
                          && l.previous == op.(hasTimedOut := true))))
            && (l.active.id == PrimaryDbCount && l.active.step == WaitingBeforeFailingOver ==>
                  l == Lock(op, w.status.previous, op) && op.timeOut > a.now)
            && (l.active.hasTimedOut ==> l.active.step != TransitionStep)
  {
  }

  /** What a reconcile does, read from where its pass ends: `Effective` leaves out a failed
      promotion that another call has followed. */
  lemma FinishFacts(w: World, a: Replies)
    requires Readable(w) && a.now >= 0
    ensures var f, v, l := Finish(w, a), ViewOf(w), Begin(w, a).lock;
            && CoherentLock(f.lock)
            && |f.calls| <= 2 && (|f.calls| == 2 ==> Preceded(l, v, f))
            && (f.calls == [] ==> f.cluster == w.cluster && IdlePass(w, l, f))
            && (f.calls != [] ==> Accounted(w, v, l, a, Effective(f)) && !SpecFatal(w.spec, v)
                                  && RequeueAfter(l, a.now) == 0)
  {
    BeginStarts(w, a);
    var v, p := ViewOf(w), Begin(w, a);
    if RequeueAfter(p.lock, a.now) <= 0 && !SpecFatal(p.spec, v) {
      EnforcementFacts(w, p, v, a);
    }
  }

  lemma EnforcementFacts(w: World, p: Pass, v: View, a: Replies)
    requires Starts(p, w, v)
    ensures var r := EnforceAll(p, v, a);
            && |r.calls| <= 2 && (|r.calls| == 2 ==> Preceded(p.lock, v, r))
            && (r.calls == [] ==> r.cluster == w.cluster && IdlePass(w, p.lock, r))
            && (r.calls != [] ==> Accounted(w, v, p.lock, a, Effective(r)))
  {
    EnforcementActs(w, p, v, a);
    if EnforceAll(p, v, a).calls == [] {
      EnforcementIdles(w, p, v, a);
    }
  }

  /** What `Effective` leaves out changes neither the world nor any successful call. */
  lemma EffectiveFacts(w: World, l: Lock, v: View, a: Replies, f: Pass)
    requires |f.calls| <= 2 && (|f.calls| == 2 ==> Preceded(l, v, f))
    ensures var g := Effective(f);
            && |g.calls| <= 1 && (g.calls == [] <==> f.calls == [])
            && Written(w, g, a) == Written(w, f, a) && g.lock == f.lock && g.cluster == f.cluster
            && (forall c :: c in g.calls ==> c in f.calls)
            && (forall c :: c in f.calls && (c.ok || c.verb != PromoteReplica) ==> c in g.calls)
  {
  }

  /** `fewer` leaves out failed promotions only. */
  predicate Fewer(calls: seq<Call>, fewer: seq<Call>) {
    && (forall c :: c in fewer ==> c in calls)
    && (forall c :: c in calls && (c.ok || c.verb != PromoteReplica) ==> c in fewer)
  }

  /** What a reconcile makes of the world is what its effective pass `g` writes; `l` is the lock
      it started with. */
  lemma Outcome(w: World, a: Replies) returns (l: Lock, g: Pass)
    requires Readable(w) && a.now >= 0
    ensures Reconcile(w, a) == Written(w, g, a) && CoherentLock(g.lock)
    ensures |g.calls| <= 1 && Fewer(CallsOf(w, a), g.calls)
    ensures g.calls == [] ==> g.cluster == w.cluster && IdlePass(w, l, g)
    ensures g.calls != [] ==> Accounted(w, ViewOf(w), l, a, g) && l == Begin(w, a).lock
  {
    if |Primaries(w.cluster)| > 1 {
      l := Lock(w.status.operation, w.status.previous, w.status.operation);
      g := Pass(l, w.status.enforcedReplicas, w.status.lastCreated,
                w.spec, w.spec, w.cluster, w.pods, w.baseConfig, [], false);
    } else {
      l, g := Begin(w, a).lock, Effective(Finish(w, a));
      FinishFacts(w, a);
      EffectiveFacts(w, l, ViewOf(w), a, Finish(w, a));
    }
  }

  /** The last call accounts for the new cluster and for the lock that is written. */
  predicate Recorded(w: World, last: Call, a: Replies, w': World) {
    && w'.cluster == Applied(w.cluster, last, w.spec.storage, w.spec.fields)
    && (last.ok && a.statusOk ==>
          var op := w'.status.operation;
          && (op.id, op.step) == StepOf(last.verb)
          && op.timeOut == a.now + TimeOutOf(op.step)
          && (last.verb != DeletePrimary ==> op.index == last.index))
    && (!last.ok && last.verb != DeletePrimary && a.statusOk ==> w'.status.operation == NONE)
  }

  lemma RecordedFrom(w: World, l: Lock, a: Replies, g: Pass)
    requires g.calls != [] && Accounted(w, ViewOf(w), l, a, g) && CoherentLock(g.lock)
    ensures Recorded(w, g.calls[0], a, Written(w, g, a))
  {
  }

  /** Every reconcile, whatever the lock record says about the cluster, makes at most one
      StatefulSet call that succeeds. It makes at most two at all, and a second one only after
      a failed promotion beside a ready primary. The last call is the whole change of the
      cluster, and if it succeeds, the status that is written holds the operation that made it,
      started at that moment. */
  lemma OneCallPerReconcile(w: World, a: Replies)
    requires Readable(w) && a.now >= 0
    ensures CallsAccount(w, CallsOf(w, a), a, Reconcile(w, a))
  {
    FinishFacts(w, a);
    CallsFrom(w, Begin(w, a).lock, a, Finish(w, a));
  }

  predicate CallsAccount(w: World, calls: seq<Call>, a: Replies, w': World) {
    && |calls| <= 2
    && (|calls| == 2 ==> calls[0].verb == PromoteReplica && !calls[0].ok && ViewOf(w).PrimaryReady())
    && (calls == [] ==> w'.cluster == w.cluster)
    && (calls != [] ==> Recorded(w, calls[|calls| - 1], a, w'))
  }

  lemma CallsFrom(w: World, l: Lock, a: Replies, f: Pass)
    requires |f.calls| <= 2 && (|f.calls| == 2 ==> Preceded(l, ViewOf(w), f)) && CoherentLock(f.lock)
    requires f.calls == [] ==> f.cluster == w.cluster
    requires f.calls != [] ==> Accounted(w, ViewOf(w), l, a, Effective(f))
    ensures CallsAccount(w, f.calls, a, Written(w, f, a))
  {
    EffectiveFacts(w, l, ViewOf(w), a, f);
    if f.calls != [] {
      RecordedFrom(w, l, a, Effective(f));
      assert Effective(f).calls[0] == f.calls[|f.calls| - 1];
    }
  }

  /** Where lock and cluster agree, there is at most one call. */
  lemma SoundMakesOneCall(w: World, a: Replies)
    requires Sound(w) && a.now >= 0
    ensures |Finish(w, a).calls| <= 1 && Effective(Finish(w, a)) == Finish(w, a)
  {
    FinishFacts(w, a);
    LoadedWait(w, a);
    ViewFacts(w);
  }

  /** The call makes a StatefulSet the primary. */
  predicate MakesPrimary(call: Call) {
    call.ok && (call.verb == CreatePrimary || call.verb == PromoteReplica)
  }

  /** The old primary was to be deleted and is still there. */
  predicate LeavesOldPrimary(w: World, call: Call) {
    call.verb == DeletePrimary && Primaries(w.cluster) != {} && !call.ok
  }

  predicate FailoverPending(op: Operation) {
    op.id == PrimaryDbCount && (op.step == WaitingBeforeFailingOver || op.step == TransitionStep)
  }

  /** The two ways in which the record can come to disagree with the cluster: waiting is
      recorded although the old primary is still there, or a primary was made and the
      record still says that one is to be promoted. */
  predicate Careful(w: World, calls: seq<Call>, a: Replies) {
    forall c :: c in calls ==>
      && (LeavesOldPrimary(w, c) ==> !a.statusOk)
      && (MakesPrimary(c) && FailoverPending(w.status.operation) ==> a.statusOk)
  }

  /** The name of a new StatefulSet was free, a promoted one exists. */
  predicate FitsCluster(c: Cluster, call: Call) {
    && (call.ok && (call.verb == CreatePrimary || call.verb == CreateReplica) ==> call.index !in c)
    && (call.ok && call.verb == PromoteReplica ==> call.index in c)
  }

  /** The primaries after a call. */
  lemma AppliedPrimaries(c: Cluster, call: Call, s: Storage, f: Fields)
    requires FitsCluster(c, call)
    ensures Primaries(Applied(c, call, s, f))
            == (if MakesPrimary(call) then Primaries(c) + {call.index}
                else if call.ok && (call.verb == DeletePrimary || call.verb == DeleteReplica)
                then Primaries(c) - {call.index}
                else Primaries(c))
  {
    var c' := Applied(c, call, s, f);
    forall i ensures i in Primaries(c') <==>
        (if MakesPrimary(call) then i in Primaries(c) + {call.index}
         else if call.ok && (call.verb == DeletePrimary || call.verb == DeleteReplica)
         then i in Primaries(c) - {call.index}
         else i in Primaries(c))
    {
    }
  }

  /** Whom a call concerns. */
  lemma CallTargets(w: World, l: Lock, a: Replies, f: Pass)
    requires |Primaries(w.cluster)| <= 1 && Accounted(w, ViewOf(w), l, a, f)
    requires WaitIsOver(l) ==> Primaries(w.cluster) == {}
    ensures var call := f.calls[0];
            && (MakesPrimary(call) ==> Primaries(w.cluster) == {})
            && (call.verb == DeletePrimary ==> call.ok ==> Primaries(w.cluster) == {call.index})
            && (call.verb == DeleteReplica ==> call.index !in Primaries(w.cluster))
  {
    var call := f.calls[0];
    ViewFacts(w);
    if call.verb == DeletePrimary && call.ok {
      OnlyPrimary(w, call.index);
    }
  }

  lemma OnlyPrimary(w: World, i: nat)
    requires |Primaries(w.cluster)| <= 1 && ViewOf(w).primary == Some(i)
    ensures Primaries(w.cluster) == {i}
  {
    ViewFacts(w);
    forall j | j in Primaries(w.cluster) ensures j == i {
      OnlyElement(Primaries(w.cluster), i, j);
    }
  }

  lemma PrimariesAfterCall(c: Cluster, call: Call, s: Storage, f: Fields)
    requires |Primaries(c)| <= 1 && FitsCluster(c, call)
    requires MakesPrimary(call) ==> Primaries(c) == {}
    requires call.verb == DeletePrimary && call.ok ==> Primaries(c) == {call.index}
    requires call.verb == DeleteReplica ==> call.index !in Primaries(c)
    ensures var p := Primaries(Applied(c, call, s, f));
            && |p| <= 1
            && (MakesPrimary(call) ==> p == {call.index})
            && (call.verb == DeletePrimary ==> p == if call.ok then {} else Primaries(c))
            && (!MakesPrimary(call) && call.verb != DeletePrimary ==> p == Primaries(c))
  {
    AppliedPrimaries(c, call, s, f);
  }

  lemma PrimariesAfter(w: World, l: Lock, a: Replies, f: Pass)
    requires |Primaries(w.cluster)| <= 1 && Accounted(w, ViewOf(w), l, a, f)
    requires WaitIsOver(l) ==> Primaries(w.cluster) == {}
    ensures |Primaries(f.cluster)| <= 1
    ensures MakesPrimary(f.calls[0]) ==> Primaries(w.cluster) == {} && Primaries(f.cluster) == {f.calls[0].index}
    ensures f.calls[0].verb == DeletePrimary ==>
              Primaries(f.cluster) == if LeavesOldPrimary(w, f.calls[0]) then Primaries(w.cluster) else {}
    ensures !MakesPrimary(f.calls[0]) && f.calls[0].verb != DeletePrimary ==>
              Primaries(f.cluster) == Primaries(w.cluster)
  {
    CallTargets(w, l, a, f);
    AccountedCluster(w, l, a, f);
    PrimariesAfterCall(w.cluster, f.calls[0], w.spec.storage, w.spec.fields);
  }

  lemma AccountedCluster(w: World, l: Lock, a: Replies, f: Pass)
    requires Accounted(w, ViewOf(w), l, a, f)
    ensures |f.calls| == 1 && f.cluster == Applied(w.cluster, f.calls[0], w.spec.storage, w.spec.fields)
    ensures FitsCluster(w.cluster, f.calls[0])
  {
  }

  lemma SoundAfterCall(w: World, l: Lock, a: Replies, f: Pass)
    requires Sound(w) && Accounted(w, ViewOf(w), l, a, f) && CoherentLock(f.lock)
    requires WaitIsOver(l) ==> Primaries(w.cluster) == {}
    ensures |Primaries(f.cluster)| <= 1
    ensures var call := f.calls[0];
            Sound(Written(w, f, a)) <==>
              && (LeavesOldPrimary(w, call) ==> !a.statusOk)
              && (MakesPrimary(call) && FailoverPending(w.status.operation) ==> a.statusOk)
  {
    PrimariesAfter(w, l, a, f);
  }

  lemma SoundWhenIdle(w: World, l: Lock, a: Replies, f: Pass)
    requires Sound(w) && CoherentLock(f.lock)
    requires f.cluster == w.cluster && IdlePass(w, l, f)
    requires FailoverPending(l.saved) ==> Primaries(w.cluster) == {}
    ensures Sound(Written(w, f, a))
  {
  }

  lemma SoundFrom(w: World, l: Lock, a: Replies, f: Pass)
    requires Sound(w) && CoherentLock(f.lock)
    requires FailoverPending(l.saved) || WaitIsOver(l) ==> Primaries(w.cluster) == {}
    requires f.calls == [] ==> f.cluster == w.cluster && IdlePass(w, l, f)
    requires f.calls != [] ==> Accounted(w, ViewOf(w), l, a, f)
    ensures Sound(Written(w, f, a)) <==> Careful(w, f.calls, a)
    ensures |Primaries(f.cluster)| <= 1
  {
    if f.calls == [] {
      SoundWhenIdle(w, l, a, f);
    } else {
      SoundAfterCall(w, l, a, f);
      assert f.calls == [f.calls[0]];
    }
  }

  /** Exactly when a reconcile keeps lock and cluster in agreement, said of its calls. */
  lemma SoundByCalls(w: World, a: Replies)
    requires Sound(w) && a.now >= 0
    ensures Sound(Reconcile(w, a)) <==> Careful(w, CallsOf(w, a), a)
    ensures |Primaries(Reconcile(w, a).cluster)| <= 1
  {
    FinishFacts(w, a);
    SoundMakesOneCall(w, a);
    BeginStarts(w, a);
    LoadedWait(w, a);
    SoundFrom(w, Begin(w, a).lock, a, Finish(w, a));
  }
}
