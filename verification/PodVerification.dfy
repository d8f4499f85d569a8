/** After an update, the lock stays on the updated instance until its pod was seen ready, not
    stuck and with the wanted image and port; only then may the next update start. */
module PodVerification {
  import opened Resources
  import opened BlockingOperations
  import opened Snapshots
  import opened Enforcement
  import opened Reconciling
  import opened Effects
  import opened Steps
  import opened Decisions
  import opened Runs
  import opened RollingUpdate
  import opened Freezing

  /** The rollout operation is about instance `x`. Only the update itself records what it
      changes; the steps that wait for the pod record nothing. */
  predicate On(op: Operation, previous: Operation, x: nat) {
    && op.id == StatefulSetSpec
    && if op.step == TransitionStep then op.index == previous.index == x
       else op.index == x && (op.step == SpecUpdating <==> op.differences != [])
  }

  predicate LockOn(l: Lock, x: nat) {
    && On(l.saved, l.previous, x)
    && l.saved == l.active.(hasTimedOut := false)
    && (l.active.step == TransitionStep ==> !l.active.hasTimedOut)
  }

  /** Up to position `k`, where `x` stands, nothing differs from the wanted fields. */
  predicate CleanUpTo(want: Fields, v: View, order: seq<nat>, k: int, x: nat) {
    && 0 <= k < |order| && order[k] == x && DifferencesAt(want, v, x) == []
    && forall j :: 0 <= j < k ==> order[j] != x && DifferencesAt(want, v, order[j]) == []
  }

  /** The loop passes over what comes before `x`. */
  lemma {:induction false} RolloutReaches(p: Pass, v: View, order: seq<nat>, k: int, x: nat, a: Replies)
    requires LockOn(p.lock, x) && CleanUpTo(p.spec.fields, v, order, k, x)
    ensures Rollout(p, v, order, a) == Rollout(p, v, order[k..], a)
    decreases k
  {
    if k > 0 {
      var rest := order[1..];
      assert order[0] != x && DifferencesAt(p.spec.fields, v, order[0]) == [];
      assert CleanUpTo(p.spec.fields, v, rest, k - 1, x) by {
        forall j | 0 <= j < k - 1 ensures rest[j] != x && DifferencesAt(p.spec.fields, v, rest[j]) == [] {
          assert rest[j] == order[j + 1];
        }
      }
      RolloutReaches(p, v, rest, k - 1, x, a);
      assert rest[k - 1..] == order[k..];
    } else {
      assert order[0..] == order;
    }
  }

  /** The three ways in which the loop lets go of `x`: its pod is as it should be, its pod is
      stuck and could not be deleted, or the update itself had timed out. */
  predicate LetsGo(l: Lock, want: Fields, v: View, x: nat, a: Replies) {
    if l.active.step == TransitionStep then
      PodVerified(want, v, x) || (PodStuck(v, x) && !a.podDeleteOk)
    else l.active.step == SpecUpdating && l.active.hasTimedOut
  }

  /** Otherwise the loop stops at `x`: no call, and the lock stays on `x`. */
  lemma HeldAt(p: Pass, v: View, order: seq<nat>, x: nat, a: Replies)
    requires LockOn(p.lock, x) && order != [] && order[0] == x && DifferencesAt(p.spec.fields, v, x) == []
    requires p.lock.active.step == TransitionStep || p.lock.active.hasTimedOut
    requires x in v.pods && !p.failed && !LetsGo(p.lock, p.spec.fields, v, x, a)
    ensures var r := Rollout(p, v, order, a);
            && LockOn(r.lock, x) && r.calls == p.calls
  {
    if p.lock.active.step == TransitionStep {
      StartFacts(p, StatefulSetSpec, WaitingOnStuckPod, x, [], a.now);
      StartFacts(p, StatefulSetSpec, PodSpecUpdating, x, [], a.now);
      assert Rollout(p, v, order, a) == VerifyPod(p, v, x, a);
    } else {
      assert Rollout(p, v, order, a) == p;
    }
  }

  /** The other enforcers leave the lock alone while a rollout holds it. */
  lemma OthersWait(p: Pass, v: View, a: Replies)
    requires p.lock.active.id == StatefulSetSpec && !p.failed
    ensures var r, s := EnforceAll(p, v, a), WithoutPrimary(p, v);
            && s.lock == p.lock && s.calls == p.calls && s.pods == p.pods && s.spec == p.spec && !s.failed
            && (if a.servicesOk && (p.spec.standby || v.PrimaryReady())
                then r == Rollout(s, v, RolloutOrder(p.spec.standby, v), a)
                else r.lock == p.lock && r.calls == p.calls && r.pods == p.pods)
  {
    PrimaryShape(p, v, a);
    AllShape(p, v, a);
  }

  lemma HeldByChain(p: Pass, v: View, k: int, x: nat, a: Replies)
    requires LockOn(p.lock, x) && !p.failed && x in v.pods && p.calls == []
    requires p.lock.active.step == TransitionStep || p.lock.active.hasTimedOut
    requires CleanUpTo(p.spec.fields, v, RolloutOrder(p.spec.standby, v), k, x)
    requires !LetsGo(p.lock, p.spec.fields, v, x, a)
    ensures LockOn(EnforceAll(p, v, a).lock, x) && EnforceAll(p, v, a).calls == []
  {
    OthersWait(p, v, a);
    var s, order := WithoutPrimary(p, v), RolloutOrder(p.spec.standby, v);
    RolloutReaches(s, v, order, k, x, a);
    HeldAt(s, v, order[k..], x, a);
  }

  /** Reading the lock back keeps it on the same instance. */
  lemma LoadedOn(w: World, a: Replies, x: nat)
    requires Coherent(w.status.operation, w.status.previous) && a.now >= 0
    requires On(w.status.operation, w.status.previous, x)
    ensures var l, op := Begin(w, a).lock, w.status.operation;
            && LockOn(l, x)
            && (RequeueAfter(l, a.now) == 0 ==> l.active.step == TransitionStep || l.active.hasTimedOut)
            && (l.active.hasTimedOut ==> l.active.step == op.step && op.timeOut <= a.now)
  {
    ReexaminedInTime(w.status.operation, w.status.previous, a.now,
                     Completed(w.status.operation, w.spec, ViewOf(w), a.now));
  }

  /** Whoever looks at the state between two updates: the pod of `x` is listed, a stuck pod
      can be deleted, and the update of `x` is not found timed out. */
  predicate Attended(w: World, a: Replies, x: nat) {
    && x in w.pods
    && (w.pods[x].stuck ==> a.podDeleteOk)
    && (w.status.operation.step == SpecUpdating ==> a.now < w.status.operation.timeOut)
  }

  /** A reconcile that does not see the pod of `x` as it should be makes no call and keeps
      the lock on `x`. */
  lemma HeldStep(w: World, a: Replies, k: int, x: nat)
    requires Readable(w) && a.now >= 0 && On(w.status.operation, w.status.previous, x)
    requires CleanUpTo(w.spec.fields, ViewOf(w), RolloutOrder(w.spec.standby, ViewOf(w)), k, x)
    requires Attended(w, a, x) && !PodVerified(w.spec.fields, ViewOf(w), x)
    ensures CallsOf(w, a) == []
    ensures On(Reconcile(w, a).status.operation, Reconcile(w, a).status.previous, x)
  {
    HeldPass(w, a, k, x);
    HeldWritten(w, a, Finish(w, a), x);
  }

  lemma HeldPass(w: World, a: Replies, k: int, x: nat)
    requires Readable(w) && a.now >= 0 && On(w.status.operation, w.status.previous, x)
    requires CleanUpTo(w.spec.fields, ViewOf(w), RolloutOrder(w.spec.standby, ViewOf(w)), k, x)
    requires Attended(w, a, x) && !PodVerified(w.spec.fields, ViewOf(w), x)
    ensures Finish(w, a).calls == [] && LockOn(Finish(w, a).lock, x)
  {
    LoadedOn(w, a, x);
    LateOrParked(w, a, x);
    var p, v := Begin(w, a), ViewOf(w);
    if RequeueAfter(p.lock, a.now) <= 0 && !SpecFatal(p.spec, v) {
      HeldByChain(p, v, k, x, a);
    }
  }

  lemma LateOrParked(w: World, a: Replies, x: nat)
    requires Readable(w) && a.now >= 0 && On(w.status.operation, w.status.previous, x)
    requires Attended(w, a, x) && !PodVerified(w.spec.fields, ViewOf(w), x)
    ensures !LetsGo(Begin(w, a).lock, w.spec.fields, ViewOf(w), x, a)
  {
    LoadedOn(w, a, x);
  }

  lemma HeldWritten(w: World, a: Replies, f: Pass, x: nat)
    requires LockOn(f.lock, x) && On(w.status.operation, w.status.previous, x)
    ensures var s := Written(w, f, a).status; On(s.operation, s.previous, x)
  {
  }

  lemma CleanWhenDone(w: World, k: int, x: nat)
    requires DoneUpTo(w, k, x)
    ensures CleanUpTo(w.spec.fields, ViewOf(w), RolloutOrder(w.spec.standby, ViewOf(w)), k, x)
  {
    var order := RolloutOrder(w.spec.standby, ViewOf(w));
    DifferencesFade(w, x);
    forall j | 0 <= j < k ensures order[j] != x && DifferencesAt(w.spec.fields, ViewOf(w), order[j]) == [] {
      DifferencesFade(w, order[j]);
      OrderMeans(w, w.spec.standby, j, k);
    }
  }

  /** A successful update puts the lock on its instance. */
  lemma UpdatePutsLock(w: World, a: Replies, x: nat)
    requires Readable(w) && a.now >= 0 && a.statusOk && Call(UpdateFields, x, true) in CallsOf(w, a)
    ensures On(Reconcile(w, a).status.operation, Reconcile(w, a).status.previous, x)
  {
    var l, g := Outcome(w, a);
    UpdatePutsLockFrom(w, l, a, g, x);
  }

  lemma UpdatePutsLockFrom(w: World, l: Lock, a: Replies, f: Pass, x: nat)
    requires f.calls != [] && Accounted(w, ViewOf(w), l, a, f) && Call(UpdateFields, x, true) in f.calls
    ensures LockOn(f.lock, x)
  {
    assert f.calls[0] == Call(UpdateFields, x, true);
  }

  /** Between events `i` and `j` every reconcile finds the pod of `x` attended. */
  ghost predicate AttendedBetween(r: Run, i: int, j: int, x: nat)
    requires |r.states| == |r.events| + 1
  {
    forall k :: i < k <= j && r.Reconciles(k) ==> Attended(r.states[k], r.events[k].replies, x)
  }

  /** Event `m` is a reconcile that sees the pod of `x` ready, not stuck, with the wanted
      image and port. */
  ghost predicate SeesPod(r: Run, m: int, x: nat)
    requires |r.states| == |r.events| + 1
  {
    r.Reconciles(m) && PodVerified(r.states[m].spec.fields, ViewOf(r.states[m]), x)
  }

  lemma HeldOnce(r: Run, i: int, j: int, x: nat)
    requires IsRun(r) && SteadyStretch(r, i, j) && i < j && Updates(r, i, x)
    requires r.Reconciles(j) && Attended(r.states[j], r.events[j].replies, x) && !SeesPod(r, j, x)
    requires On(r.states[j].status.operation, r.states[j].status.previous, x)
    ensures r.Calls(j) == []
    ensures On(r.states[j + 1].status.operation, r.states[j + 1].status.previous, x)
  {
    var k := DoneAfterUpdate(r, i, j, x);
    CleanWhenDone(r.states[j], k, x);
    assert r.Steps(j);
    ReadableAt(r, j);
    HeldStep(r.states[j], r.events[j].replies, k, x);
  }

  lemma LockPutAt(r: Run, i: int, x: nat)
    requires IsRun(r) && Updates(r, i, x) && r.events[i].replies.statusOk
    ensures On(r.states[i + 1].status.operation, r.states[i + 1].status.previous, x)
  {
    assert r.Steps(i);
    ReadableAt(r, i);
    UpdatePutsLock(r.states[i], r.events[i].replies, x);
  }

  lemma HeldNext(r: Run, i: int, j: int, x: nat)
    requires IsRun(r) && SteadyStretch(r, i, j) && i < j < |r.events| && Updates(r, i, x)
    requires r.Reconciles(j) ==> Attended(r.states[j], r.events[j].replies, x)
    requires !SeesPod(r, j, x) && On(r.states[j].status.operation, r.states[j].status.previous, x)
    ensures On(r.states[j + 1].status.operation, r.states[j + 1].status.previous, x)
  {
    if r.Reconciles(j) {
      HeldOnce(r, i, j, x);
    } else {
      StatusUntouched(r, j);
    }
  }

  lemma {:induction false} HeldUntilSeen(r: Run, i: int, j: int, x: nat)
    requires IsRun(r) && SteadyStretch(r, i, j) && i < j && Updates(r, i, x)
    requires r.events[i].replies.statusOk && AttendedBetween(r, i, j, x)
    requires forall m :: i < m < j ==> !SeesPod(r, m, x)
    ensures On(r.states[j].status.operation, r.states[j].status.previous, x)
    decreases j - i
  {
    if j == i + 1 {
      LockPutAt(r, i, x);
    } else {
      assert SteadyStretch(r, i, j - 1);
      HeldUntilSeen(r, i, j - 1, x);
      assert !SeesPod(r, j - 1, x);
      HeldNext(r, i, j - 1, x);
    }
  }

  /** No update starts until the previously updated pod was seen as it should be: between the
      update of `x` and any later StatefulSet call there is a reconcile, possibly the calling
      one itself, that saw the pod of `x` ready, not stuck and with the wanted image and port. */
  lemma PodSeenBeforeNextCall(r: Run, i: int, j: int, x: nat) returns (m: int)
    requires IsRun(r) && SteadyStretch(r, i, j) && i < j && Updates(r, i, x)
    requires r.events[i].replies.statusOk && AttendedBetween(r, i, j, x)
    requires r.Reconciles(j) && r.Calls(j) != []
    ensures i < m <= j && SeesPod(r, m, x)
  {
    m := j;
    if !SeesPod(r, j, x) {
      if n :| i < n < j && SeesPod(r, n, x) {
        m := n;
      } else {
        HeldUntilSeen(r, i, j, x);
        HeldOnce(r, i, j, x);
        assert false;
      }
    }
  }

  // ---------- Exactly when the lock is let go ----------

  /** An update found timed out although the StatefulSet has the wanted fields is dropped
      without a look at the pod: the loop goes on as if nothing were active. */
  lemma LateUpdateSkipsPod(p: Pass, v: View, order: seq<nat>, x: nat, a: Replies)
    requires LockOn(p.lock, x) && p.lock.active.step == SpecUpdating && p.lock.active.hasTimedOut
    requires order != [] && order[0] == x && DifferencesAt(p.spec.fields, v, x) == []
    ensures Rollout(p, v, order, a) == Rollout(Release(p), v, order[1..], a)
  {
  }

  /** With a free lock the loop leaves the lock free or puts it on another instance. */
  lemma FreeElsewhere(p: Pass, v: View, order: seq<nat>, x: nat, a: Replies)
    requires !IsActive(p.lock) && Untouched(p, v) && !p.failed && x !in order && CoherentLock(p.lock)
    ensures !LockOn(Rollout(p, v, order, a).lock, x)
  {
    var k := FreeRollout(p, v, order, a);
    if k >= 0 {
      assert order[k] in order;
      UpdateOneFacts(p, v, order[k], DifferencesAt(p.spec.fields, v, order[k]), a);
    }
  }

  lemma LetGoAt(p: Pass, v: View, order: seq<nat>, x: nat, a: Replies)
    requires LockOn(p.lock, x) && order != [] && order[0] == x && DifferencesAt(p.spec.fields, v, x) == []
    requires x !in order[1..] && Untouched(p, v)
    requires x in v.pods && !p.failed && LetsGo(p.lock, p.spec.fields, v, x, a)
    ensures !LockOn(Rollout(p, v, order, a).lock, x)
  {
    var free := Release(p);
    if p.lock.active.step != TransitionStep {
      LateUpdateSkipsPod(p, v, order, x, a);
      FreeElsewhere(free, v, order[1..], x, a);
    } else if PodVerified(p.spec.fields, v, x) {
      if a.serviceDeleteOk {
        assert free.(failed := false) == free;
        assert Rollout(p, v, order, a) == Rollout(free, v, order[1..], a);
        FreeElsewhere(free, v, order[1..], x, a);
      }
    } else {
      StartFacts(p, StatefulSetSpec, WaitingOnStuckPod, x, [], a.now);
      assert Rollout(p, v, order, a) == VerifyPod(p, v, x, a);
    }
  }

  /** The loop keeps the lock on `x` if and only if none of the three happened. */
  lemma HeldExactly(p: Pass, v: View, order: seq<nat>, x: nat, a: Replies)
    requires LockOn(p.lock, x) && order != [] && order[0] == x && DifferencesAt(p.spec.fields, v, x) == []
    requires p.lock.active.step == TransitionStep || p.lock.active.hasTimedOut
    requires x !in order[1..] && Untouched(p, v) && x in v.pods && !p.failed
    ensures LockOn(Rollout(p, v, order, a).lock, x) <==> !LetsGo(p.lock, p.spec.fields, v, x, a)
  {
    if LetsGo(p.lock, p.spec.fields, v, x, a) {
      LetGoAt(p, v, order, x, a);
    } else {
      HeldAt(p, v, order, x, a);
    }
  }

  lemma LateBegins(w: World, a: Replies, x: nat)
    requires Readable(w) && a.now >= 0 && On(w.status.operation, w.status.previous, x)
    requires w.status.operation.step == SpecUpdating && w.status.operation.timeOut <= a.now
    ensures var p := Begin(w, a);
            && LockOn(p.lock, x) && p.lock.active.step == SpecUpdating && p.lock.active.hasTimedOut
            && RequeueAfter(p.lock, a.now) == 0
  {
    LoadedOn(w, a, x);
  }

  /** The condition on time cannot be dropped: whatever the pod of `x` looks like, a reconcile
      that finds the update of `x` timed out goes on to update the next StatefulSet. */
  lemma LateUpdateMovesOn(w: World, a: Replies, k: int, x: nat, y: nat)
    requires Readable(w) && a.now >= 0 && On(w.status.operation, w.status.previous, x)
    requires w.status.operation.step == SpecUpdating && w.status.operation.timeOut <= a.now
    requires |Primaries(w.cluster)| <= 1 && !SpecFatal(w.spec, ViewOf(w)) && a.servicesOk && a.updateOk
    requires w.spec.standby || ViewOf(w).PrimaryReady()
    requires CleanUpTo(w.spec.fields, ViewOf(w), RolloutOrder(w.spec.standby, ViewOf(w)), k, x)
    requires k + 1 < |RolloutOrder(w.spec.standby, ViewOf(w))| && RolloutOrder(w.spec.standby, ViewOf(w))[k + 1] == y
    requires y in w.cluster && w.cluster[y].fields != w.spec.fields
    ensures CallsOf(w, a) == [Call(UpdateFields, y, true)]
  {
    LateBegins(w, a, x);
    BeginStarts(w, a);
    DifferencesFade(w, y);
    LateFrom(Begin(w, a), ViewOf(w), RolloutOrder(w.spec.standby, ViewOf(w)), k, x, y, a);
  }

  lemma LateFrom(p: Pass, v: View, order: seq<nat>, k: int, x: nat, y: nat, a: Replies)
    requires LockOn(p.lock, x) && p.lock.active.step == SpecUpdating && p.lock.active.hasTimedOut
    requires !p.failed && Untouched(p, v) && order == RolloutOrder(p.spec.standby, v)
    requires CleanUpTo(p.spec.fields, v, order, k, x)
    requires k + 1 < |order| && order[k + 1] == y && y in v.sets && DifferencesAt(p.spec.fields, v, y) != []
    requires a.servicesOk && a.updateOk && (p.spec.standby || v.PrimaryReady())
    ensures EnforceAll(p, v, a).calls == [Call(UpdateFields, y, true)]
  {
    OthersWait(p, v, a);
    var s := WithoutPrimary(p, v);
    RolloutReaches(s, v, order, k, x, a);
    LateUpdateSkipsPod(s, v, order[k..], x, a);
    assert order[k..][1..][0] == y;
    NextUpdated(Release(s), v, order[k..][1..], y, a);
  }

  lemma NextUpdated(p: Pass, v: View, order: seq<nat>, y: nat, a: Replies)
    requires Untouched(p, v) && !p.failed && !IsActive(p.lock) && a.updateOk
    requires order != [] && order[0] == y && y in v.sets && DifferencesAt(p.spec.fields, v, y) != []
    ensures Rollout(p, v, order, a).calls == [Call(UpdateFields, y, true)]
  {
    UpdateOneFacts(p, v, y, DifferencesAt(p.spec.fields, v, y), a);
  }

  // ---------- An update whose record is lost ----------

  /** Nothing is recorded, and only the rolling update has something to do. */
  predicate OnlyUpdatesLeft(w: World, a: Replies) {
    && w.status.operation == NONE && |Primaries(w.cluster)| <= 1 && !SpecFatal(w.spec, ViewOf(w))
    && w.baseConfig && !w.spec.standby && ViewOf(w).PrimaryReady() && !FailoverWanted(w)
    && ScaleCalls(w, a) == [] && a.servicesOk && a.updateOk
  }

  lemma FreeStart(w: World, p: Pass, a: Replies)
    requires Starts(p, w, ViewOf(w)) && p.lock.active == NONE && w.baseConfig && !w.spec.standby
    requires ViewOf(w).PrimaryReady() && !FailoverWanted(w)
    ensures var c := ChainOf(p, ViewOf(w), a);
            !c.base.failed && Midway(w, c.primary, ViewOf(w)) && c.primary.lock.active == NONE
  {
    var v := ViewOf(w);
    BaseConfigFacts(p, v, a);
    assert EnforceBaseConfig(p, v, a) == p;
    RefreshedFacts(w, p, v, a);
    PrimaryShape(p, v, a);
    RefreshedAsks(w, Refreshed(p, v));
    NothingDeployed(w);
  }

  lemma TailUpdates(w: World, q: Pass, a: Replies, k: int, y: nat)
    requires Midway(w, q, ViewOf(w)) && q.lock.active == NONE && !w.spec.standby && ViewOf(w).PrimaryReady()
    requires ScaleCalls(w, a) == [] && a.servicesOk && a.updateOk && y in w.cluster
    requires FirstDiffering(w.spec.fields, ViewOf(w), RolloutOrder(false, ViewOf(w)), k, y)
    ensures Tail(q, ViewOf(w), a).calls == [Call(UpdateFields, y, true)]
  {
    var v := ViewOf(w);
    var s, order := EnforceReplicas(q, v, a), RolloutOrder(false, v);
    var _ := TailActs(q, v, a);
    ReplicasDecide(w, q, a);
    ReplicaIdles(q, v, a);
    var j := FreeRollout(s, v, order, a);
    assert j == k;
    UpdateOneFacts(s, v, y, DifferencesAt(w.spec.fields, v, y), a);
  }

  /** With nothing recorded, the first StatefulSet that differs is updated, whatever the pods look
      like. */
  lemma FreeMovesOn(w: World, a: Replies, k: int, y: nat)
    requires a.now >= 0 && OnlyUpdatesLeft(w, a) && y in w.cluster
    requires FirstDiffering(w.spec.fields, ViewOf(w), RolloutOrder(false, ViewOf(w)), k, y)
    ensures CallsOf(w, a) == [Call(UpdateFields, y, true)]
  {
    var p, v := Begin(w, a), ViewOf(w);
    BeginStarts(w, a);
    FreeStart(w, p, a);
    AllShape(p, v, a);
    TailUpdates(w, ChainOf(p, v, a).primary, a, k, y);
  }

  /** The condition that the status of the update was written cannot be dropped: when that write
      is lost, nothing is recorded about `x`, and the next reconcile updates the next StatefulSet
      without a look at the pod of `x`. */
  lemma LostUpdateMovesOn(w: World, a: Replies, x: nat, w': World, a': Replies, k: int, y: nat)
    requires Readable(w) && a.now >= 0 && Call(UpdateFields, x, true) in CallsOf(w, a)
    requires !a.statusOk && w.status.operation == NONE
    requires EnvironmentStep(Reconcile(w, a), w') && a'.now >= 0 && OnlyUpdatesLeft(w', a') && y in w'.cluster
    requires FirstDiffering(w'.spec.fields, ViewOf(w'), RolloutOrder(false, ViewOf(w')), k, y)
    ensures w'.status == w.status
    ensures CallsOf(w', a') == [Call(UpdateFields, y, true)]
  {
    FreeMovesOn(w', a', k, y);
  }

  // ---------- When the waiting steps end ----------

  /** An update started at `start` moves on to the check of the pod exactly between 10 and 300
      seconds later, and only if the StatefulSet has the wanted fields. */
  lemma UpdateWindow(w: World, a: Replies, start: int, x: nat)
    requires w.status.operation
             == Operation(StatefulSetSpec, SpecUpdating, x, w.status.operation.differences, start + 300, false)
    requires 0 <= start <= a.now
    ensures ParkedOn(Begin(w, a).lock, x) <==>
              10 <= a.now - start < 300 && x in w.cluster && w.cluster[x].fields == w.spec.fields
    ensures Begin(w, a).lock.active.hasTimedOut <==> a.now - start >= 300
  {
    if x in w.cluster {
      NoDifference(w.spec.fields, w.cluster[x].fields);
    }
  }

  /** A wait for a pod ends before its time-out exactly when the pod is ready with the wanted
      image and port, or, for a stuck one, is stuck no longer. */
  lemma PodWaitWindow(w: World, a: Replies, step: StepId, x: nat)
    requires step == PodSpecUpdating || step == WaitingOnStuckPod
    requires w.status.operation == Operation(StatefulSetSpec, step, x, [], w.status.operation.timeOut, false)
    ensures ParkedOn(Begin(w, a).lock, x) <==>
              && a.now < w.status.operation.timeOut && x in w.cluster
              && if step == PodSpecUpdating then
                   && x in w.pods && w.pods[x].Ready()
                   && w.pods[x].image == w.spec.fields.image && w.pods[x].port == w.spec.fields.port
                 else x in w.pods ==> !w.pods[x].stuck
  {
  }

  // ---------- A pod that is not listed ----------

  /** When no pod of `x` is listed, the wait is recorded for instance 0. */
  lemma MissingPodRecordsZero(p: Pass, v: View, order: seq<nat>, x: nat, a: Replies)
    requires LockOn(p.lock, x) && p.lock.active.step == TransitionStep && !p.failed
    requires order != [] && order[0] == x && DifferencesAt(p.spec.fields, v, x) == [] && x !in v.pods
    ensures Rollout(p, v, order, a).lock.saved
            == Operation(StatefulSetSpec, PodSpecUpdating, 0, [], a.now + 300, false)
  {
    StartFacts(p, StatefulSetSpec, PodSpecUpdating, 0, [], a.now);
    assert Rollout(p, v, order, a) == VerifyPod(p, v, x, a);
  }

  /** The wait for a pod that was not listed. */
  predicate WaitsForZero(w: World) {
    && w.status.operation == Operation(StatefulSetSpec, PodSpecUpdating, 0, [], w.status.operation.timeOut, false)
    && w.status.operation.timeOut > 0 && 0 !in w.cluster
  }

  /** Nothing in the rollout order differs from the wanted fields. */
  predicate NothingDiffers(w: World) {
    var order := RolloutOrder(w.spec.standby, ViewOf(w));
    forall k :: 0 <= k < |order| ==> DifferencesAt(w.spec.fields, ViewOf(w), order[k]) == []
  }

  lemma ZeroNotInOrder(w: World, k: int)
    requires 0 !in w.cluster && 0 <= k < |RolloutOrder(w.spec.standby, ViewOf(w))|
    ensures RolloutOrder(w.spec.standby, ViewOf(w))[k] != 0
  {
    InRollout(w, w.spec.standby, k);
  }

  lemma SameUpdateFailsOnZero(w: World)
    requires WaitsForZero(w)
    ensures SameUpdateFails(w.status.operation, w.spec.fields, ViewOf(w), RolloutOrder(w.spec.standby, ViewOf(w)))
            <==> NothingDiffers(w)
  {
    var order := RolloutOrder(w.spec.standby, ViewOf(w));
    forall k | 0 <= k < |order| ensures order[k] != 0 {
      ZeroNotInOrder(w, k);
    }
  }

  /** No StatefulSet has index 0, so that this wait never completes. Once it has timed out, the
      operator is frozen if and only if the rolling update cannot run or has nothing left to do;
      the pod coming back does not help. */
  lemma ZeroFreezes(w: World, a: Replies)
    requires WaitsForZero(w)
    ensures w.status.operation.timeOut > a.now ==> RequeueAfter(Begin(w, a).lock, a.now) > 0
    ensures w.status.operation.timeOut <= a.now ==>
              (Frozen(w, a.now) <==> !(w.spec.standby || ViewOf(w).PrimaryReady()) || NothingDiffers(w))
  {
    if w.status.operation.timeOut > a.now {
      ZeroRuns(w, a);
    } else {
      ZeroRecovers(w);
      assert TimedOut(w.status.operation, a.now);
    }
  }

  lemma ZeroRuns(w: World, a: Replies)
    requires WaitsForZero(w) && w.status.operation.timeOut > a.now
    ensures RequeueAfter(Begin(w, a).lock, a.now) > 0
  {
  }

  lemma ZeroRecovers(w: World)
    requires WaitsForZero(w)
    ensures Recovered(w.status.operation, w.spec, ViewOf(w)) <==>
              (w.spec.standby || ViewOf(w).PrimaryReady()) && !NothingDiffers(w)
  {
    SameUpdateFailsOnZero(w);
  }

  /** With a time-out on an instance that is not in the order, the loop updates the first
      StatefulSet that differs. */
  lemma {:induction false} TimedOutElsewhere(p: Pass, v: View, order: seq<nat>, k: int, a: Replies)
    requires HasTimedOut(p.lock, StatefulSetSpec) && p.lock.active.step != TransitionStep
    requires p.lock.active.index !in order
    requires 0 <= k < |order| && FirstDiffering(p.spec.fields, v, order, k, order[k])
    ensures Rollout(p, v, order, a) == UpdateOne(p, order[k], DifferencesAt(p.spec.fields, v, order[k]), a)
    decreases |order|
  {
    RolloutTurn(p, v, order, a);
    if k > 0 {
      assert DifferencesAt(p.spec.fields, v, order[0]) == [];
      var rest := order[1..];
      assert FirstDiffering(p.spec.fields, v, rest, k - 1, rest[k - 1]) by {
        forall j | 0 <= j < k - 1 ensures DifferencesAt(p.spec.fields, v, rest[j]) == [] {
          assert rest[j] == order[j + 1];
        }
      }
      TimedOutElsewhere(p, v, rest, k - 1, a);
    }
  }

  lemma ZeroMovesFrom(p: Pass, v: View, k: int, y: nat, a: Replies)
    requires HasTimedOut(p.lock, StatefulSetSpec) && p.lock.active.step != TransitionStep
    requires !p.failed && Untouched(p, v) && p.lock.active.index !in RolloutOrder(p.spec.standby, v)
    requires FirstDiffering(p.spec.fields, v, RolloutOrder(p.spec.standby, v), k, y) && y in v.sets
    requires a.servicesOk && a.updateOk && (p.spec.standby || v.PrimaryReady())
    ensures EnforceAll(p, v, a).calls == [Call(UpdateFields, y, true)]
  {
    OthersWait(p, v, a);
    var s, order := WithoutPrimary(p, v), RolloutOrder(p.spec.standby, v);
    TimedOutElsewhere(s, v, order, k, a);
    UpdateOneFacts(s, v, y, DifferencesAt(p.spec.fields, v, y), a);
  }

  lemma ZeroBegins(w: World, a: Replies)
    requires WaitsForZero(w) && w.status.operation.timeOut <= a.now
    ensures var l := Begin(w, a).lock;
            && HasTimedOut(l, StatefulSetSpec) && l.active.step != TransitionStep && l.active.index == 0
            && RequeueAfter(l, a.now) == 0
  {
  }

  /** The condition that the pod is listed cannot be dropped: in the middle of a rollout the wait
      for instance 0 is, once timed out, no obstacle, and the next StatefulSet is updated although
      the missing pod was never seen. */
  lemma ZeroMovesOn(w: World, a: Replies, k: int, y: nat)
    requires Readable(w) && a.now >= 0 && WaitsForZero(w) && w.status.operation.timeOut <= a.now
    requires |Primaries(w.cluster)| <= 1 && !SpecFatal(w.spec, ViewOf(w)) && a.servicesOk && a.updateOk
    requires w.spec.standby || ViewOf(w).PrimaryReady()
    requires y in w.cluster
    requires FirstDiffering(w.spec.fields, ViewOf(w), RolloutOrder(w.spec.standby, ViewOf(w)), k, y)
    ensures CallsOf(w, a) == [Call(UpdateFields, y, true)]
  {
    var order := RolloutOrder(w.spec.standby, ViewOf(w));
    ZeroBegins(w, a);
    BeginStarts(w, a);
    forall j | 0 <= j < |order| ensures order[j] != 0 {
      ZeroNotInOrder(w, j);
    }
    ZeroMovesFrom(Begin(w, a), ViewOf(w), k, y, a);
  }
}
