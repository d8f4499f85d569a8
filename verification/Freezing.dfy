/** After a time-out the operator touches nothing until what failed has recovered. */
module Freezing {
  import opened Resources
  import opened BlockingOperations
  import opened Snapshots
  import opened Enforcement
  import opened Reconciling
  import opened Effects
  import opened Runs

  /** The stored operation has timed out and has to be dealt with by its enforcer. */
  predicate TimedOut(op: Operation, now: int) {
    WellStarted(op) && ConfigFor(op).hasChecker && Expired(op, now)
  }

  /** Up to the StatefulSet whose update timed out, nothing asks for an update, and that one
      asks for the same update again. */
  ghost predicate SameUpdateFails(op: Operation, want: Fields, v: View, order: seq<nat>) {
    forall k :: 0 <= k < |order| && (forall j :: 0 <= j < k ==> order[j] != op.index) ==>
      DifferencesAt(want, v, order[k]) == if order[k] == op.index then op.differences else []
  }

  /** What the operator waits for after a time-out of each operation. */
  ghost predicate Recovered(op: Operation, s: Spec, v: View) {
    match op.id
    case BaseConfigCount => v.baseConfig
    case PrimaryDbCount => !s.standby && v.PrimaryReady()
    case ReplicaDbCount => op.index in v.replicas ==> v.Ready(op.index)
    case StatefulSetSpec =>
      && (s.standby || v.PrimaryReady())
      && !SameUpdateFails(op, s.fields, v, RolloutOrder(s.standby, v))
    case NoOperation => true
  }

  lemma {:induction false} RolloutFreezes(p: Pass, v: View, order: seq<nat>, a: Replies)
    requires HasTimedOut(p.lock, StatefulSetSpec) && p.lock.active.step != TransitionStep
    ensures SameUpdateFails(p.lock.active, p.spec.fields, v, order) ==> Rollout(p, v, order, a) == p
    ensures !SameUpdateFails(p.lock.active, p.spec.fields, v, order) ==>
              !Rollout(p, v, order, a).lock.active.hasTimedOut
    decreases |order|
  {
    if order != [] {
      var op, i := p.lock.active, order[0];
      var d := DifferencesAt(p.spec.fields, v, i);
      var rest := order[1..];
      if i == op.index {
        assert SameUpdateFails(op, p.spec.fields, v, order) <==> d == op.differences by {
          assert order[0] == i;
        }
      } else if d == [] {
        RolloutFreezes(p, v, rest, a);
        SameFailsTail(op, p.spec.fields, v, order);
      } else {
        assert order[0] == i;
      }
    }
  }

  lemma SameFailsTail(op: Operation, want: Fields, v: View, order: seq<nat>)
    requires order != [] && order[0] != op.index && DifferencesAt(want, v, order[0]) == []
    ensures SameUpdateFails(op, want, v, order) <==> SameUpdateFails(op, want, v, order[1..])
  {
    var rest := order[1..];
    if SameUpdateFails(op, want, v, rest) {
      forall k | 0 <= k < |order| && (forall j :: 0 <= j < k ==> order[j] != op.index)
        ensures DifferencesAt(want, v, order[k]) == if order[k] == op.index then op.differences else []
      {
        if k > 0 {
          assert order[k] == rest[k - 1];
          forall j | 0 <= j < k - 1 ensures rest[j] != op.index { assert rest[j] == order[j + 1]; }
        }
      }
    }
    if SameUpdateFails(op, want, v, order) {
      forall k | 0 <= k < |rest| && (forall j :: 0 <= j < k ==> rest[j] != op.index)
        ensures DifferencesAt(want, v, rest[k]) == if rest[k] == op.index then op.differences else []
      {
        assert rest[k] == order[k + 1];
        forall j | 0 <= j < k + 1 ensures order[j] != op.index {
          if j > 0 { assert order[j] == rest[j - 1]; }
        }
      }
    }
  }

  /** A pass that met a time-out: the lock is held by an operation that has timed out. */
  predicate Halted(p: Pass) {
    p.lock.active.hasTimedOut && IsActive(p.lock) && p.lock.active.step != TransitionStep && !p.failed
  }

  /** Lock, cluster and spec are as before, no call and no error was added. */
  predicate LeftAlone(p: Pass, r: Pass) {
    r.lock == p.lock && r.calls == p.calls && r.cluster == p.cluster && r.spec == p.spec && r.failed == p.failed
  }

  lemma BaseConfigFreezes(p: Pass, v: View, a: Replies)
    requires Halted(p)
    ensures var r, op := EnforceBaseConfig(p, v, a), p.lock.active;
            if op.id != BaseConfigCount || !Recovered(op, p.spec, v) then r == p
            else !r.lock.active.hasTimedOut && !r.failed
  {
  }

  lemma PrimaryFreezes(p: Pass, v: View, a: Replies)
    requires Halted(p)
    ensures var r, op := EnforcePrimary(p, v, a), p.lock.active;
            if op.id != PrimaryDbCount || !Recovered(op, p.spec, v) then LeftAlone(p, r)
            else !r.lock.active.hasTimedOut
  {
    PrimaryShape(p, v, a);
  }

  lemma ReplicasFreeze(p: Pass, v: View, a: Replies)
    requires Halted(p)
    ensures var r, op := EnforceReplicas(p, v, a), p.lock.active;
            if op.id != ReplicaDbCount || !Recovered(op, p.spec, v) then r == p
            else !r.lock.active.hasTimedOut
  {
    ReplicaShape(p, v, a);
  }

  lemma FieldsFreeze(p: Pass, v: View, a: Replies)
    requires Halted(p)
    ensures var r, op := EnforceFields(p, v, a), p.lock.active;
            if op.id != StatefulSetSpec || !Recovered(op, p.spec, v) then r == p
            else !r.lock.active.hasTimedOut
  {
    if p.lock.active.id == StatefulSetSpec {
      RolloutFreezes(p, v, RolloutOrder(p.spec.standby, v), a);
    }
  }

  /** The enforcers leave a timed-out operation alone, and with it everything else, exactly
      as long as what they wait for has not happened. */
  lemma ChainFreezes(p: Pass, v: View, a: Replies)
    requires Halted(p)
    ensures var r, op := EnforceAll(p, v, a), p.lock.active;
            && (!Recovered(op, p.spec, v) ==> r.lock == p.lock && r.calls == p.calls && r.cluster == p.cluster
                                              && r.spec == p.spec)
            && (Recovered(op, p.spec, v) && (a.servicesOk || op.id != StatefulSetSpec) ==>
                  !r.lock.active.hasTimedOut)
  {
    BaseConfigFreezes(p, v, a);
    var b := EnforceBaseConfig(p, v, a);
    if Halted(b) {
      PrimaryFreezes(b, v, a);
      var q := EnforcePrimary(b, v, a);
      if Halted(q) {
        ReplicasFreeze(q, v, a);
        var s := EnforceReplicas(q, v, a);
        if Halted(s) {
          FieldsFreeze(s, v, a);
        }
      }
    }
    AllShape(p, v, a);
  }

  /** The stored operation has timed out and what is waited for has not happened. */
  ghost predicate Frozen(w: World, now: int) {
    && TimedOut(w.status.operation, now) && !w.status.operation.hasTimedOut
    && !Recovered(w.status.operation, w.spec, ViewOf(w))
  }

  lemma TimedOutStarts(w: World, a: Replies)
    requires TimedOut(w.status.operation, a.now) && !w.status.operation.hasTimedOut
    ensures var p, op := Begin(w, a), w.status.operation;
            && Halted(p) && RequeueAfter(p.lock, a.now) == 0
            && p.lock == Lock(op.(hasTimedOut := true), w.status.previous, op)
  {
  }

  lemma RecoveredIgnoresFlag(op: Operation, s: Spec, v: View)
    ensures Recovered(op.(hasTimedOut := true), s, v) <==> Recovered(op, s, v)
  {
    var op', order := op.(hasTimedOut := true), RolloutOrder(s.standby, v);
    assert SameUpdateFails(op', s.fields, v, order) <==> SameUpdateFails(op, s.fields, v, order);
  }

  lemma FrozenFinish(w: World, a: Replies)
    requires Frozen(w, a.now)
    ensures var f, op := Finish(w, a), w.status.operation;
            f.calls == [] && f.cluster == w.cluster && f.lock == Lock(op.(hasTimedOut := true), w.status.previous, op)
  {
    TimedOutStarts(w, a);
    RecoveredIgnoresFlag(w.status.operation, w.spec, ViewOf(w));
    ChainFreezes(Begin(w, a), ViewOf(w), a);
  }

  lemma FrozenWritten(w: World, a: Replies, f: Pass)
    requires f.lock.saved == w.status.operation && f.lock.previous == w.status.previous
    ensures Written(w, f, a).status.operation == w.status.operation
    ensures Written(w, f, a).status.previous == w.status.previous
  {
  }

  /** A reconcile that meets a timed-out operation changes no StatefulSet and keeps the
      operation in the status as long as recovery has not happened. */
  lemma FrozenStep(w: World, a: Replies)
    requires Frozen(w, a.now)
    ensures CallsOf(w, a) == [] && Reconcile(w, a).cluster == w.cluster
    ensures Reconcile(w, a).status.operation == w.status.operation
    ensures Reconcile(w, a).status.previous == w.status.previous
  {
    FrozenFinish(w, a);
    FrozenWritten(w, a, Finish(w, a));
  }

  /** Once recovered, the next reconcile that gets as far as the enforcer forgets the
      time-out. */
  lemma ThawStep(w: World, a: Replies)
    requires TimedOut(w.status.operation, a.now) && !w.status.operation.hasTimedOut
    requires Recovered(w.status.operation, w.spec, ViewOf(w)) && !SpecFatal(w.spec, ViewOf(w))
    requires a.servicesOk || w.status.operation.id != StatefulSetSpec
    ensures !Finish(w, a).lock.active.hasTimedOut
  {
    TimedOutStarts(w, a);
    RecoveredIgnoresFlag(w.status.operation, w.spec, ViewOf(w));
    ChainFreezes(Begin(w, a), ViewOf(w), a);
  }

  lemma FrozenNext(r: Run, i: int)
    requires IsRun(r) && 0 <= i < |r.events|
    requires r.Reconciles(i) ==> Frozen(r.states[i], r.Clock(i))
    ensures r.Reconciles(i) ==> r.Calls(i) == []
    ensures r.states[i + 1].status.operation == r.states[i].status.operation
  {
    assert r.Steps(i);
    if r.Reconciles(i) {
      FrozenStep(r.states[i], r.events[i].replies);
    }
  }

  /** A time-out that was met once is there at every later reconcile. */
  lemma FrozenAgain(r: Run, i: int, k: int)
    requires IsRun(r) && r.Reconciles(i) && r.Reconciles(k) && i <= k && Frozen(r.states[i], r.Clock(i))
    requires r.states[k].status.operation == r.states[i].status.operation
    requires !Recovered(r.states[i].status.operation, r.states[k].spec, ViewOf(r.states[k]))
    ensures Frozen(r.states[k], r.Clock(k))
  {
    assert r.Clock(i) <= r.Clock(k);
  }

  /** From a reconcile that meets a timed-out operation, as long as what is waited for does not
      happen, the operator makes no StatefulSet call and the operation stays in the status. */
  lemma {:induction false} FrozenStretch(r: Run, i: int, j: int)
    requires IsRun(r) && r.Reconciles(i) && i < j < |r.states| && Frozen(r.states[i], r.Clock(i))
    requires forall k :: i < k < j && r.Reconciles(k) ==>
               !Recovered(r.states[i].status.operation, r.states[k].spec, ViewOf(r.states[k]))
    ensures forall k :: i <= k < j && r.Reconciles(k) ==> r.Calls(k) == []
    ensures r.states[j].status.operation == r.states[i].status.operation
    decreases j - i
  {
    if j == i + 1 {
      FrozenOn(r, i, i);
    } else {
      FrozenStretch(r, i, j - 1);
      FrozenOn(r, i, j - 1);
    }
  }

  lemma FrozenOn(r: Run, i: int, k: int)
    requires IsRun(r) && r.Reconciles(i) && i <= k < |r.events| && Frozen(r.states[i], r.Clock(i))
    requires r.states[k].status.operation == r.states[i].status.operation
    requires r.Reconciles(k) && k != i ==>
               !Recovered(r.states[i].status.operation, r.states[k].spec, ViewOf(r.states[k]))
    ensures r.Reconciles(k) ==> r.Calls(k) == []
    ensures r.states[k + 1].status.operation == r.states[i].status.operation
  {
    if r.Reconciles(k) && k != i {
      FrozenAgain(r, i, k);
    }
    FrozenNext(r, k);
  }
}
