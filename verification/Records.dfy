/** What is recorded when a call starts an operation, for how long, and exactly when that record
    is dropped. */
module Records {
  import opened Resources
  import opened BlockingOperations
  import opened Snapshots
  import opened Enforcement
  import opened Reconciling
  import opened Effects
  import opened Steps
  import opened PrimaryDecisions

  /** The record of the operation that a call starts at `now`. */
  predicate StartedBy(c: Call, now: int, op: Operation) {
    match c.verb
    case CreatePrimary => op == Operation(PrimaryDbCount, PrimaryDbDeploying, c.index, [], now + 300, false)
    case CreateReplica => op == Operation(ReplicaDbCount, ReplicaDbDeploying, c.index, [], now + 300, false)
    case DeletePrimary => op == Operation(PrimaryDbCount, WaitingBeforeFailingOver, op.index, [], now + 10, false)
    case DeleteReplica => op == Operation(ReplicaDbCount, ReplicaDbUndeploying, c.index, [], now + 60, false)
    case PromoteReplica => op == Operation(PrimaryDbCount, FailingOver, c.index, [], now + 300, false)
    case UpdateFields =>
      op.differences != [] && op == Operation(StatefulSetSpec, SpecUpdating, c.index, op.differences, now + 300, false)
  }

  lemma HeldIsStarted(l: Lock, c: Call, now: int)
    requires HeldFor(l, c, now)
    ensures StartedBy(c, now, l.saved)
  {
  }

  lemma StartedFrom(w: World, l: Lock, a: Replies, g: Pass, c: Call)
    requires g.calls != [] && Accounted(w, ViewOf(w), l, a, g) && c in g.calls && (c.ok || c.verb == DeletePrimary)
    ensures StartedBy(c, a.now, g.lock.saved)
    ensures c.verb == DeletePrimary ==> ReadyReplica(w, g.lock.saved.index)
  {
    assert c == g.calls[0];
    HeldIsStarted(g.lock, c, a.now);
    ViewFacts(w);
  }

  /** Every call that succeeds, and every deletion of an old primary, is recorded with the
      instance, the moment and the time-out of its step; the deletion of an old primary with a
      ready replica that is to take its place. */
  lemma CallIsRecorded(w: World, a: Replies, c: Call)
    requires Readable(w) && a.now >= 0 && a.statusOk
    requires c in CallsOf(w, a) && (c.ok || c.verb == DeletePrimary)
    ensures var op := Reconcile(w, a).status.operation;
            StartedBy(c, a.now, op) && (c.verb == DeletePrimary ==> ReadyReplica(w, op.index))
  {
    var l, g := Outcome(w, a);
    StartedFrom(w, l, a, g, c);
  }

  lemma CountersFrom(w: World, l: Lock, a: Replies, g: Pass, c: Call)
    requires g.calls != [] && Accounted(w, ViewOf(w), l, a, g) && c in g.calls
    ensures g.enforced == EnforcedNow(w) + Gain(c)
    ensures g.lastCreated == if c.ok && c.verb == CreateReplica then w.status.lastCreated + 1
                             else if c.ok && c.verb == CreatePrimary && w.status.lastCreated == 0 then 1
                             else w.status.lastCreated
  {
    assert c == g.calls[0];
  }

  /** How many instances a call adds to those that the operator has made. The deletion of an old
      primary is not counted: a replica takes its place. */
  function Gain(c: Call): (n: int)
  {
    if !c.ok then 0
    else if c.verb == CreatePrimary || c.verb == CreateReplica then 1
    else if c.verb == DeleteReplica then -1
    else 0
  }

  /** The counters follow the calls; a recreated primary leaves the index counter alone. */
  lemma CountersFollow(w: World, a: Replies, c: Call)
    requires Readable(w) && a.now >= 0 && a.statusOk && c in CallsOf(w, a)
    requires c.ok || c.verb != PromoteReplica
    ensures var s := Reconcile(w, a).status;
            && s.enforcedReplicas == EnforcedNow(w) + Gain(c)
            && s.lastCreated == if c.ok && c.verb == CreateReplica then w.status.lastCreated + 1
                                else if c.ok && c.verb == CreatePrimary && w.status.lastCreated == 0 then 1
                                else w.status.lastCreated
  {
    var l, g := Outcome(w, a);
    CountersFrom(w, l, a, g, c);
  }

  /** What the operation was started for has come about. */
  predicate Achieved(w: World, step: StepId, i: nat) {
    match step
    case BaseConfigDeploying => w.baseConfig
    case PrimaryDbDeploying => HasReadyPrimary(w)
    case ReplicaDbDeploying => ReadyReplica(w, i)
    case ReplicaDbUndeploying => i in w.cluster ==> w.cluster[i].role.Primary?
    case _ => false
  }

  /** The operations that end as soon as they have achieved something, and their time-outs. */
  predicate Limited(id: OperationId, step: StepId, seconds: int) {
    match step
    case BaseConfigDeploying => id == BaseConfigCount && seconds == 10
    case PrimaryDbDeploying => id == PrimaryDbCount && seconds == 300
    case ReplicaDbDeploying => id == ReplicaDbCount && seconds == 300
    case ReplicaDbUndeploying => id == ReplicaDbCount && seconds == 60
    case _ => false
  }

  lemma AchievedIsCompleted(w: World, op: Operation, now: int)
    requires |Primaries(w.cluster)| <= 1 && Limited(op.id, op.step, TimeOutOf(op.step))
    ensures Completed(op, w.spec, ViewOf(w), now) <==> Achieved(w, op.step, op.index)
  {
    ViewFacts(w);
    ReadyPrimaryMeans(w);
  }

  lemma LoadedWindow(op: Operation, previous: Operation, now: int, start: int, seconds: int, achieved: bool)
    requires Limited(op.id, op.step, seconds) && 0 <= start <= now
    requires op == Operation(op.id, op.step, op.index, [], start + seconds, false)
    ensures var l := Loaded(op, previous, now, achieved);
            && (l.active == NONE <==> now - start < seconds && achieved)
            && (l.active.hasTimedOut <==> now - start >= seconds)
            && (RequeueAfter(l, now) > 0 <==> now - start < seconds && !achieved)
  {
  }

  /** A deployment or a removal recorded at `start` is dropped exactly when it has achieved what
      it was for before its time-out; after that it has timed out, whatever it has achieved. */
  lemma DeploymentWindow(w: World, a: Replies, start: int, seconds: int)
    requires var op := w.status.operation;
             && Limited(op.id, op.step, seconds)
             && op == Operation(op.id, op.step, op.index, [], start + seconds, false)
    requires |Primaries(w.cluster)| <= 1 && 0 <= start <= a.now
    ensures var l, op := Begin(w, a).lock, w.status.operation;
            && (l.active == NONE <==> a.now - start < seconds && Achieved(w, op.step, op.index))
            && (l.active.hasTimedOut <==> a.now - start >= seconds)
            && (RequeueAfter(l, a.now) > 0 <==> a.now - start < seconds && !Achieved(w, op.step, op.index))
  {
    var op := w.status.operation;
    LoadedWindow(op, w.status.previous, a.now, start, seconds, Completed(op, w.spec, ViewOf(w), a.now));
    AchievedIsCompleted(w, op, a.now);
  }
}
