/** Whole runs: reconciles and steps of the environment in any order, from a fresh resource. */
module Runs {
  import opened Resources
  import opened BlockingOperations
  import opened Snapshots
  import opened Enforcement
  import opened Reconciling
  import opened Effects
  import opened Steps
  import opened Decisions

  /** A reconcile is recorded with the answers it got and the StatefulSet calls it made. */
  datatype Event = Environment | Reconciled(replies: Replies, calls: seq<Call>)

  /** Between reconciles the user may edit the spec and delete StatefulSets, readiness and
      pods change, the base configuration may come and go. Nobody else writes the status,
      makes a StatefulSet, or changes one's role, storage or fields. */
  ghost predicate EnvironmentStep(w: World, w': World) {
    && w'.status == w.status
    && forall i :: i in w'.cluster ==> i in w.cluster && w'.cluster[i] == w.cluster[i].(ready := w'.cluster[i].ready)
  }

  ghost predicate Next(w: World, e: Event, w': World) {
    match e
    case Environment => EnvironmentStep(w, w')
    case Reconciled(a, calls) => a.now >= 0 && calls == CallsOf(w, a) && w' == Reconcile(w, a)
  }

  datatype Run = Run(states: seq<World>, events: seq<Event>) {
    ghost predicate Reconciles(i: int) {
      0 <= i < |events| && events[i].Reconciled?
    }

    ghost predicate Steps(i: int) {
      0 <= i < |events| && i + 1 < |states| && Next(states[i], events[i], states[i + 1])
    }

    ghost function Clock(i: int): int
      requires Reconciles(i)
    {
      events[i].replies.now
    }

    /** The StatefulSet calls of event `i`. */
    ghost function Calls(i: int): (c: seq<Call>)
      requires Reconciles(i)
    {
      events[i].calls
    }
  }

  ghost predicate Fresh(w: World) {
    w.status == Status(NONE, NONE, 0, 0) && w.cluster == map[]
  }

  /** The clock of the operator never goes back. */
  ghost predicate IsRun(r: Run) {
    && |r.states| == |r.events| + 1
    && Fresh(r.states[0])
    && (forall i :: 0 <= i < |r.events| ==> r.Steps(i))
    && (forall i, j :: i <= j && r.Reconciles(i) && r.Reconciles(j) ==> r.Clock(i) <= r.Clock(j))
  }

  /** No reconcile loses what the agreement between lock and cluster depends on. */
  ghost predicate CarefulRun(r: Run)
    requires |r.states| == |r.events| + 1
  {
    forall i :: r.Reconciles(i) ==> Careful(r.states[i], r.Calls(i), r.events[i].replies)
  }

  lemma EnvironmentKeepsSound(w: World, w': World)
    requires Sound(w) && EnvironmentStep(w, w')
    ensures Sound(w') && Primaries(w'.cluster) <= Primaries(w.cluster)
    ensures |w'.cluster| <= |w.cluster|
  {
    SubsetSize(Primaries(w'.cluster), Primaries(w.cluster));
    SubsetSize(w'.cluster.Keys, w.cluster.Keys);
  }

  lemma {:induction false} SoundAt(r: Run, i: int)
    requires IsRun(r) && CarefulRun(r) && 0 <= i < |r.states|
    ensures Sound(r.states[i])
  {
    if i > 0 {
      SoundAt(r, i - 1);
      SoundNext(r, i - 1);
    }
  }

  lemma SoundNext(r: Run, i: int)
    requires IsRun(r) && CarefulRun(r) && 0 <= i < |r.events| && Sound(r.states[i])
    ensures Sound(r.states[i + 1])
  {
    assert r.Steps(i);
    match r.events[i] {
      case Environment => EnvironmentKeepsSound(r.states[i], r.states[i + 1]);
      case Reconciled(a, calls) =>
        assert r.Reconciles(i);
        SoundByCalls(r.states[i], a);
    }
  }

  /** Safety: in every careful run at most one StatefulSet carries the primary role, and
      while a failover is pending none does. */
  lemma SinglePrimary(r: Run)
    requires IsRun(r) && CarefulRun(r)
    ensures forall i :: 0 <= i < |r.states| ==>
              && |Primaries(r.states[i].cluster)| <= 1
              && (FailoverPending(r.states[i].status.operation) ==> Primaries(r.states[i].cluster) == {})
  {
    forall i | 0 <= i < |r.states|
      ensures |Primaries(r.states[i].cluster)| <= 1
      ensures FailoverPending(r.states[i].status.operation) ==> Primaries(r.states[i].cluster) == {}
    {
      SoundAt(r, i);
    }
  }

  /** A reconcile leaves a record that can be read again. */
  lemma ReadableStep(w: World, a: Replies)
    requires Readable(w) && a.now >= 0
    ensures Readable(Reconcile(w, a))
  {
    FinishFacts(w, a);
  }

  lemma ReadableNext(r: Run, i: int)
    requires IsRun(r) && 0 <= i < |r.events| && Readable(r.states[i])
    ensures Readable(r.states[i + 1])
  {
    assert r.Steps(i);
    if r.events[i].Reconciled? {
      ReadableStep(r.states[i], r.events[i].replies);
    }
  }

  lemma {:induction false} ReadableAt(r: Run, i: int)
    requires IsRun(r) && 0 <= i < |r.states|
    ensures Readable(r.states[i])
  {
    if i > 0 {
      ReadableAt(r, i - 1);
      ReadableNext(r, i - 1);
    }
  }

  /** In every run, careful or not, each reconcile makes at most one StatefulSet call that
      succeeds; the last call is the whole change of the cluster, and if it succeeds and the
      status is written, the status holds the operation that made it. There is a second call
      exactly when a due promotion fails beside a ready primary while something else is due. */
  lemma OneCallInRun(r: Run, i: int)
    requires IsRun(r) && r.Reconciles(i)
    ensures CallsAccount(r.states[i], r.Calls(i), r.events[i].replies, r.states[i + 1])
    ensures |r.Calls(i)| == 2 <==> SecondCallDue(r.states[i], r.events[i].replies)
  {
    ReadableAt(r, i);
    assert r.Steps(i);
    OneCallPerReconcile(r.states[i], r.events[i].replies);
    SecondCallExactly(r.states[i], r.events[i].replies);
  }

  /** A run is careful exactly when no reconcile loses the agreement in one of the three ways. */
  lemma CarefulRunByGuards(r: Run)
    requires IsRun(r)
    ensures CarefulRun(r) <==> forall i :: r.Reconciles(i) ==> !LosesAgreement(r.states[i], r.events[i].replies)
  {
    forall i | r.Reconciles(i)
      ensures Careful(r.states[i], r.Calls(i), r.events[i].replies)
              <==> !LosesAgreement(r.states[i], r.events[i].replies)
    {
      CarefulAt(r, i);
    }
  }

  lemma CarefulAt(r: Run, i: int)
    requires IsRun(r) && r.Reconciles(i)
    ensures Careful(r.states[i], r.Calls(i), r.events[i].replies)
            <==> !LosesAgreement(r.states[i], r.events[i].replies)
  {
    ReadableAt(r, i);
    assert r.Steps(i);
    CarefulByGuards(r.states[i], r.events[i].replies);
  }

  /** In careful runs there is never a second call. */
  lemma OneCallInCarefulRun(r: Run, i: int)
    requires IsRun(r) && CarefulRun(r) && r.Reconciles(i)
    ensures |r.Calls(i)| <= 1
  {
    SoundAt(r, i);
    assert r.Steps(i);
    SoundMakesOneCall(r.states[i], r.events[i].replies);
  }

  // ---------- The wait before a promotion ----------

  /** Event `j` starts a failover and records it. */
  ghost predicate StartsFailover(r: Run, j: int) {
    && r.Reconciles(j)
    && r.events[j].replies.statusOk
    && exists c :: c in r.Calls(j) && c.verb == DeletePrimary
  }

  /** When the wait of a pending failover ends. */
  function WaitEnd(s: Status): (t: int)
  {
    if s.operation.step == TransitionStep then s.previous.timeOut else s.operation.timeOut
  }

  ghost predicate NoPrimaryBetween(r: Run, j: int, i: int)
    requires |r.states| == |r.events| + 1
  {
    forall k :: j < k <= i && 0 <= k < |r.states| ==> Primaries(r.states[k].cluster) == {}
  }

  /** A pending failover goes back to the event that started it ten seconds before the end of
      the wait, and has been pending ever since; once parked, the wait was seen to be over. */
  ghost predicate WaitingSince(r: Run, i: int, j: int)
    requires |r.states| == |r.events| + 1
    requires 0 <= i < |r.states|
  {
    && 0 <= j < i && StartsFailover(r, j)
    && WaitEnd(r.states[i].status) == r.Clock(j) + 10
    && (forall k :: j < k <= i ==> FailoverPending(r.states[k].status.operation))
    && (r.states[i].status.operation.step == TransitionStep ==>
          exists m :: j < m < i && r.Reconciles(m) && WaitEnd(r.states[i].status) <= r.Clock(m))
  }

  /** A failover that was just started. */
  predicate JustStarted(calls: seq<Call>, a: Replies, s: Status) {
    && a.statusOk && (exists c :: c in calls && c.verb == DeletePrimary)
    && s.operation.step == WaitingBeforeFailingOver && WaitEnd(s) == a.now + 10
  }

  /** A failover that was pending before. */
  predicate StillPending(s: Status, now: int, s': Status) {
    && FailoverPending(s.operation) && WaitEnd(s') == WaitEnd(s)
    && (s'.operation.step == TransitionStep ==> s.operation.step == TransitionStep || WaitEnd(s) <= now)
  }

  /** How a reconcile can leave a failover pending. */
  lemma PendingAfter(w: World, a: Replies)
    requires Readable(w) && a.now >= 0
    requires FailoverPending(Reconcile(w, a).status.operation)
    ensures JustStarted(CallsOf(w, a), a, Reconcile(w, a).status)
            || StillPending(w.status, a.now, Reconcile(w, a).status)
  {
    if |Primaries(w.cluster)| <= 1 {
      PendingPass(w, a);
    }
  }

  lemma PendingPass(w: World, a: Replies)
    requires Readable(w) && a.now >= 0
    requires FailoverPending(Written(w, Finish(w, a), a).status.operation)
    ensures var s := Written(w, Finish(w, a), a).status;
            JustStarted(Finish(w, a).calls, a, s) || StillPending(w.status, a.now, s)
  {
    var l, f := Begin(w, a).lock, Finish(w, a);
    FinishFacts(w, a);
    EffectiveFacts(w, l, ViewOf(w), a, f);
    LoadedPending(w, a);
    PendingCases(w, l, a, f.calls, Effective(f));
  }

  lemma PendingCases(w: World, l: Lock, a: Replies, calls: seq<Call>, g: Pass)
    requires g.calls == [] ==> IdlePass(w, l, g)
    requires g.calls != [] ==> Accounted(w, ViewOf(w), l, a, g)
    requires CoherentLock(g.lock) && (forall c :: c in g.calls ==> c in calls)
    requires FailoverPending(Written(w, g, a).status.operation)
    requires FailoverPending(l.saved) ==>
               StillPending(w.status, a.now, w.status.(operation := l.saved, previous := l.previous))
    ensures var s := Written(w, g, a).status; JustStarted(calls, a, s) || StillPending(w.status, a.now, s)
  {
    PendingFrom(w, l, a, g);
  }

  /** A pending failover that is read back. */
  lemma LoadedPending(w: World, a: Replies)
    requires Readable(w)
    ensures var l := Begin(w, a).lock;
            FailoverPending(l.saved) ==>
              StillPending(w.status, a.now, w.status.(operation := l.saved, previous := l.previous))
  {
    LoadedWait(w, a);
  }

  lemma PendingFrom(w: World, l: Lock, a: Replies, f: Pass)
    requires f.calls == [] ==> IdlePass(w, l, f)
    requires f.calls != [] ==> Accounted(w, ViewOf(w), l, a, f)
    requires CoherentLock(f.lock)
    requires FailoverPending(Written(w, f, a).status.operation)
    ensures var w' := Written(w, f, a);
            || w'.status == w.status
            || (a.statusOk && f.calls != [] && f.calls[0] in f.calls && f.calls[0].verb == DeletePrimary
                && w'.status.operation.step == WaitingBeforeFailingOver && WaitEnd(w'.status) == a.now + 10)
            || (w'.status.operation == l.saved && w'.status.previous == l.previous && f.lock == l)
  {
  }

  ghost predicate StartedJustBefore(r: Run, i: int)
    requires |r.states| == |r.events| + 1 && 0 < i < |r.states|
  {
    && StartsFailover(r, i - 1)
    && r.states[i].status.operation.step == WaitingBeforeFailingOver
    && WaitEnd(r.states[i].status) == r.Clock(i - 1) + 10
  }

  ghost predicate CarriedOver(r: Run, i: int)
    requires |r.states| == |r.events| + 1 && 0 < i < |r.states|
  {
    var s, s' := r.states[i - 1].status, r.states[i].status;
    && FailoverPending(s.operation) && WaitEnd(s') == WaitEnd(s)
    && (s'.operation.step == TransitionStep && s.operation.step != TransitionStep ==>
          r.Reconciles(i - 1) && WaitEnd(s) <= r.Clock(i - 1))
  }

  lemma PendingStep(r: Run, i: int)
    requires IsRun(r) && 0 <= i < |r.states|
    requires FailoverPending(r.states[i].status.operation)
    ensures i > 0
    ensures StartedJustBefore(r, i) || CarriedOver(r, i)
  {
    assert i > 0;
    if r.events[i - 1].Reconciled? {
      PendingReconciled(r, i);
    } else {
      StatusUntouched(r, i - 1);
    }
  }

  lemma StatusUntouched(r: Run, i: int)
    requires IsRun(r) && 0 <= i < |r.events| && r.events[i].Environment?
    ensures r.states[i + 1].status == r.states[i].status
  {
    assert r.Steps(i);
  }

  lemma PendingReconciled(r: Run, i: int)
    requires IsRun(r) && 0 < i < |r.states| && r.events[i - 1].Reconciled?
    requires FailoverPending(r.states[i].status.operation)
    ensures StartedJustBefore(r, i) || CarriedOver(r, i)
  {
    ReadableAt(r, i - 1);
    assert r.Steps(i - 1) && r.Reconciles(i - 1);
    PendingAfter(r.states[i - 1], r.events[i - 1].replies);
  }

  lemma LongerWait(r: Run, i: int, j: int)
    requires |r.states| == |r.events| + 1 && 0 < i < |r.states|
    requires WaitingSince(r, i - 1, j) && CarriedOver(r, i) && FailoverPending(r.states[i].status.operation)
    ensures WaitingSince(r, i, j)
  {
    var s, s' := r.states[i - 1].status, r.states[i].status;
    if s'.operation.step == TransitionStep {
      if s.operation.step == TransitionStep {
        var m :| j < m < i - 1 && r.Reconciles(m) && WaitEnd(s) <= r.Clock(m);
      } else {
        assert j < i - 1 < i && r.Reconciles(i - 1) && WaitEnd(s') <= r.Clock(i - 1);
      }
    }
  }

  /** In every run a pending failover goes back to the event that started it. */
  lemma {:induction false} PendingHistory(r: Run, i: int) returns (j: int)
    requires IsRun(r) && 0 <= i < |r.states|
    requires FailoverPending(r.states[i].status.operation)
    ensures WaitingSince(r, i, j)
  {
    PendingStep(r, i);
    if StartedJustBefore(r, i) {
      j := i - 1;
    } else {
      j := PendingHistory(r, i - 1);
      LongerWait(r, i, j);
    }
  }

  lemma PromotionFrom(w: World, l: Lock, calls: seq<Call>, a: Replies, call: Call)
    requires Consists(calls, PrimaryCalls(w, l, a), ReplicaCalls(w, l, a))
    requires call in calls && call.verb == PromoteReplica
    ensures WaitIsOver(l)
    ensures call.index in w.cluster && w.cluster[call.index].role.Replica? && w.cluster[call.index].ready
  {
    PrimaryVerbs(w, l, calls, a, call);
    ViewFacts(w);
  }

  lemma PromotionFacts(w: World, a: Replies, call: Call)
    requires Readable(w) && a.now >= 0 && call in CallsOf(w, a) && call.verb == PromoteReplica
    ensures FailoverPending(w.status.operation)
    ensures w.status.operation.step == TransitionStep || WaitEnd(w.status) <= a.now
    ensures call.index in w.cluster && w.cluster[call.index].role.Replica? && w.cluster[call.index].ready
  {
    CallsExactly(w, a);
    LoadedWait(w, a);
    PromotionFrom(w, Begin(w, a).lock, CallsOf(w, a), a, call);
  }

  /** In every run a promotion happens at least ten seconds after a recorded start of a failover,
      which has been pending ever since, and it promotes a replica that the promoting reconcile
      saw ready. */
  lemma PromotionAfterWait(r: Run, i: int, call: Call) returns (j: int)
    requires IsRun(r) && r.Reconciles(i)
    requires call in r.Calls(i) && call.verb == PromoteReplica
    ensures WaitingSince(r, i, j) && r.Clock(i) >= r.Clock(j) + 10
    ensures call.index in r.states[i].cluster
    ensures r.states[i].cluster[call.index].role.Replica? && r.states[i].cluster[call.index].ready
  {
    var w, a := r.states[i], r.events[i].replies;
    assert r.Steps(i);
    ReadableAt(r, i);
    PromotionFacts(w, a, call);
    j := PendingHistory(r, i);
    if w.status.operation.step == TransitionStep {
      var m :| j < m < i && r.Reconciles(m) && WaitEnd(w.status) <= r.Clock(m);
      assert r.Clock(m) <= r.Clock(i);
    }
  }

  /** In careful runs no primary is deployed during the wait. */
  lemma NoPrimaryDuringWait(r: Run, i: int, j: int)
    requires IsRun(r) && CarefulRun(r) && 0 <= i < |r.states| && WaitingSince(r, i, j)
    ensures NoPrimaryBetween(r, j, i)
  {
    SinglePrimary(r);
  }
}
