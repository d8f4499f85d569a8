/** The persisted lock: at most one operation is active, each step has a time-out, a
    completed step is either removed or parked in the transition step. */
module BlockingOperations {
  import opened Resources

  datatype Config = Config(timeOut: int, hasChecker: bool, toTransition: bool)

  /** The operation a step belongs to. */
  function OwnerOf(step: StepId): (id: OperationId)
  {
    match step
    case BaseConfigDeploying => BaseConfigCount
    case PrimaryDbDeploying | WaitingBeforeFailingOver | FailingOver => PrimaryDbCount
    case ReplicaDbDeploying | ReplicaDbUndeploying => ReplicaDbCount
    case SpecUpdating | PodSpecUpdating | WaitingOnStuckPod => StatefulSetSpec
    case NoStep | TransitionStep => NoOperation
  }

  function TimeOutOf(step: StepId): (seconds: int)
  {
    match step
    case BaseConfigDeploying | WaitingBeforeFailingOver => 10
    case ReplicaDbUndeploying => 60
    case NoStep | TransitionStep => 0
    case _ => 300
  }

  /** The nine registered operation steps. */
  function ConfigOf(id: OperationId, step: StepId): (r: Option<Config>)
  {
    if id != NoOperation && id == OwnerOf(step) then
      Some(Config(TimeOutOf(step), step != WaitingBeforeFailingOver,
                  step == WaitingBeforeFailingOver || id == StatefulSetSpec))
    else None
  }

  /** A lookup that misses yields a zero-valued configuration. */
  function ConfigFor(op: Operation): (r: Config)
  {
    match ConfigOf(op.id, op.step)
    case Some(c) => c
    case None => Config(0, false, false)
  }

  /** A missing configuration has the empty id, so only the empty operation matches it. */
  predicate HasConfig(op: Operation) {
    ConfigOf(op.id, op.step).Some? || op.id.NoOperation?
  }

  /** `saved` is the active operation as the status will record it. It differs from
      `active` only while a time-out has been noticed: that flag is never saved. The
      previous operation is always saved as it is held. */
  datatype Lock = Lock(active: Operation, previous: Operation, saved: Operation)

  predicate IsActive(l: Lock) {
    l.active.id != NoOperation
  }

  predicate OtherActive(l: Lock, id: OperationId) {
    IsActive(l) && l.active.id != id
  }

  predicate InTransition(l: Lock, id: OperationId) {
    l.active.id == id && l.active.step == TransitionStep
  }

  predicate HasTimedOut(l: Lock, id: OperationId) {
    l.active.id == id && l.active.hasTimedOut
  }

  function SecondsLeft(op: Operation, now: int): (r: int)
  {
    if op.timeOut == 0 then 0
    else if op.timeOut - now < 0 then 0
    else op.timeOut - now
  }

  function SecondsSinceStart(op: Operation, now: int): (r: int)
  {
    ConfigFor(op).timeOut - SecondsLeft(op, now)
  }

  predicate Expired(op: Operation, now: int) {
    op.timeOut - now <= 0
  }

  function Removed(l: Lock, timedOut: bool): (r: Lock)
    ensures CoherentLock(l) ==> CoherentLock(r)
  {
    Lock(NONE,
         if l.active.step == TransitionStep then l.previous else l.active.(hasTimedOut := timedOut),
         NONE)
  }

  function Parked(l: Lock, timedOut: bool): (r: Lock)
  {
    var t := l.active.(step := TransitionStep, hasTimedOut := false, timeOut := 0);
    Lock(t, l.active.(hasTimedOut := timedOut), t)
  }

  function Finished(l: Lock, timedOut: bool): (r: Lock)
  {
    if ConfigFor(l.active).toTransition then Parked(l, timedOut) else Removed(l, timedOut)
  }

  /** Reading the lock back at the start of a reconcile; `completed` is the verdict of the
      completion checker of the stored operation, if it has one. */
  function Loaded(stored: Operation, previous: Operation, now: int, completed: bool): (l: Lock)
    ensures Coherent(stored, previous) ==> CoherentLock(l)
  {
    var l := Lock(stored, previous, stored);
    if !IsActive(l) || stored.step == TransitionStep then l
    else if Expired(stored, now) then
      if ConfigFor(stored).hasChecker then Lock(stored.(hasTimedOut := true), previous, stored)
      else Finished(Lock(stored.(hasTimedOut := true), previous, stored), true)
    else if ConfigFor(stored).hasChecker && completed then Finished(l, false)
    else l
  }

  predicate CanActivate(l: Lock, op: Operation) {
    !OtherActive(l, op.id) && HasConfig(op)
  }

  /** A refused activation changes nothing. */
  function Activated(l: Lock, op: Operation, now: int): (r: Lock)
    ensures CoherentLock(l) && now >= 0 && ConfigOf(op.id, op.step).Some? && !op.hasTimedOut ==> CoherentLock(r)
  {
    if CanActivate(l, op) then
      var started := op.(timeOut := now + ConfigFor(op).timeOut);
      Lock(started, l.previous, started)
    else l
  }

  function NewOperation(id: OperationId, step: StepId, index: nat, differences: seq<Difference>): (op: Operation)
  {
    Operation(id, step, index, differences, 0, false)
  }

  // ---------- What every call keeps ----------

  /** A record that `id` and `step` were started under at some moment. */
  predicate WellStarted(op: Operation) {
    ConfigOf(op.id, op.step).Some? && op.timeOut > 0
  }

  /** What the status may hold: nothing, a started step, or a parked operation whose
      previous record is the very step that was parked. */
  predicate Coherent(stored: Operation, previous: Operation) {
    || stored == NONE
    || (WellStarted(stored) && !stored.hasTimedOut)
    || (&& WellStarted(previous)
        && ConfigFor(previous).toTransition
        && stored == previous.(step := TransitionStep, hasTimedOut := false, timeOut := 0))
  }

  predicate CoherentLock(l: Lock) {
    && Coherent(l.saved, l.previous)
    && l.saved == l.active.(hasTimedOut := false)
    && (l.active.hasTimedOut ==> WellStarted(l.active) && ConfigFor(l.active).hasChecker)
  }

  datatype LockCall =
    | LoadCall(now: int, completed: bool)
    | ActivateCall(op: Operation, now: int)
    | RemoveCall

  /** Every call the enforcers make names a registered step. */
  predicate ValidCall(c: LockCall) {
    match c
    case LoadCall(now, _) => now >= 0
    case ActivateCall(op, now) => now >= 0 && ConfigOf(op.id, op.step).Some? && !op.hasTimedOut
    case RemoveCall => true
  }

  function After(l: Lock, c: LockCall): (r: Lock)
  {
    match c
    case LoadCall(now, completed) => Loaded(l.saved, l.previous, now, completed)
    case ActivateCall(op, now) => Activated(l, op, now)
    case RemoveCall => Removed(l, false)
  }

  /** The locks seen along a sequence of calls, the starting one included. */
  function Trace(l: Lock, calls: seq<LockCall>): (t: seq<Lock>)
    ensures |t| == |calls| + 1 && t[0] == l
    decreases |calls|
  {
    if calls == [] then [l] else [l] + Trace(After(l, calls[0]), calls[1..])
  }

  lemma AfterKeepsCoherence(l: Lock, c: LockCall)
    requires CoherentLock(l) && ValidCall(c)
    ensures CoherentLock(After(l, c))
    ensures l.active.id == After(l, c).active.id || !IsActive(l) || !IsActive(After(l, c))
  {
  }

  /** Along every sequence of calls the lock stays coherent: in particular, whenever the
      operation is parked, the previous record is the step of the same operation that was
      parked, with its time-out. */
  lemma {:induction false} TraceKeepsCoherence(l: Lock, calls: seq<LockCall>)
    requires CoherentLock(l)
    requires forall i :: 0 <= i < |calls| ==> ValidCall(calls[i])
    ensures forall i :: 0 <= i <= |calls| ==> CoherentLock(Trace(l, calls)[i])
    ensures forall i :: 0 <= i < |calls| ==> Trace(l, calls)[i + 1] == After(Trace(l, calls)[i], calls[i])
    decreases |calls|
  {
    if calls != [] {
      AfterKeepsCoherence(l, calls[0]);
      TraceKeepsCoherence(After(l, calls[0]), calls[1..]);
      var t, rest := Trace(l, calls), Trace(After(l, calls[0]), calls[1..]);
      forall i | 0 <= i < |calls| ensures t[i + 1] == After(t[i], calls[i]) {
        assert t[i + 1] == rest[i];
        if i > 0 {
          assert t[i] == rest[i - 1] && calls[i] == calls[1..][i - 1];
          assert rest[i - 1 + 1] == After(rest[i - 1], calls[1..][i - 1]);
        }
      }
    }
  }

  /** What the previous record remembers after a call: an activation leaves it alone; a removal
      makes it the step that was running, and leaves it alone when that step was parked; a load
      makes it the step that has ended, if one has. */
  predicate Remembers(l: Lock, c: LockCall, r: Lock) {
    match c
    case ActivateCall(_, _) => r.previous == l.previous
    case RemoveCall => r.previous == if l.saved.step == TransitionStep then l.previous else l.saved
    case LoadCall(_, _) =>
      if r.saved == l.saved then r.previous == l.previous
      else l.saved.step != TransitionStep && r.previous.(hasTimedOut := false) == l.saved
  }

  lemma AfterRemembers(l: Lock, c: LockCall)
    requires CoherentLock(l) && ValidCall(c)
    ensures Remembers(l, c, After(l, c))
  {
  }

  /** Along every sequence of calls the previous record is the last step that has ended. */
  lemma TraceRemembers(l: Lock, calls: seq<LockCall>, i: nat)
    requires CoherentLock(l) && i < |calls|
    requires forall k :: 0 <= k < |calls| ==> ValidCall(calls[k])
    ensures Remembers(Trace(l, calls)[i], calls[i], Trace(l, calls)[i + 1])
  {
    TraceKeepsCoherence(l, calls);
    AfterRemembers(Trace(l, calls)[i], calls[i]);
  }

  /** The active operation changes from one id to another only through "none". */
  lemma {:induction false} IdChangesThroughNone(l: Lock, calls: seq<LockCall>, i: nat, j: nat)
    requires CoherentLock(l)
    requires forall k :: 0 <= k < |calls| ==> ValidCall(calls[k])
    requires i <= j <= |calls|
    requires IsActive(Trace(l, calls)[i]) && IsActive(Trace(l, calls)[j])
    requires Trace(l, calls)[i].active.id != Trace(l, calls)[j].active.id
    ensures exists k :: i < k < j && !IsActive(Trace(l, calls)[k])
    decreases j - i
  {
    var t := Trace(l, calls);
    TraceKeepsCoherence(l, calls);
    assert i < j;
    assert t[i + 1] == After(t[i], calls[i]);
    AfterKeepsCoherence(t[i], calls[i]);
    if IsActive(t[i + 1]) {
      IdChangesThroughNone(l, calls, i + 1, j);
      var k :| i + 1 < k < j && !IsActive(t[k]);
    }
  }

  /** A refused activation is exactly one that meets another operation or names no step. */
  lemma RefusalChangesNothing(l: Lock, op: Operation, now: int)
    requires CoherentLock(l) && now >= 0
    ensures !CanActivate(l, op) ==> Activated(l, op, now) == l
    ensures CanActivate(l, op) ==> Activated(l, op, now).active.id == op.id
                                   && Activated(l, op, now).previous == l.previous
    ensures CanActivate(l, op) && op.id != NoOperation && !op.hasTimedOut
            ==> Activated(l, op, now).saved == Activated(l, op, now).active
  {
  }

  // ---------- Time ----------

  /** Seconds since the start are the true elapsed time, clamped at the time-out. */
  lemma ElapsedIsClamped(l: Lock, op: Operation, start: int, now: int)
    requires CanActivate(l, op) && ConfigOf(op.id, op.step).Some?
    requires 0 <= start <= now
    ensures var a := Activated(l, op, start).active;
            var limit := ConfigFor(op).timeOut;
            && SecondsSinceStart(a, now) == (if now - start < limit then now - start else limit)
            && SecondsLeft(a, now) == limit - SecondsSinceStart(a, now)
            && (Expired(a, now) <==> now - start >= limit)
  {
  }

  /** How long the reconcile that loaded the lock asks to be left alone; zero means that
      the enforcers run. */
  function RequeueAfter(l: Lock, now: int): (r: int)
  {
    if SecondsLeft(l.active, now) > 20 then 20 else SecondsLeft(l.active, now)
  }

  /** A running operation is looked at again within 20 seconds and no later than its
      time-out; the enforcers run exactly when no operation is running: none is stored,
      one is parked, or one has timed out. */
  lemma ReexaminedInTime(stored: Operation, previous: Operation, now: int, completed: bool)
    requires Coherent(stored, previous) && now >= 0
    ensures var l := Loaded(stored, previous, now, completed);
            var r := RequeueAfter(l, now);
            && 0 <= r <= 20 && r <= SecondsLeft(l.active, now)
            && (r > 0 <==> l.active == stored && stored.timeOut > now)
            && (r == 0 <==> !IsActive(l) || l.active.step == TransitionStep || l.active.hasTimedOut)
            && (r > 0 ==> l == Lock(stored, previous, stored))
  {
  }
}
