/** The objects behind the lock: the status with its pending changes, and the blocking
    operation that reads and writes it. */
module Locks {
  import opened Resources
  import opened BlockingOperations

  /** The status in memory, the stored one, and which fields have been set since it was read. */
  class StatusWrapper {
    var current: Status
    var stored: Status
    var changed: set<string>

    constructor (s: Status)
      ensures Valid() && current == s && stored == s
    {
      current, stored, changed := s, s, {};
    }

    ghost predicate Valid()
      reads this
    {
      changed == {} ==> current == stored
    }

    method SetBlockingOperation(op: Operation)
      requires Valid()
      modifies this
      ensures Valid() && stored == old(stored) && current == old(current).(operation := op)
    {
      changed := changed + {"BlockingOperation"};
      current := current.(operation := op);
    }

    method SetPreviousBlockingOperation(op: Operation)
      requires Valid()
      modifies this
      ensures Valid() && stored == old(stored) && current == old(current).(previous := op)
    {
      changed := changed + {"PreviousBlockingOperation"};
      current := current.(previous := op);
    }

    method SetEnforcedReplicas(n: int)
      requires Valid()
      modifies this
      ensures Valid() && stored == old(stored) && current == old(current).(enforcedReplicas := n)
    {
      changed := changed + {"EnforcedReplicas"};
      current := current.(enforcedReplicas := n);
    }

    method SetLastCreatedInstanceIndex(n: nat)
      requires Valid()
      modifies this
      ensures Valid() && stored == old(stored) && current == old(current).(lastCreated := n)
    {
      changed := changed + {"LastCreatedInstanceIndex"};
      current := current.(lastCreated := n);
    }

    /** Although nothing is written when no field was set, what is stored afterwards is the
        status in memory whenever the write, if any, succeeds. */
    method UpdateStatusIfChanged(ok: bool) returns (failed: bool)
      requires Valid()
      modifies this
      ensures current == old(current) && changed == old(changed)
      ensures stored == if ok then current else old(stored)
      ensures failed ==> !ok && changed != {}
    {
      if changed == {} {
        return false;
      }
      if ok {
        stored := current;
      }
      return !ok;
    }
  }

  /** What `AddConfig` is given. */
  datatype Registration = Registration(id: OperationId, step: StepId, config: Config)

  type StepKey = (OperationId, StepId)

  /** The registered steps are the ones that the specification of the lock knows. */
  ghost predicate Registered(configs: map<StepKey, Config>) {
    forall id, step :: ((id, step) in configs <==> ConfigOf(id, step).Some?)
                       && ((id, step) in configs ==> ConfigOf(id, step) == Some(configs[(id, step)]))
  }

  function RegisteredSteps(): (m: map<StepKey, Config>)
  {
    map[
      (BaseConfigCount, BaseConfigDeploying) := Config(10, true, false),
      (PrimaryDbCount, PrimaryDbDeploying) := Config(300, true, false),
      (PrimaryDbCount, WaitingBeforeFailingOver) := Config(10, false, true),
      (PrimaryDbCount, FailingOver) := Config(300, true, false),
      (ReplicaDbCount, ReplicaDbDeploying) := Config(300, true, false),
      (ReplicaDbCount, ReplicaDbUndeploying) := Config(60, true, false),
      (StatefulSetSpec, SpecUpdating) := Config(300, true, true),
      (StatefulSetSpec, PodSpecUpdating) := Config(300, true, true),
      (StatefulSetSpec, WaitingOnStuckPod) := Config(300, true, true)
    ]
  }

  lemma RegistryComplete()
    ensures Registered(RegisteredSteps())
  {
    forall id, step
      ensures (id, step) in RegisteredSteps() <==> ConfigOf(id, step).Some?
      ensures (id, step) in RegisteredSteps() ==> ConfigOf(id, step) == Some(RegisteredSteps()[(id, step)])
    {
      match step {
        case BaseConfigDeploying =>
        case PrimaryDbDeploying =>
        case WaitingBeforeFailingOver =>
        case FailingOver =>
        case ReplicaDbDeploying =>
        case ReplicaDbUndeploying =>
        case SpecUpdating =>
        case PodSpecUpdating =>
        case WaitingOnStuckPod =>
        case NoStep =>
        case TransitionStep =>
      }
    }
  }

  class BlockingOperation {
    const status: StatusWrapper
    var configs: map<StepKey, Config>
    var active: Operation
    var previous: Operation

    constructor (s: StatusWrapper)
      ensures status == s && configs == map[] && active == NONE
    {
      status := s;
      configs, active, previous := map[], NONE, NONE;
    }

    /** The lock as its specification sees it. */
    ghost function Contents(): (l: Lock)
      reads this, status
    {
      Lock(active, previous, status.current.operation)
    }

    ghost predicate Valid()
      reads this, status
    {
      status.Valid() && Registered(configs) && previous == status.current.previous
    }

    /** What no method of the lock touches. */
    ghost predicate CountersKept(s: Status, s': Status) {
      s'.enforcedReplicas == s.enforcedReplicas && s'.lastCreated == s.lastCreated
    }

    method AddConfig(r: Registration)
      modifies this
      ensures configs == old(configs)[(r.id, r.step) := r.config]
      ensures active == old(active) && previous == old(previous)
    {
      configs := configs[(r.id, r.step) := r.config];
    }

    /** The nine registrations of the resources context. */
    method RegisterAll()
      requires configs == map[]
      modifies this
      ensures Registered(configs) && active == old(active) && previous == old(previous)
    {
      AddConfig(Registration(BaseConfigCount, BaseConfigDeploying, Config(10, true, false)));
      AddConfig(Registration(PrimaryDbCount, PrimaryDbDeploying, Config(300, true, false)));
      AddConfig(Registration(PrimaryDbCount, WaitingBeforeFailingOver, Config(10, false, true)));
      AddConfig(Registration(PrimaryDbCount, FailingOver, Config(300, true, false)));
      AddConfig(Registration(ReplicaDbCount, ReplicaDbDeploying, Config(300, true, false)));
      AddConfig(Registration(ReplicaDbCount, ReplicaDbUndeploying, Config(60, true, false)));
      AddConfig(Registration(StatefulSetSpec, SpecUpdating, Config(300, true, true)));
      AddConfig(Registration(StatefulSetSpec, PodSpecUpdating, Config(300, true, true)));
      AddConfig(Registration(StatefulSetSpec, WaitingOnStuckPod, Config(300, true, true)));
      assert configs == RegisteredSteps();
      RegistryComplete();
    }

    /** A lookup that misses yields the zero configuration. */
    function GetConfig(op: Operation): (c: Config)
      reads this
      ensures Registered(configs) ==> c == ConfigFor(op)
    {
      if (op.id, op.step) in configs then configs[(op.id, op.step)] else Config(0, false, false)
    }

    function GetSecondsLeft(now: int): (n: int)
      reads this
      ensures n == SecondsLeft(active, now) && n >= 0
    {
      if active.timeOut == 0 then 0
      else
        var left := active.timeOut - now;
        if left < 0 then 0 else left
    }

    predicate IsOtherActive(id: OperationId)
      reads this
    {
      active.id != NoOperation && active.id != id
    }

    predicate IsInTransition(id: OperationId)
      reads this
    {
      active.id == id && active.step == TransitionStep
    }

    predicate HasTimedOutOn(id: OperationId)
      reads this
    {
      active.id == id && active.hasTimedOut
    }

    method RemoveOperation(timedOut: bool)
      requires Valid()
      modifies this, status
      ensures Valid() && Contents() == Removed(old(Contents()), timedOut)
      ensures configs == old(configs) && status.stored == old(status.stored)
      ensures CountersKept(old(status.current), status.current)
    {
      if active.step != TransitionStep {
        previous := active.(hasTimedOut := timedOut);
        status.SetPreviousBlockingOperation(previous);
      }
      active := NONE;
      status.SetBlockingOperation(active);
    }

    method MoveToTransition(timedOut: bool)
      requires Valid()
      modifies this, status
      ensures Valid() && Contents() == Parked(old(Contents()), timedOut)
      ensures configs == old(configs) && status.stored == old(status.stored)
      ensures CountersKept(old(status.current), status.current)
    {
      previous := active.(hasTimedOut := timedOut);
      status.SetPreviousBlockingOperation(previous);
      active := active.(step := TransitionStep);
      active := active.(hasTimedOut := false);
      active := active.(timeOut := 0);
      status.SetBlockingOperation(active);
    }

    method FinishOperation(timedOut: bool)
      requires Valid()
      modifies this, status
      ensures Valid() && Contents() == Finished(old(Contents()), timedOut)
      ensures configs == old(configs) && status.stored == old(status.stored)
      ensures CountersKept(old(status.current), status.current)
    {
      if GetConfig(active).toTransition {
        MoveToTransition(timedOut);
      } else {
        RemoveOperation(timedOut);
      }
    }

    /** Reads the lock back and settles a completed or expired operation; the result says how
        long to leave the cluster alone. */
    method LoadActiveOperation(now: int, completed: bool) returns (seconds: int)
      requires status.Valid() && Registered(configs)
      modifies this, status
      ensures Valid()
      ensures Contents() == Loaded(old(status.current.operation), old(status.current.previous), now, completed)
      ensures seconds == RequeueAfter(Contents(), now)
      ensures configs == old(configs) && status.stored == old(status.stored)
      ensures CountersKept(old(status.current), status.current)
    {
      active := status.current.operation;
      previous := status.current.previous;
      if active.id != NoOperation && active.step != TransitionStep {
        if active.timeOut - now <= 0 {
          active := active.(hasTimedOut := true);
          if !GetConfig(active).hasChecker {
            FinishOperation(true);
          }
        } else if GetConfig(active).hasChecker && completed {
          FinishOperation(false);
        }
      }
      seconds := GetSecondsLeft(now);
      if seconds > 20 {
        seconds := 20;
      }
    }

    /** Refused when another operation is active or the step is not registered. */
    method ActivateOperation(op: Operation, now: int) returns (refused: bool)
      requires Valid()
      modifies this, status
      ensures Valid() && refused == !CanActivate(old(Contents()), op)
      ensures Contents() == Activated(old(Contents()), op, now)
      ensures configs == old(configs) && status.stored == old(status.stored)
      ensures CountersKept(old(status.current), status.current)
    {
      if IsOtherActive(op.id) {
        return true;
      }
      if (op.id, op.step) !in configs && op.id != NoOperation {
        return true;
      }
      active := op.(timeOut := now + GetConfig(op).timeOut);
      status.SetBlockingOperation(active);
      return false;
    }

    method RemoveActiveOperation()
      requires Valid()
      modifies this, status
      ensures Valid() && Contents() == Removed(old(Contents()), false)
      ensures configs == old(configs) && status.stored == old(status.stored)
      ensures CountersKept(old(status.current), status.current)
    {
      RemoveOperation(false);
    }
  }
}
