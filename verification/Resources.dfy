/** The data the operator works on: the Kubegres resource (spec and status), the
    StatefulSets and pods it owns, and the record of its blocking operation. */
module Resources {

  datatype Option<+T> = None | Some(value: T)

  /** `NoOperation` and `NoStep` stand for the empty strings of a zero-valued record. */
  datatype OperationId =
    | NoOperation
    | BaseConfigCount
    | PrimaryDbCount
    | ReplicaDbCount
    | StatefulSetSpec

  datatype StepId =
    | NoStep
    | BaseConfigDeploying
    | PrimaryDbDeploying
    | WaitingBeforeFailingOver
    | FailingOver
    | ReplicaDbDeploying
    | ReplicaDbUndeploying
    | SpecUpdating
    | PodSpecUpdating
    | WaitingOnStuckPod
    | TransitionStep

  /** One entry of the text that lists spec differences: a field and its wanted value. */
  datatype Difference = Difference(field: string, expected: string)

  datatype Operation = Operation(
    id: OperationId,
    step: StepId,
    index: nat,
    differences: seq<Difference>,
    timeOut: int,
    hasTimedOut: bool)

  const NONE := Operation(NoOperation, NoStep, 0, [], 0, false)

  datatype Role = Primary | Replica

  /** The parameters that cannot change once a database exists. */
  datatype Storage = Storage(mountPath: string, storageClass: string, size: string)

  /** What the rolling update enforces. The pod is compared on image and port only;
      every other enforced field is represented by `other`. */
  datatype Fields = Fields(image: string, port: string, other: string)

  datatype StatefulSet = StatefulSet(role: Role, ready: bool, storage: Storage, fields: Fields)

  datatype Pod = Pod(containerReady: bool, stuck: bool, image: string, port: string) {
    predicate Ready() {
      containerReady && !stuck
    }
  }

  /** `promotePod` holds the instance index in the pod name the user typed; a name that
      belongs to no pod is an index under which no pod is listed. `otherwiseValid` is the
      verdict of the checks of the specification other than those on the storage parameters
      and on the number of replicas. */
  datatype Spec = Spec(
    replicas: int,
    standby: bool,
    failoverDisabled: bool,
    promotePod: Option<nat>,
    storage: Storage,
    fields: Fields,
    otherwiseValid: bool)

  datatype Status = Status(
    operation: Operation,
    previous: Operation,
    enforcedReplicas: int,
    lastCreated: nat)

  /** StatefulSets and pods are keyed by instance index, which determines their names. */
  type Cluster = map<nat, StatefulSet>
  type Pods = map<nat, Pod>

  /** Everything stored outside the operator. */
  datatype World = World(
    spec: Spec,
    status: Status,
    cluster: Cluster,
    pods: Pods,
    baseConfig: bool)

  /** The answers the outside gives during one reconcile. A flag is false when the call it
      names fails. The clock is read once. */
  datatype Replies = Replies(
    now: int,
    claimExists: bool,
    configOk: bool,
    createOk: bool,
    deleteOk: bool,
    promoteOk: bool,
    updateOk: bool,
    podDeleteOk: bool,
    specOk: bool,
    servicesOk: bool,
    serviceDeleteOk: bool,
    statusOk: bool)

  /** The calls that change StatefulSets. */
  datatype Verb =
    | CreatePrimary
    | CreateReplica
    | DeletePrimary
    | DeleteReplica
    | PromoteReplica
    | UpdateFields

  datatype Call = Call(verb: Verb, index: nat, ok: bool)

  function Primaries(c: Cluster): (s: set<nat>)
  {
    set i | i in c && c[i].role.Primary?
  }

  function ReplicaKeys(c: Cluster): (s: set<nat>)
  {
    set i | i in c && c[i].role.Replica?
  }

  lemma RolesPartition(c: Cluster)
    ensures Primaries(c) !! ReplicaKeys(c)
    ensures Primaries(c) + ReplicaKeys(c) == c.Keys
    ensures |Primaries(c)| + |ReplicaKeys(c)| == |c|
  {
    forall i | i in c ensures i in Primaries(c) + ReplicaKeys(c) {
      match c[i].role { case Primary => case Replica => }
    }
    assert Primaries(c) + ReplicaKeys(c) == c.Keys;
  }
}
