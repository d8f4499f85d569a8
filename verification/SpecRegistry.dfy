/** The registry of enforcers that rewrite a StatefulSet: each one compares a part of it with
    the specification and, where they differ, puts the wanted value in place. */
module SpecRegistry {
  import opened Resources
  import opened VolumeLists
  import opened CustomConfig

  /** The fields of the pod template that have an enforcer of their own. */
  datatype Scalar =
    | Affinity
    | Tolerations
    | ContainerResources
    | SecurityContext
    | LivenessProbe
    | ReadinessProbe
    | ServiceAccount

  type Scalars = map<Scalar, string>

  type Metadata = map<string, string>

  /** A StatefulSet as the enforcers see it. The image and the endpoint of the init container
      mean something only when the wiring has one. A scalar that is not set is not in the
      map; an empty security context is the empty text. */
  datatype Manifest = Manifest(
    labels: Metadata,
    annotations: Metadata,
    podLabels: Metadata,
    podAnnotations: Metadata,
    image: string,
    initImage: string,
    port: int,
    scalars: Scalars,
    wiring: Wiring,
    endpoint: string)

  /** What the resource asks for. */
  datatype Wanted = Wanted(
    labels: Metadata,
    annotations: Metadata,
    image: string,
    port: int,
    scalars: Scalars,
    volumes: seq<Volume>,
    mounts: seq<Mount>,
    config: ConfigStates,
    configMap: string,
    endpoint: string)

  datatype Enforcer =
    | Image
    | Port
    | StorageSize
    | Config
    | Field(scalar: Scalar)
    | Volumes
    | CustomMetadata
    | Endpoint

  const REGISTRY := [
    Image, Port, StorageSize, Config, Field(Affinity), Field(Tolerations), Field(ContainerResources), Volumes,
    Field(SecurityContext), Field(LivenessProbe), Field(ReadinessProbe), Field(ServiceAccount),
    CustomMetadata, Endpoint]

  // ---------- Metadata ----------

  const PREFIX := "kubegres.reactive-tech.io/"

  /** The entries that the operator copies from the resource. */
  function Prefixed(m: Metadata): (r: Metadata)
    ensures forall k :: k in r <==> k in m && PREFIX <= k
    ensures forall k :: k in r ==> r[k] == m[k]
  {
    map k | k in m && PREFIX <= k :: m[k]
  }

  /** Keys are added and overwritten, never removed. */
  function Merged(m: Metadata, from: Metadata): (r: Metadata)
    ensures r.Keys == m.Keys + from.Keys
    ensures forall k :: k in r ==> r[k] == if k in from then from[k] else m[k]
  {
    m + from
  }

  /** Merging makes the prefixed entries equal exactly when none of them was dropped. */
  lemma MergeConverges(m: Metadata, from: Metadata)
    ensures Prefixed(Merged(m, Prefixed(from))) == Prefixed(from) <==> Prefixed(m).Keys <= Prefixed(from).Keys
  {
    var r := Prefixed(Merged(m, Prefixed(from)));
    assert r.Keys == Prefixed(m).Keys + Prefixed(from).Keys;
    if Prefixed(m).Keys <= Prefixed(from).Keys {
      assert r.Keys == Prefixed(from).Keys;
    }
  }

  // ---------- Scalars ----------

  function At(s: Scalars, x: Scalar): (v: Option<string>)
  {
    if x in s then Some(s[x]) else None
  }

  function With(s: Scalars, x: Scalar, v: Option<string>): (r: Scalars)
    ensures At(r, x) == v
    ensures forall y :: y != x ==> At(r, y) == At(s, y)
  {
    if v.Some? then s[x := v.value] else s - {x}
  }

  /** A probe that is not asked for is left as it is; an absent security context and an empty
      one are the same. */
  predicate ScalarDiffers(x: Scalar, current: Option<string>, expected: Option<string>) {
    match x
    case LivenessProbe | ReadinessProbe => expected.Some? && current != expected
    case SecurityContext => !(expected.None? && current == Some("")) && current != expected
    case _ => current != expected
  }

  // ---------- Volumes ----------

  function VolumeName(v: Volume): (n: string) { v.name }

  function MountName(m: Mount): (n: string) { m.name }

  predicate VolumesDiffer(w: Wiring, volumes: seq<Volume>, mounts: seq<Mount>) {
    || !Matches(Custom(VolumeName, w.volumes), volumes)
    || (w.init.Some? && !Matches(Custom(MountName, w.init.value), mounts))
    || !Matches(Custom(MountName, w.mounts), mounts)
  }

  /** Mounts are only added to a list that was there before: an absent list stays absent. */
  function MountsReplaced(current: seq<Mount>, mounts: seq<Mount>): (r: seq<Mount>)
  {
    Owned(MountName, current) + if current == [] then [] else mounts
  }

  function VolumesReplaced(w: Wiring, volumes: seq<Volume>, mounts: seq<Mount>): (r: Wiring)
  {
    Wiring(Owned(VolumeName, w.volumes) + volumes,
           MountsReplaced(w.mounts, mounts),
           if w.init.Some? then Some(MountsReplaced(w.init.value, mounts)) else None)
  }

  // ---------- The enforcers ----------

  /** The check of the storage size is disabled. */
  predicate Differs(e: Enforcer, m: Manifest, k: Wanted) {
    match e
    case Image => m.image != k.image
    case Port => m.port != k.port
    case StorageSize => false
    case Config => Configured(m.wiring, k.config, k.configMap) != m.wiring
    case Field(x) => ScalarDiffers(x, At(m.scalars, x), At(k.scalars, x))
    case Volumes => VolumesDiffer(m.wiring, k.volumes, k.mounts)
    case CustomMetadata =>
      Prefixed(m.labels) != Prefixed(k.labels) || Prefixed(m.annotations) != Prefixed(k.annotations)
    case Endpoint => m.wiring.init.Some? && m.endpoint != k.endpoint
  }

  function Enforced(e: Enforcer, m: Manifest, k: Wanted): (r: Manifest)
  {
    match e
    case Image => if m.wiring.init.Some? then m.(image := k.image, initImage := k.image) else m.(image := k.image)
    case Port => m.(port := k.port)
    case StorageSize => m
    case Config => m.(wiring := Configured(m.wiring, k.config, k.configMap))
    case Field(x) => m.(scalars := With(m.scalars, x, At(k.scalars, x)))
    case Volumes => m.(wiring := VolumesReplaced(m.wiring, k.volumes, k.mounts))
    case CustomMetadata =>
      m.(labels := Merged(m.labels, Prefixed(k.labels)),
         annotations := Merged(m.annotations, Prefixed(k.annotations)),
         podLabels := Merged(m.podLabels, Prefixed(k.labels)),
         podAnnotations := Merged(m.podAnnotations, Prefixed(k.annotations)))
    case Endpoint => m.(endpoint := k.endpoint)
  }

  function Swept(e: Enforcer, m: Manifest, k: Wanted): (r: Manifest)
  {
    if Differs(e, m, k) then Enforced(e, m, k) else m
  }

  function Sweep(m: Manifest, k: Wanted, es: seq<Enforcer>): (r: Manifest)
    decreases |es|
  {
    if es == [] then m else Swept(es[|es| - 1], Sweep(m, k, es[..|es| - 1]), k)
  }

  function Rewritten(m: Manifest, k: Wanted): (r: Manifest)
  {
    Sweep(m, k, REGISTRY)
  }

  /** Which part of the StatefulSet an enforcer is about. */
  datatype Part = ImagePart | PortPart | NoPart | WiringPart | ScalarPart(scalar: Scalar) | MetadataPart | EndpointPart

  function PartOf(e: Enforcer): (p: Part)
  {
    match e
    case Image => ImagePart
    case Port => PortPart
    case StorageSize => NoPart
    case Config => WiringPart
    case Field(x) => ScalarPart(x)
    case Volumes => WiringPart
    case CustomMetadata => MetadataPart
    case Endpoint => EndpointPart
  }

  /** Two StatefulSets agree on a part. */
  predicate SamePart(p: Part, m: Manifest, r: Manifest) {
    match p
    case ImagePart =>
      r.image == m.image && r.initImage == m.initImage && r.wiring.init.Some? == m.wiring.init.Some?
    case PortPart => r.port == m.port
    case NoPart => true
    case WiringPart => r.wiring == m.wiring
    case ScalarPart(x) => At(r.scalars, x) == At(m.scalars, x)
    case MetadataPart =>
      && r.labels == m.labels && r.annotations == m.annotations
      && r.podLabels == m.podLabels && r.podAnnotations == m.podAnnotations
    case EndpointPart => r.endpoint == m.endpoint && r.wiring.init.Some? == m.wiring.init.Some?
  }

  lemma OtherPartsKept(e: Enforcer, p: Part, m: Manifest, k: Wanted)
    requires PartOf(e) != p
    ensures SamePart(p, m, Swept(e, m, k))
  {
  }

  lemma PartDecides(e: Enforcer, m: Manifest, r: Manifest, k: Wanted)
    requires SamePart(PartOf(e), m, r)
    ensures Differs(e, m, k) <==> Differs(e, r, k)
  {
  }

  lemma {:induction false} PartKeptBy(p: Part, m: Manifest, k: Wanted, es: seq<Enforcer>)
    requires forall e :: e in es ==> PartOf(e) != p
    ensures SamePart(p, m, Sweep(m, k, es))
    decreases |es|
  {
    if es != [] {
      var init := es[..|es| - 1];
      PartKeptBy(p, m, k, init);
      assert es[|es| - 1] in es;
      OtherPartsKept(es[|es| - 1], p, Sweep(m, k, init), k);
    }
  }

  lemma {:induction false} PassInTwo(m: Manifest, k: Wanted, a: seq<Enforcer>, b: seq<Enforcer>)
    ensures Sweep(m, k, a + b) == Sweep(Sweep(m, k, a), k, b)
    decreases |b|
  {
    if b == [] {
      assert a + b == a;
    } else {
      PassInTwo(m, k, a, b[..|b| - 1]);
      assert (a + b)[..|a + b| - 1] == a + b[..|b| - 1];
    }
  }

  /** An enforcer that is alone on its part decides about that part by itself. */
  lemma AloneOnPart(m: Manifest, k: Wanted, a: seq<Enforcer>, e: Enforcer, b: seq<Enforcer>)
    requires forall f :: f in a + b ==> PartOf(f) != PartOf(e)
    ensures SamePart(PartOf(e), m, Sweep(m, k, a))
    ensures SamePart(PartOf(e), Swept(e, Sweep(m, k, a), k), Sweep(m, k, a + [e] + b))
  {
    PartKeptBy(PartOf(e), m, k, a);
    PassInTwo(m, k, a + [e], b);
    PassInTwo(m, k, a, [e]);
    assert Sweep(Sweep(m, k, a), k, [e]) == Swept(e, Sweep(m, k, a), k);
    PartKeptBy(PartOf(e), Swept(e, Sweep(m, k, a), k), k, b);
  }

  predicate Single(e: Enforcer) {
    !e.Config? && !e.Volumes? && !e.CustomMetadata?
  }

  lemma SingleSettles(e: Enforcer, m: Manifest, k: Wanted)
    requires Single(e)
    ensures !Differs(e, Swept(e, m, k), k)
  {
  }
}
