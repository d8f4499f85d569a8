/** One pass of the whole registry: when it makes every check clean, and what it never touches. */
module Convergence {
  import opened Resources
  import opened VolumeLists
  import opened CustomConfig
  import opened SpecRegistry

  // ---------- The wiring: configuration first, volumes second ----------

  lemma WiredIdentity(mounts: seq<Mount>, l: Locations)
    ensures Wired(mounts, l) == mounts <==>
              forall m :: m in mounts && m.subPath in MANAGED_KEYS ==> m.name == l.At(m.subPath)
  {
    if Wired(mounts, l) == mounts {
      forall m | m in mounts && m.subPath in MANAGED_KEYS ensures m.name == l.At(m.subPath) {
        var i :| 0 <= i < |mounts| && mounts[i] == m;
        assert Wired(mounts, l)[i] == m;
      }
    } else {
      if forall m :: m in mounts && m.subPath in MANAGED_KEYS ==> m.name == l.At(m.subPath) {
        forall i | 0 <= i < |mounts| ensures Wired(mounts, l)[i] == mounts[i] {
          assert mounts[i] in mounts;
        }
        assert false;
      }
    }
  }

  /** The first custom configuration volume is the first one among the operator's own. */
  lemma {:induction false} FirstNamedOwned(volumes: seq<Volume>, more: seq<Volume>, name: string)
    requires Reserved(name) && forall v :: v in more ==> v.name != name
    ensures FirstNamed(Owned(VolumeName, volumes) + more, name) == FirstNamed(volumes, name)
  {
    if volumes == [] {
      NoneNamed(more, name);
      assert Owned(VolumeName, volumes) + more == more;
    } else {
      FirstNamedOwned(volumes[1..], more, name);
      var rest := Owned(VolumeName, volumes[1..]) + more;
      if Reserved(volumes[0].name) {
        assert Owned(VolumeName, volumes) + more == [volumes[0]] + rest;
        assert ([volumes[0]] + rest)[1..] == rest;
      } else {
        assert Owned(VolumeName, volumes) + more == rest;
      }
    }
  }

  lemma NoneNamed(volumes: seq<Volume>, name: string)
    requires forall v :: v in volumes ==> v.name != name
    ensures FirstNamed(volumes, name) == None
  {
  }

  predicate NoneReserved(volumes: seq<Volume>, mounts: seq<Mount>) {
    (forall v :: v in volumes ==> !Reserved(v.name)) && (forall m :: m in mounts ==> !Reserved(m.name))
  }

  predicate NoneManaged(mounts: seq<Mount>) {
    forall m :: m in mounts ==> m.subPath !in MANAGED_KEYS
  }

  /** There is a list to which the user's mounts can be added. */
  predicate Mountable(w: Wiring, mounts: seq<Mount>) {
    mounts == [] || (w.mounts != [] && (w.init.Some? ==> w.init.value != []))
  }

  lemma ReplacedMountsMatch(current: seq<Mount>, mounts: seq<Mount>)
    requires (forall m :: m in mounts ==> !Reserved(m.name)) && (mounts == [] || current != [])
    ensures Custom(MountName, MountsReplaced(current, mounts)) == mounts
  {
    var owned := Owned(MountName, current);
    FilterAppend(MountName, owned, mounts, false);
    FilterAll(MountName, owned, false);
    FilterAll(MountName, mounts, false);
    assert MountsReplaced(current, mounts) == owned + mounts;
  }

  lemma ReplacedVolumesMatch(current: seq<Volume>, volumes: seq<Volume>)
    requires forall v :: v in volumes ==> !Reserved(v.name)
    ensures Custom(VolumeName, Owned(VolumeName, current) + volumes) == volumes
  {
    var owned := Owned(VolumeName, current);
    FilterAppend(VolumeName, owned, volumes, false);
    FilterAll(VolumeName, owned, false);
    FilterAll(VolumeName, volumes, false);
  }

  /** The wiring after the two enforcers that change it. */
  function Rewired(w: Wiring, k: Wanted): (r: Wiring)
  {
    var w1 := Configured(w, k.config, k.configMap);
    if VolumesDiffer(w1, k.volumes, k.mounts) then VolumesReplaced(w1, k.volumes, k.mounts) else w1
  }

  predicate WiringClean(w: Wiring, k: Wanted) {
    Configured(w, k.config, k.configMap) == w && !VolumesDiffer(w, k.volumes, k.mounts)
  }

  lemma ReplacedStaysWired(current: seq<Mount>, mounts: seq<Mount>, l: Locations)
    requires Wired(current, l) == current && NoneManaged(mounts)
    ensures Wired(MountsReplaced(current, mounts), l) == MountsReplaced(current, mounts)
  {
    WiredIdentity(current, l);
    WiredIdentity(MountsReplaced(current, mounts), l);
  }

  lemma ReplacedStaysConfigured(w: Wiring, k: Wanted)
    requires Configured(w, k.config, k.configMap) == w
    requires NoneReserved(k.volumes, k.mounts) && NoneManaged(k.mounts)
    ensures var r := VolumesReplaced(w, k.volumes, k.mounts); Configured(r, k.config, k.configMap) == r
  {
    var r, l := VolumesReplaced(w, k.volumes, k.mounts), k.config.locations;
    ReplacedStaysWired(w.mounts, k.mounts, l);
    if w.init.Some? {
      ReplacedStaysWired(w.init.value, k.mounts, l);
    }
    FirstNamedOwned(w.volumes, k.volumes, CUSTOM_CONFIG_VOLUME);
    VolumesChanged(w.volumes, k.config.customDeployed, k.configMap);
    VolumesChanged(r.volumes, k.config.customDeployed, k.configMap);
  }

  lemma WiringConverges(w: Wiring, k: Wanted)
    requires NoneReserved(k.volumes, k.mounts) && NoneManaged(k.mounts) && Mountable(w, k.mounts)
    ensures WiringClean(Rewired(w, k), k)
  {
    var w1 := Configured(w, k.config, k.configMap);
    ConfigureIdempotent(w, k.config, k.configMap);
    if VolumesDiffer(w1, k.volumes, k.mounts) {
      ReplacedStaysConfigured(w1, k);
      ReplacedVolumesMatch(w1.volumes, k.volumes);
      ReplacedMountsMatch(w1.mounts, k.mounts);
      if w1.init.Some? {
        ReplacedMountsMatch(w1.init.value, k.mounts);
      }
    }
  }

  lemma MatchedMounts(current: seq<Mount>, k: Wanted)
    requires Consistent(k.config) && Wired(current, k.config.locations) == current
    requires Matches(Custom(MountName, current), k.mounts)
    ensures (forall m :: m in k.mounts ==> !Reserved(m.name)) && NoneManaged(k.mounts)
    ensures current == [] ==> k.mounts == []
  {
    WiredIdentity(current, k.config.locations);
    forall m | m in k.mounts ensures !Reserved(m.name) && m.subPath !in MANAGED_KEYS {
      assert m in Custom(MountName, current);
      assert MountName(m) == m.name;
    }
  }

  /** The pass leaves the wiring clean exactly when the user's volumes and mounts stay clear of
      what the operator manages and there is a list to add the mounts to. */
  lemma WiringCleanExactly(w: Wiring, k: Wanted)
    requires Consistent(k.config)
    ensures WiringClean(Rewired(w, k), k) <==>
              NoneReserved(k.volumes, k.mounts) && NoneManaged(k.mounts) && Mountable(w, k.mounts)
  {
    var r := Rewired(w, k);
    if WiringClean(r, k) {
      MatchedMounts(r.mounts, k);
      forall v | v in k.volumes ensures !Reserved(v.name) {
        assert v in Custom(VolumeName, r.volumes);
        assert VolumeName(v) == v.name;
      }
      if w.init.Some? {
        MatchedMounts(r.init.value, k);
      }
    } else if NoneReserved(k.volumes, k.mounts) && NoneManaged(k.mounts) && Mountable(w, k.mounts) {
      WiringConverges(w, k);
      assert false;
    }
  }

  // ---------- The whole registry ----------

  function Position(e: Enforcer): (n: nat)
  {
    match e
    case Image => 0
    case Port => 1
    case StorageSize => 2
    case Config => 3
    case Field(x) => (
      match x
      case Affinity => 4
      case Tolerations => 5
      case ContainerResources => 6
      case SecurityContext => 8
      case LivenessProbe => 9
      case ReadinessProbe => 10
      case ServiceAccount => 11)
    case Volumes => 7
    case CustomMetadata => 12
    case Endpoint => 13
  }

  /** The registry holds every enforcer once. */
  lemma RegistryPositions(e: Enforcer)
    ensures |REGISTRY| == 14 && Position(e) < 14 && REGISTRY[Position(e)] == e
    ensures forall i :: 0 <= i < 14 ==> Position(REGISTRY[i]) == i
  {
  }

  /** What stands around an element that occurs once. */
  lemma Around(es: seq<Enforcer>, p: nat) returns (a: seq<Enforcer>, b: seq<Enforcer>)
    requires p < |es| && forall i :: 0 <= i < |es| && i != p ==> es[i] != es[p]
    ensures es == a + [es[p]] + b
    ensures forall f :: f in a + b ==> f != es[p]
  {
    a, b := es[..p], es[p + 1..];
  }

  predicate AloneInRegistry(e: Enforcer) {
    !e.Config? && !e.Volumes?
  }

  lemma PartsApart(e: Enforcer, f: Enforcer)
    requires AloneInRegistry(e) && f != e
    ensures PartOf(f) != PartOf(e)
  {
  }

  /** Every enforcer that is alone on its part does its work as if it were the only one. */
  lemma AloneInPass(e: Enforcer, m: Manifest, k: Wanted) returns (before: Manifest)
    requires AloneInRegistry(e)
    ensures SamePart(PartOf(e), m, before)
    ensures SamePart(PartOf(e), Swept(e, before, k), Rewritten(m, k))
  {
    RegistryPositions(e);
    var a, b := Around(REGISTRY, Position(e));
    forall f | f in a + b ensures PartOf(f) != PartOf(e) {
      PartsApart(e, f);
    }
    AloneOnPart(m, k, a, e, b);
    before := Sweep(m, k, a);
  }

  lemma SingleClean(e: Enforcer, m: Manifest, k: Wanted)
    requires Single(e)
    ensures !Differs(e, Rewritten(m, k), k)
  {
    var before := AloneInPass(e, m, k);
    SingleSettles(e, before, k);
    PartDecides(e, Swept(e, before, k), Rewritten(m, k), k);
  }

  /** No prefixed label or annotation of the StatefulSet was dropped from the resource. */
  predicate NothingDropped(m: Manifest, k: Wanted) {
    Prefixed(m.labels).Keys <= Prefixed(k.labels).Keys && Prefixed(m.annotations).Keys <= Prefixed(k.annotations).Keys
  }

  lemma MetadataSettles(m: Manifest, k: Wanted)
    ensures !Differs(CustomMetadata, Swept(CustomMetadata, m, k), k) <==> NothingDropped(m, k)
  {
    MergeConverges(m.labels, k.labels);
    MergeConverges(m.annotations, k.annotations);
  }

  lemma MetadataClean(m: Manifest, k: Wanted)
    ensures !Differs(CustomMetadata, Rewritten(m, k), k) <==> NothingDropped(m, k)
  {
    var before := AloneInPass(CustomMetadata, m, k);
    MetadataSettles(before, k);
    PartDecides(CustomMetadata, Swept(CustomMetadata, before, k), Rewritten(m, k), k);
  }

  lemma WiringKept(a: seq<Enforcer>, m: Manifest, k: Wanted)
    requires Config !in a && Volumes !in a
    ensures Sweep(m, k, a).wiring == m.wiring
  {
    forall e | e in a ensures PartOf(e) != WiringPart {
      assert e != Config && e != Volumes;
    }
    PartKeptBy(WiringPart, m, k, a);
  }

  lemma WiringAfter(m: Manifest, k: Wanted)
    ensures Rewritten(m, k).wiring == Rewired(m.wiring, k)
  {
    var a, b, c := REGISTRY[..3], REGISTRY[4..7], REGISTRY[8..];
    assert REGISTRY == a + [Config] + (b + [Volumes] + c);
    assert a == [Image, Port, StorageSize];
    assert b == [Field(Affinity), Field(Tolerations), Field(ContainerResources)];
    var m1 := Sweep(m, k, a);
    var m2 := Swept(Config, m1, k);
    var m3 := Sweep(m2, k, b);
    var m4 := Swept(Volumes, m3, k);
    WiringKept(a, m, k);
    WiringKept(b, m2, k);
    WiringKept(c, m4, k);
    PassInTwo(m, k, a + [Config], b + [Volumes] + c);
    PassInTwo(m, k, a, [Config]);
    assert Sweep(m1, k, [Config]) == m2;
    PassInTwo(m2, k, b + [Volumes], c);
    PassInTwo(m2, k, b, [Volumes]);
    assert Sweep(m3, k, [Volumes]) == m4;
  }

  predicate Clean(m: Manifest, k: Wanted) {
    forall e :: e in REGISTRY ==> !Differs(e, m, k)
  }

  /** With the single fields clean, metadata and wiring decide. */
  lemma CleanByParts(m: Manifest, k: Wanted)
    requires forall e :: Single(e) ==> !Differs(e, m, k)
    ensures Clean(m, k) <==> !Differs(CustomMetadata, m, k) && WiringClean(m.wiring, k)
  {
    RegistryPositions(Config);
    RegistryPositions(Volumes);
    RegistryPositions(CustomMetadata);
    assert Config in REGISTRY && Volumes in REGISTRY && CustomMetadata in REGISTRY;
  }

  /** When one pass suffices. */
  predicate Convergent(m: Manifest, k: Wanted) {
    && NothingDropped(m, k)
    && NoneReserved(k.volumes, k.mounts) && NoneManaged(k.mounts)
    && Mountable(m.wiring, k.mounts)
  }

  /** One pass of the whole registry makes the StatefulSet as the resource asks if and only if no
      prefixed label or annotation was dropped from the resource, the user's volumes and mounts
      have no reserved name, none of the mounts is on a managed configuration file, and the
      containers have mounts to which the user's can be added. */
  lemma OnePassConverges(m: Manifest, k: Wanted)
    requires Consistent(k.config)
    ensures AsWanted(Rewritten(m, k), k) <==> Convergent(m, k)
  {
    var r := Rewritten(m, k);
    forall e | Single(e) ensures !Differs(e, r, k) {
      SingleClean(e, m, k);
    }
    CleanByParts(r, k);
    CleanMeans(r, k);
    MetadataClean(m, k);
    WiringAfter(m, k);
    WiringCleanExactly(m.wiring, k);
  }

  lemma MergeKeepsOthers(m: Metadata, from: Metadata, key: string)
    requires !(PREFIX <= key)
    ensures SameLabel(m, Merged(m, Prefixed(from)), key)
  {
  }

  lemma LabelsKeptBy(e: Enforcer, m: Manifest, k: Wanted, key: string)
    requires !(PREFIX <= key)
    ensures SameLabel(m.podLabels, Swept(e, m, k).podLabels, key)
    ensures SameLabel(m.labels, Swept(e, m, k).labels, key)
  {
    if e.CustomMetadata? {
      MergeKeepsOthers(m.podLabels, k.labels, key);
      MergeKeepsOthers(m.labels, k.labels, key);
    } else {
      OthersKeepLabels(e, m, k);
    }
  }

  lemma OthersKeepLabels(e: Enforcer, m: Manifest, k: Wanted)
    requires !e.CustomMetadata?
    ensures Swept(e, m, k).podLabels == m.podLabels && Swept(e, m, k).labels == m.labels
  {
  }

  lemma {:induction false} LabelsKept(m: Manifest, k: Wanted, es: seq<Enforcer>, key: string)
    requires !(PREFIX <= key)
    ensures SameLabel(m.podLabels, Sweep(m, k, es).podLabels, key)
    ensures SameLabel(m.labels, Sweep(m, k, es).labels, key)
    decreases |es|
  {
    if es != [] {
      LabelsKept(m, k, es[..|es| - 1], key);
      LabelsKeptBy(es[|es| - 1], Sweep(m, k, es[..|es| - 1]), k, key);
    }
  }

  /** A pass never changes the role or the index of a StatefulSet. */
  lemma IdentityKept(m: Manifest, k: Wanted)
    requires "replicationRole" in m.podLabels && "index" in m.podLabels
    ensures var r := Rewritten(m, k);
            && "replicationRole" in r.podLabels && r.podLabels["replicationRole"] == m.podLabels["replicationRole"]
            && "index" in r.podLabels && r.podLabels["index"] == m.podLabels["index"]
  {
    assert PREFIX[0] == 'k' && "replicationRole"[0] == 'r' && "index"[0] == 'i';
    LabelsKept(m, k, REGISTRY, "replicationRole");
    LabelsKept(m, k, REGISTRY, "index");
  }

  // ---------- What a clean check means, and what a pass writes ----------

  /** The first volume of that name mounts the configuration map. */
  predicate FirstMounts(volumes: seq<Volume>, name: string, configMap: string) {
    exists i :: 0 <= i < |volumes| && volumes[i].name == name && volumes[i].configMap == configMap
                && forall j :: 0 <= j < i ==> volumes[j].name != name
  }

  lemma {:induction false} FirstNamedIsFirst(volumes: seq<Volume>, name: string) returns (i: nat)
    requires FirstNamed(volumes, name).Some?
    ensures i < |volumes| && FirstNamed(volumes, name) == Some(volumes[i]) && volumes[i].name == name
    ensures forall j :: 0 <= j < i ==> volumes[j].name != name
  {
    if volumes[0].name == name {
      return 0;
    }
    i := FirstNamedIsFirst(volumes[1..], name);
    i := i + 1;
  }

  lemma FirstMountsMeans(volumes: seq<Volume>, name: string, configMap: string)
    ensures FirstMounts(volumes, name, configMap) <==>
              FirstNamed(volumes, name).Some? && FirstNamed(volumes, name).value.configMap == configMap
  {
    if FirstNamed(volumes, name).Some? {
      var i := FirstNamedIsFirst(volumes, name);
    } else {
      forall i | 0 <= i < |volumes| ensures volumes[i].name != name {
        assert volumes[i] in volumes;
      }
    }
  }

  /** The mounts of the managed files are those of the volumes they come from. */
  predicate MountsWired(mounts: seq<Mount>, l: Locations) {
    forall m :: m in mounts && m.subPath in MANAGED_KEYS ==> m.name == l.At(m.subPath)
  }

  /** The configuration is wired: each managed file is mounted from where it comes from, and the
      custom volume is there exactly when it is in use. */
  predicate ConfigWired(w: Wiring, s: ConfigStates, configMap: string) {
    && MountsWired(w.mounts, s.locations)
    && (w.init.Some? ==> MountsWired(w.init.value, s.locations))
    && (if s.customDeployed then FirstMounts(w.volumes, CUSTOM_CONFIG_VOLUME, configMap)
        else forall v :: v in w.volumes ==> v.name != CUSTOM_CONFIG_VOLUME)
  }

  lemma ConfigWiredMeans(w: Wiring, s: ConfigStates, configMap: string)
    ensures Configured(w, s, configMap) == w <==> ConfigWired(w, s, configMap)
  {
    WiredIdentity(w.mounts, s.locations);
    if w.init.Some? {
      WiredIdentity(w.init.value, s.locations);
    }
    VolumesChanged(w.volumes, s.customDeployed, configMap);
    FirstMountsMeans(w.volumes, CUSTOM_CONFIG_VOLUME, configMap);
    assert Configured(w, s, configMap) == w <==>
             && ConfiguredVolumes(w.volumes, s.customDeployed, configMap) == w.volumes
             && Wired(w.mounts, s.locations) == w.mounts
             && (w.init.Some? ==> Wired(w.init.value, s.locations) == w.init.value);
  }

  /** A probe that is not asked for may be anything; an empty security context counts as none. */
  predicate ScalarAsWanted(x: Scalar, current: Option<string>, wanted: Option<string>) {
    || current == wanted
    || ((x == LivenessProbe || x == ReadinessProbe) && wanted == None)
    || (x == SecurityContext && wanted == None && current == Some(""))
  }

  /** Two StatefulSets carry the same value, or none, under a label. */
  predicate SameLabel(m: Metadata, r: Metadata, key: string) {
    (key in r <==> key in m) && (key in m ==> r[key] == m[key])
  }

  ghost predicate SamePrefixed(m: Metadata, r: Metadata) {
    forall key :: PREFIX <= key ==> SameLabel(m, r, key)
  }

  lemma SamePrefixedMeans(m: Metadata, r: Metadata)
    ensures Prefixed(m) == Prefixed(r) <==> SamePrefixed(m, r)
  {
    if SamePrefixed(m, r) {
      forall key ensures key in Prefixed(m) <==> key in Prefixed(r) {
        if PREFIX <= key { assert SameLabel(m, r, key); }
      }
      assert Prefixed(m).Keys == Prefixed(r).Keys;
      forall key | key in Prefixed(m) ensures Prefixed(m)[key] == Prefixed(r)[key] {
        assert SameLabel(m, r, key);
      }
    } else {
      var key :| PREFIX <= key && !SameLabel(m, r, key);
      assert key in Prefixed(m) <==> key in m;
      assert key in Prefixed(r) <==> key in r;
    }
  }

  /** The StatefulSet is as the resource asks, field by field. */
  ghost predicate AsWanted(m: Manifest, k: Wanted) {
    && m.image == k.image && m.port == k.port
    && (forall x: Scalar :: ScalarAsWanted(x, At(m.scalars, x), At(k.scalars, x)))
    && (m.wiring.init.Some? ==> m.endpoint == k.endpoint)
    && SamePrefixed(m.labels, k.labels) && SamePrefixed(m.annotations, k.annotations)
    && ConfigWired(m.wiring, k.config, k.configMap)
    && Matches(Custom(VolumeName, m.wiring.volumes), k.volumes)
    && Matches(Custom(MountName, m.wiring.mounts), k.mounts)
    && (m.wiring.init.Some? ==> Matches(Custom(MountName, m.wiring.init.value), k.mounts))
  }

  lemma CleanOf(e: Enforcer, m: Manifest, k: Wanted)
    ensures !Differs(e, m, k) <==>
              match e
              case Image => m.image == k.image
              case Port => m.port == k.port
              case StorageSize => true
              case Config => ConfigWired(m.wiring, k.config, k.configMap)
              case Field(x) => ScalarAsWanted(x, At(m.scalars, x), At(k.scalars, x))
              case Volumes =>
                && Matches(Custom(VolumeName, m.wiring.volumes), k.volumes)
                && Matches(Custom(MountName, m.wiring.mounts), k.mounts)
                && (m.wiring.init.Some? ==> Matches(Custom(MountName, m.wiring.init.value), k.mounts))
              case CustomMetadata => SamePrefixed(m.labels, k.labels) && SamePrefixed(m.annotations, k.annotations)
              case Endpoint => m.wiring.init.Some? ==> m.endpoint == k.endpoint
  {
    ConfigWiredMeans(m.wiring, k.config, k.configMap);
    SamePrefixedMeans(m.labels, k.labels);
    SamePrefixedMeans(m.annotations, k.annotations);
  }

  /** The checks are all clean if and only if the StatefulSet is as the resource asks. */
  lemma CleanMeans(m: Manifest, k: Wanted)
    ensures Clean(m, k) <==> AsWanted(m, k)
  {
    forall e: Enforcer ensures e in REGISTRY {
      RegistryPositions(e);
    }
    if Clean(m, k) {
      forall x: Scalar ensures ScalarAsWanted(x, At(m.scalars, x), At(k.scalars, x)) {
        CleanOf(Field(x), m, k);
      }
      CleanOf(Image, m, k);
      CleanOf(Port, m, k);
      CleanOf(Config, m, k);
      CleanOf(Volumes, m, k);
      CleanOf(CustomMetadata, m, k);
      CleanOf(Endpoint, m, k);
    } else {
      var e :| e in REGISTRY && Differs(e, m, k);
      CleanOf(e, m, k);
    }
  }

  /** The prefixed entries of the resource are put in; all others stay as they are. */
  ghost predicate Overlaid(m: Metadata, from: Metadata, r: Metadata) {
    forall key :: if PREFIX <= key && key in from then key in r && r[key] == from[key] else SameLabel(m, r, key)
  }

  /** What a pass over `m` leaves in `r`, field by field. The image of the init container and the
      metadata of the pod follow only where the check of the image or of the metadata finds a
      difference. */
  ghost predicate PassWrites(m: Manifest, k: Wanted, r: Manifest) {
    && r.image == k.image && r.port == k.port
    && r.initImage == (if m.image != k.image && m.wiring.init.Some? then k.image else m.initImage)
    && r.endpoint == (if m.wiring.init.Some? then k.endpoint else m.endpoint)
    && (forall x: Scalar ::
          At(r.scalars, x) == if ScalarAsWanted(x, At(m.scalars, x), At(k.scalars, x)) then At(m.scalars, x)
                              else At(k.scalars, x))
    && Overlaid(m.labels, k.labels, r.labels) && Overlaid(m.annotations, k.annotations, r.annotations)
    && (if SamePrefixed(m.labels, k.labels) && SamePrefixed(m.annotations, k.annotations)
        then r.podLabels == m.podLabels && r.podAnnotations == m.podAnnotations
        else Overlaid(m.podLabels, k.labels, r.podLabels)
             && Overlaid(m.podAnnotations, k.annotations, r.podAnnotations))
  }

  lemma MergedIsOverlaid(m: Metadata, from: Metadata)
    ensures Overlaid(m, from, Merged(m, Prefixed(from)))
    ensures SamePrefixed(m, from) ==> Overlaid(m, from, m)
  {
    forall key | SamePrefixed(m, from) && PREFIX <= key && key in from ensures key in m && m[key] == from[key] {
      assert SameLabel(m, from, key);
    }
  }

  lemma MetadataWritten(m: Manifest, k: Wanted)
    ensures var r := Rewritten(m, k);
            && Overlaid(m.labels, k.labels, r.labels) && Overlaid(m.annotations, k.annotations, r.annotations)
            && (if SamePrefixed(m.labels, k.labels) && SamePrefixed(m.annotations, k.annotations)
                then r.podLabels == m.podLabels && r.podAnnotations == m.podAnnotations
                else Overlaid(m.podLabels, k.labels, r.podLabels)
                     && Overlaid(m.podAnnotations, k.annotations, r.podAnnotations))
  {
    var before := AloneInPass(CustomMetadata, m, k);
    CleanOf(CustomMetadata, m, k);
    MergedIsOverlaid(m.labels, k.labels);
    MergedIsOverlaid(m.annotations, k.annotations);
    MergedIsOverlaid(m.podLabels, k.labels);
    MergedIsOverlaid(m.podAnnotations, k.annotations);
  }

  lemma SinglesWritten(m: Manifest, k: Wanted)
    ensures var r := Rewritten(m, k);
            && r.image == k.image && r.port == k.port
            && r.initImage == (if m.image != k.image && m.wiring.init.Some? then k.image else m.initImage)
            && r.endpoint == (if m.wiring.init.Some? then k.endpoint else m.endpoint)
  {
    var _ := AloneInPass(Image, m, k);
    var _ := AloneInPass(Port, m, k);
    var _ := AloneInPass(Endpoint, m, k);
  }

  lemma ScalarWritten(x: Scalar, m: Manifest, k: Wanted)
    ensures At(Rewritten(m, k).scalars, x)
            == if ScalarAsWanted(x, At(m.scalars, x), At(k.scalars, x)) then At(m.scalars, x) else At(k.scalars, x)
  {
    var before := AloneInPass(Field(x), m, k);
    CleanOf(Field(x), before, k);
  }

  /** What one pass of the registry leaves in the fields, whatever it finds. */
  lemma PassWritesFields(m: Manifest, k: Wanted)
    ensures PassWrites(m, k, Rewritten(m, k))
  {
    SinglesWritten(m, k);
    MetadataWritten(m, k);
    forall x: Scalar ensures
        At(Rewritten(m, k).scalars, x)
        == if ScalarAsWanted(x, At(m.scalars, x), At(k.scalars, x)) then At(m.scalars, x) else At(k.scalars, x)
    {
      ScalarWritten(x, m, k);
    }
  }

  /** What a pass leaves of the volumes: every one that the resource asks for is there, and so is
      every one of the operator's own other than the custom configuration. */
  lemma PassVolumes(m: Manifest, k: Wanted, v: Volume)
    requires v in k.volumes || (v in m.wiring.volumes && Reserved(v.name) && v.name != CUSTOM_CONFIG_VOLUME)
    ensures v in Rewritten(m, k).wiring.volumes
  {
    WiringAfter(m, k);
    var w := Configured(m.wiring, k.config, k.configMap);
    if v in k.volumes {
      assert v in Custom(VolumeName, w.volumes) || v in Owned(VolumeName, w.volumes) + k.volumes;
    } else {
      assert v in Without(m.wiring.volumes, CUSTOM_CONFIG_VOLUME);
      assert v in w.volumes && VolumeName(v) == v.name;
      assert v in Owned(VolumeName, w.volumes);
    }
  }

  /** A mount after the configuration was wired. */
  function AsWired(m: Mount, l: Locations): (r: Mount)
  {
    if m.subPath in MANAGED_KEYS then m.(name := l.At(m.subPath)) else m
  }

  lemma MountsKept(mounts: seq<Mount>, k: Wanted, m: Mount)
    requires m in mounts && Reserved(AsWired(m, k.config.locations).name)
    ensures var r := AsWired(m, k.config.locations); var w := Wired(mounts, k.config.locations);
            r in w && r in MountsReplaced(w, k.mounts)
  {
    var i :| 0 <= i < |mounts| && mounts[i] == m;
    var r, w := AsWired(m, k.config.locations), Wired(mounts, k.config.locations);
    assert w[i] == r && MountName(r) == r.name;
  }

  lemma MountsAdded(mounts: seq<Mount>, k: Wanted, m: Mount)
    requires m in k.mounts && mounts != []
    ensures var w := Wired(mounts, k.config.locations);
            (Matches(Custom(MountName, w), k.mounts) ==> m in w) && m in MountsReplaced(w, k.mounts)
  {
  }

  /** What a pass leaves of the mounts of a container: the operator's own, wired, are all there,
      and so is every one that the resource asks for if there was any mount before. */
  lemma PassMounts(m: Manifest, k: Wanted, mount: Mount)
    ensures var r, l := Rewritten(m, k).wiring, k.config.locations;
            && (mount in m.wiring.mounts && Reserved(AsWired(mount, l).name) ==> AsWired(mount, l) in r.mounts)
            && (mount in k.mounts && m.wiring.mounts != [] ==> mount in r.mounts)
            && r.init.Some? == m.wiring.init.Some?
            && (r.init.Some? ==>
                  && (mount in m.wiring.init.value && Reserved(AsWired(mount, l).name) ==>
                        AsWired(mount, l) in r.init.value)
                  && (mount in k.mounts && m.wiring.init.value != [] ==> mount in r.init.value))
  {
    WiringAfter(m, k);
    ContainerMountsLeft(m.wiring.mounts, k, mount);
    if m.wiring.init.Some? {
      ContainerMountsLeft(m.wiring.init.value, k, mount);
    }
  }

  lemma ContainerMountsLeft(mounts: seq<Mount>, k: Wanted, m: Mount)
    ensures var w, l := Wired(mounts, k.config.locations), k.config.locations;
            && (m in mounts && Reserved(AsWired(m, l).name) ==>
                  AsWired(m, l) in w && AsWired(m, l) in MountsReplaced(w, k.mounts))
            && (m in k.mounts && mounts != [] ==>
                  m in MountsReplaced(w, k.mounts) && (Matches(Custom(MountName, w), k.mounts) ==> m in w))
  {
    if m in mounts && Reserved(AsWired(m, k.config.locations).name) {
      MountsKept(mounts, k, m);
    }
    if m in k.mounts && mounts != [] {
      MountsAdded(mounts, k, m);
    }
  }

  lemma OwnedResolve(mounts: seq<Mount>, volumes: seq<Volume>, k: Wanted)
    requires NoneManaged(k.mounts)
    requires forall m :: m in mounts && m.subPath in MANAGED_KEYS ==> HasVolume(volumes, m.name) && Reserved(m.name)
    ensures MountsResolve(MountsReplaced(mounts, k.mounts), Owned(VolumeName, volumes) + k.volumes)
  {
    var all := Owned(VolumeName, volumes) + k.volumes;
    forall m | m in MountsReplaced(mounts, k.mounts) && m.subPath in MANAGED_KEYS ensures HasVolume(all, m.name) {
      assert m in mounts;
      var v :| v in volumes && v.name == m.name;
      assert VolumeName(v) == v.name && v in all;
    }
  }

  lemma ManagedReserved(mounts: seq<Mount>, s: ConfigStates)
    requires Consistent(s)
    ensures forall m :: m in Wired(mounts, s.locations) && m.subPath in MANAGED_KEYS ==> Reserved(m.name)
  {
    forall m | m in Wired(mounts, s.locations) && m.subPath in MANAGED_KEYS ensures Reserved(m.name) {
      var i :| 0 <= i < |mounts| && Wired(mounts, s.locations)[i] == m;
      assert m.name == s.locations.At(m.subPath) && !m.subPath.OtherKey?;
    }
  }

  /** After a whole pass every mount of a managed configuration file names a volume of the
      template, whatever the StatefulSet looked like before. */
  lemma PassMountsResolve(m: Manifest, k: Wanted)
    requires Consistent(k.config) && HasVolume(m.wiring.volumes, BASE_CONFIG_VOLUME) && NoneManaged(k.mounts)
    ensures var r := Rewritten(m, k).wiring;
            MountsResolve(r.mounts, r.volumes) && (r.init.Some? ==> MountsResolve(r.init.value, r.volumes))
  {
    WiringAfter(m, k);
    var w := Configured(m.wiring, k.config, k.configMap);
    ConfiguredMountsResolve(m.wiring, k.config, k.configMap);
    if VolumesDiffer(w, k.volumes, k.mounts) {
      ManagedReserved(m.wiring.mounts, k.config);
      OwnedResolve(w.mounts, w.volumes, k);
      if w.init.Some? {
        ManagedReserved(m.wiring.init.value, k.config);
        OwnedResolve(w.init.value, w.volumes, k);
      }
    }
  }
}
