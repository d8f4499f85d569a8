/** Where each configuration file comes from, and how a pod template is wired to it. */
module CustomConfig {
  import opened Resources
  import opened VolumeLists

  const BASE_CONFIG_MAP := "base-kubegres-config"

  /** A key of a configuration map, which is also the sub-path of its mount: the seven files
      the operator knows (`postgres.conf`, `primary_init_script.sh`, `pg_hba.conf`,
      `backup_database.sh`, `copy_primary_data_to_replica.sh`,
      `primary_create_replication_role.sh`, `promote_replica_to_primary.sh`), or another. */
  datatype Key =
    | PostgresConf
    | PrimaryInitScript
    | PgHbaConf
    | BackUpScript
    | CopyPrimaryData
    | CreateReplicationRole
    | PromoteScript
    | OtherKey(text: string)

  datatype ConfigMap = ConfigMap(name: string, data: map<Key, string>)

  /** A missing key reads as the empty text. */
  function Entry(m: ConfigMap, key: Key): (v: string)
  {
    if key in m.data then m.data[key] else ""
  }

  datatype Locations = Locations(
    postgresConf: string,
    primaryInitScript: string,
    backUpScript: string,
    pgHbaConf: string,
    copyPrimaryData: string,
    createReplicationRole: string,
    promoteScript: string)
  {
    function At(key: Key): (volume: string)
    {
      match key
      case PostgresConf => postgresConf
      case PrimaryInitScript => primaryInitScript
      case PgHbaConf => pgHbaConf
      case BackUpScript => backUpScript
      case CopyPrimaryData => copyPrimaryData
      case CreateReplicationRole => createReplicationRole
      case PromoteScript => promoteScript
      case OtherKey(_) => BASE_CONFIG_VOLUME
    }
  }

  /** `customDeployed` says that the map named in the specification exists and is not the
      base map. */
  datatype ConfigStates = ConfigStates(baseDeployed: bool, customDeployed: bool, locations: Locations)

  predicate UsesCustom(customName: string, custom: ConfigMap) {
    customName != BASE_CONFIG_MAP && custom.name != "" && custom.name != BASE_CONFIG_MAP
  }

  const BASE_LOCATIONS := Locations(
    BASE_CONFIG_VOLUME, BASE_CONFIG_VOLUME, BASE_CONFIG_VOLUME, BASE_CONFIG_VOLUME,
    BASE_CONFIG_VOLUME, BASE_CONFIG_VOLUME, BASE_CONFIG_VOLUME)

  /** The custom map has a text for the key. */
  predicate Overrides(custom: ConfigMap, key: Key) {
    key in custom.data && custom.data[key] != ""
  }

  /** One location overwritten. */
  function Overwritten(l: Locations, key: Key, volume: string): (r: Locations)
    ensures forall k: Key :: !k.OtherKey? ==> r.At(k) == if k == key then volume else l.At(k)
  {
    match key
    case PostgresConf => l.(postgresConf := volume)
    case PrimaryInitScript => l.(primaryInitScript := volume)
    case PgHbaConf => l.(pgHbaConf := volume)
    case BackUpScript => l.(backUpScript := volume)
    case CopyPrimaryData => l.(copyPrimaryData := volume)
    case CreateReplicationRole => l.(createReplicationRole := volume)
    case PromoteScript => l.(promoteScript := volume)
    case OtherKey(_) => l
  }

  method Override(l: Locations, custom: ConfigMap, key: Key) returns (r: Locations)
    requires !key.OtherKey?
    ensures forall k: Key :: !k.OtherKey? ==>
              r.At(k) == if k == key && Overrides(custom, key) then CUSTOM_CONFIG_VOLUME else l.At(k)
  {
    r := l;
    if Entry(custom, key) != "" {
      r := Overwritten(l, key, CUSTOM_CONFIG_VOLUME);
    }
  }

  method LocationsIn(custom: ConfigMap) returns (l: Locations)
    ensures forall key: Key :: !key.OtherKey? ==>
              l.At(key) == if Overrides(custom, key) then CUSTOM_CONFIG_VOLUME else BASE_CONFIG_VOLUME
  {
    l := BASE_LOCATIONS;
    l := Override(l, custom, PostgresConf);
    l := Override(l, custom, PrimaryInitScript);
    l := Override(l, custom, BackUpScript);
    l := Override(l, custom, PgHbaConf);
    l := Override(l, custom, CopyPrimaryData);
    l := Override(l, custom, CreateReplicationRole);
    l := Override(l, custom, PromoteScript);
  }

  /** A lookup that finds no map yields one without a name. Each key comes from the custom map
      exactly when that map is in use and has a text for it. */
  method LoadConfigStates(base: ConfigMap, customName: string, custom: ConfigMap) returns (s: ConfigStates)
    ensures s.baseDeployed == (base.name == BASE_CONFIG_MAP)
    ensures s.customDeployed == UsesCustom(customName, custom) && Consistent(s)
    ensures forall key: Key :: !key.OtherKey? ==>
              && (s.locations.At(key) == CUSTOM_CONFIG_VOLUME <==>
                    UsesCustom(customName, custom) && key in custom.data && custom.data[key] != "")
              && (s.locations.At(key) != CUSTOM_CONFIG_VOLUME ==> s.locations.At(key) == BASE_CONFIG_VOLUME)
  {
    s := ConfigStates(base.name == BASE_CONFIG_MAP, false, BASE_LOCATIONS);
    if customName == BASE_CONFIG_MAP {
      return;
    }
    if custom.name != "" && custom.name != BASE_CONFIG_MAP {
      var l := LocationsIn(custom);
      s := s.(customDeployed := true, locations := l);
    }
  }

  /** What loading establishes: the custom volume is referred to only when it is in use. */
  ghost predicate Consistent(s: ConfigStates) {
    forall key: Key :: !key.OtherKey? ==>
      || s.locations.At(key) == BASE_CONFIG_VOLUME
      || (s.customDeployed && s.locations.At(key) == CUSTOM_CONFIG_VOLUME)
  }

  // ---------- The pod template ----------

  /** `configMap` is the name of the mounted configuration map, empty for other volumes. */
  datatype Volume = Volume(name: string, configMap: string, details: string)

  datatype Mount = Mount(name: string, path: string, subPath: Key)

  /** The part of a pod template that configuration and volumes are about; `init` holds the
      mounts of the init container if there is one. */
  datatype Wiring = Wiring(volumes: seq<Volume>, mounts: seq<Mount>, init: Option<seq<Mount>>)

  /** One rename loop. */
  function Renamed(mounts: seq<Mount>, key: Key, volume: string): (r: seq<Mount>)
    ensures |r| == |mounts|
    ensures forall i :: 0 <= i < |mounts| ==>
              r[i] == if mounts[i].subPath == key then mounts[i].(name := volume) else mounts[i]
  {
    seq(|mounts|, i requires 0 <= i < |mounts| =>
      if mounts[i].subPath == key then mounts[i].(name := volume) else mounts[i])
  }

  /** The keys whose mounts are kept up to date. The promotion script is mounted by the failover
      only, the back-up script by the back-up job only. */
  const MANAGED_KEYS := {PostgresConf, PrimaryInitScript, PgHbaConf, CopyPrimaryData, CreateReplicationRole}

  /** The mounts of all managed keys renamed. */
  function Wired(mounts: seq<Mount>, l: Locations): (r: seq<Mount>)
  {
    WiredFor(mounts, l, MANAGED_KEYS)
  }

  function FirstNamed(volumes: seq<Volume>, name: string): (r: Option<Volume>)
    ensures r.Some? ==> r.value in volumes && r.value.name == name
    ensures r.None? ==> forall v :: v in volumes ==> v.name != name
  {
    if volumes == [] then None
    else if volumes[0].name == name then Some(volumes[0])
    else FirstNamed(volumes[1..], name)
  }

  function Without(volumes: seq<Volume>, name: string): (r: seq<Volume>)
    ensures forall v :: v in r <==> v in volumes && v.name != name
  {
    if volumes == [] then []
    else Without(volumes[..|volumes| - 1], name)
         + if volumes[|volumes| - 1].name == name then [] else [volumes[|volumes| - 1]]
  }

  function NewConfigVolume(configMap: string): (v: Volume)
  {
    Volume(CUSTOM_CONFIG_VOLUME, configMap, "0777")
  }

  function ConfiguredVolumes(volumes: seq<Volume>, customDeployed: bool, configMap: string): (r: seq<Volume>)
  {
    var v := FirstNamed(volumes, CUSTOM_CONFIG_VOLUME);
    if customDeployed then
      if v.None? then volumes + [NewConfigVolume(configMap)]
      else if v.value.configMap != configMap then Without(volumes, CUSTOM_CONFIG_VOLUME) + [NewConfigVolume(configMap)]
      else volumes
    else if v.Some? then Without(volumes, CUSTOM_CONFIG_VOLUME)
    else volumes
  }

  function Configured(w: Wiring, s: ConfigStates, configMap: string): (r: Wiring)
  {
    Wiring(ConfiguredVolumes(w.volumes, s.customDeployed, configMap),
           Wired(w.mounts, s.locations),
           if w.init.Some? then Some(Wired(w.init.value, s.locations)) else None)
  }

  class PodTemplate {
    var volumes: seq<Volume>
    var mounts: seq<Mount>
    var init: Option<seq<Mount>>

    constructor (w: Wiring)
      ensures Contents() == w
    {
      volumes, mounts, init := w.volumes, w.mounts, w.init;
    }

    function Contents(): (w: Wiring)
      reads this
    {
      Wiring(volumes, mounts, init)
    }

    /** Renames the mounts of a key, and says whether any name was another one. */
    method RenameMounts(volume: string, key: Key) returns (updated: bool)
      modifies this
      ensures volumes == old(volumes) && mounts == Renamed(old(mounts), key, volume)
      ensures init == if old(init).Some? then Some(Renamed(old(init).value, key, volume)) else None
      ensures updated <==> Contents() != old(Contents())
    {
      var changedMounts, changedInit := false, false;
      mounts, changedMounts := RenameIn(mounts, key, volume);
      if init.Some? {
        var m;
        m, changedInit := RenameIn(init.value, key, volume);
        init := Some(m);
      }
      return changedMounts || changedInit;
    }

    method DeleteCustomVolume()
      modifies this
      ensures volumes == Without(old(volumes), CUSTOM_CONFIG_VOLUME)
      ensures mounts == old(mounts) && init == old(init)
    {
      var kept := [];
      for i := 0 to |volumes|
        invariant volumes == old(volumes) && mounts == old(mounts) && init == old(init)
        invariant kept == Without(volumes[..i], CUSTOM_CONFIG_VOLUME)
      {
        assert volumes[..i + 1][..i] == volumes[..i];
        if volumes[i].name != CUSTOM_CONFIG_VOLUME {
          kept := kept + [volumes[i]];
        }
      }
      assert volumes[..|volumes|] == volumes;
      volumes := kept;
    }

    method ConfigureVolumes(customDeployed: bool, configMap: string) returns (changed: bool)
      modifies this
      ensures volumes == ConfiguredVolumes(old(volumes), customDeployed, configMap)
      ensures mounts == old(mounts) && init == old(init)
      ensures changed <==> Contents() != old(Contents())
    {
      VolumesChanged(volumes, customDeployed, configMap);
      var v := FirstNamed(volumes, CUSTOM_CONFIG_VOLUME);
      if customDeployed {
        if v.None? || v.value.configMap != configMap {
          if v.Some? {
            DeleteCustomVolume();
          }
          volumes := volumes + [NewConfigVolume(configMap)];
          return true;
        }
      } else if v.Some? {
        DeleteCustomVolume();
        return true;
      }
      return false;
    }

    /** The mounts of the keys in `done` are wired, nothing else has changed since `w`. */
    ghost predicate Partly(w: Wiring, l: Locations, done: set<Key>)
      reads this
    {
      && volumes == w.volumes && mounts == WiredFor(w.mounts, l, done)
      && init == if w.init.Some? then Some(WiredFor(w.init.value, l, done)) else None
    }

    method UpdateMounts(l: Locations, key: Key, sofar: bool, ghost w: Wiring, ghost done: set<Key>)
      returns (changed: bool)
      requires Partly(w, l, done) && key !in done && (sofar <==> Contents() != w)
      modifies this
      ensures Partly(w, l, done + {key}) && (changed <==> Contents() != w)
    {
      OneMoreKey(w.mounts, l, done, key);
      if init.Some? {
        OneMoreKey(w.init.value, l, done, key);
      }
      changed := RenameMounts(l.At(key), key);
      changed := changed || sofar;
    }

    method ConfigureMounts(l: Locations) returns (changed: bool)
      modifies this
      ensures volumes == old(volumes) && mounts == Wired(old(mounts), l)
      ensures init == if old(init).Some? then Some(Wired(old(init).value, l)) else None
      ensures changed <==> Contents() != old(Contents())
    {
      ghost var w, none := Contents(), {};
      changed := UpdateMounts(l, PostgresConf, false, w, none);
      ghost var one := none + {PostgresConf};
      changed := UpdateMounts(l, PrimaryInitScript, changed, w, one);
      ghost var two := one + {PrimaryInitScript};
      changed := UpdateMounts(l, PgHbaConf, changed, w, two);
      ghost var three := two + {PgHbaConf};
      changed := UpdateMounts(l, CopyPrimaryData, changed, w, three);
      ghost var four := three + {CopyPrimaryData};
      changed := UpdateMounts(l, CreateReplicationRole, changed, w, four);
      assert four + {CreateReplicationRole} == MANAGED_KEYS;
    }

    /** Wires the template to the configuration; says whether anything changed. */
    method Configure(s: ConfigStates, configMap: string) returns (changed: bool)
      modifies this
      ensures Contents() == Configured(old(Contents()), s, configMap)
      ensures changed <==> Contents() != old(Contents())
    {
      changed := ConfigureMounts(s.locations);
      var c := ConfigureVolumes(s.customDeployed, configMap);
      changed := changed || c;
    }
  }

  /** The mounts of some keys renamed. */
  function WiredFor(mounts: seq<Mount>, l: Locations, keys: set<Key>): (r: seq<Mount>)
    ensures |r| == |mounts|
    ensures forall i :: 0 <= i < |mounts| ==>
              r[i] == if mounts[i].subPath in keys then mounts[i].(name := l.At(mounts[i].subPath)) else mounts[i]
    ensures keys == {} ==> r == mounts
  {
    seq(|mounts|, i requires 0 <= i < |mounts| =>
      if mounts[i].subPath in keys then mounts[i].(name := l.At(mounts[i].subPath)) else mounts[i])
  }

  /** Different keys concern different mounts, so that no rename undoes another. */
  lemma OneMoreKey(mounts: seq<Mount>, l: Locations, keys: set<Key>, key: Key)
    requires key !in keys
    ensures var r := WiredFor(mounts, l, keys);
            && Renamed(r, key, l.At(key)) == WiredFor(mounts, l, keys + {key})
            && (WiredFor(mounts, l, keys + {key}) == mounts <==> r == mounts && Renamed(r, key, l.At(key)) == r)
  {
    var r, r' := WiredFor(mounts, l, keys), WiredFor(mounts, l, keys + {key});
    assert Renamed(r, key, l.At(key)) == r';
    if r' == mounts {
      forall i | 0 <= i < |mounts| ensures r[i] == mounts[i] {
        assert r'[i] == mounts[i];
      }
      assert r == mounts;
    }
  }

  method RenameIn(mounts: seq<Mount>, key: Key, volume: string) returns (r: seq<Mount>, updated: bool)
    ensures r == Renamed(mounts, key, volume)
    ensures updated <==> r != mounts
  {
    r, updated := mounts, false;
    for i := 0 to |mounts|
      invariant |r| == |mounts| && r[i..] == mounts[i..]
      invariant forall j :: 0 <= j < i ==> r[j] == Renamed(mounts, key, volume)[j]
      invariant updated <==> r[..i] != mounts[..i]
    {
      assert r[..i + 1] == r[..i] + [r[i]] && mounts[..i + 1] == mounts[..i] + [mounts[i]];
      assert r[i] == mounts[i];
      if r[i].subPath == key && r[i].name != volume {
        r := r[i := r[i].(name := volume)];
        updated := true;
        assert r[i] != mounts[i];
      }
    }
    assert r[..|r|] == r && mounts[..|r|] == mounts;
  }

  /** The volumes change exactly when the custom volume is missing, stale or no longer used. */
  lemma VolumesChanged(volumes: seq<Volume>, customDeployed: bool, configMap: string)
    ensures var v := FirstNamed(volumes, CUSTOM_CONFIG_VOLUME);
            ConfiguredVolumes(volumes, customDeployed, configMap) != volumes <==>
              if customDeployed then v.None? || v.value.configMap != configMap else v.Some?
  {
    var v, r := FirstNamed(volumes, CUSTOM_CONFIG_VOLUME), ConfiguredVolumes(volumes, customDeployed, configMap);
    if v.Some? {
      assert v.value in volumes;
      if r != volumes && !customDeployed {
        assert v.value !in r;
      }
      if customDeployed && v.value.configMap != configMap {
        assert v.value !in Without(volumes, CUSTOM_CONFIG_VOLUME);
        assert v.value !in r;
      }
    } else if customDeployed {
      assert |r| == |volumes| + 1;
    }
  }

  // ---------- What configuring achieves ----------

  lemma WiredTwice(mounts: seq<Mount>, l: Locations)
    ensures Wired(Wired(mounts, l), l) == Wired(mounts, l)
  {
  }

  lemma {:induction false} FirstInAppended(volumes: seq<Volume>, v: Volume, name: string)
    requires forall x :: x in volumes ==> x.name != name
    requires v.name == name
    ensures FirstNamed(volumes + [v], name) == Some(v)
  {
    if volumes != [] {
      assert volumes[0] in volumes;
      assert (volumes + [v])[1..] == volumes[1..] + [v];
      FirstInAppended(volumes[1..], v, name);
    }
  }

  /** After configuring, the custom volume is there exactly when it is in use, and right. */
  lemma CustomVolumeAfter(volumes: seq<Volume>, customDeployed: bool, configMap: string)
    ensures var v := FirstNamed(ConfiguredVolumes(volumes, customDeployed, configMap), CUSTOM_CONFIG_VOLUME);
            if customDeployed then v.Some? && v.value.configMap == configMap else v.None?
  {
    var v := FirstNamed(volumes, CUSTOM_CONFIG_VOLUME);
    if customDeployed && (v.None? || v.value.configMap != configMap) {
      var kept := if v.None? then volumes else Without(volumes, CUSTOM_CONFIG_VOLUME);
      FirstInAppended(kept, NewConfigVolume(configMap), CUSTOM_CONFIG_VOLUME);
    }
  }

  /** Configuring twice is configuring once: the second call reports no change. */
  lemma ConfigureIdempotent(w: Wiring, s: ConfigStates, configMap: string)
    ensures Configured(Configured(w, s, configMap), s, configMap) == Configured(w, s, configMap)
  {
    var r := Configured(w, s, configMap);
    WiredTwice(w.mounts, s.locations);
    if w.init.Some? {
      WiredTwice(w.init.value, s.locations);
    }
    CustomVolumeAfter(w.volumes, s.customDeployed, configMap);
    VolumesChanged(r.volumes, s.customDeployed, configMap);
  }

  predicate HasVolume(volumes: seq<Volume>, name: string) {
    exists v :: v in volumes && v.name == name
  }

  /** Every mount of a managed key names a volume of the template. */
  ghost predicate MountsResolve(mounts: seq<Mount>, volumes: seq<Volume>) {
    forall m :: m in mounts && m.subPath in MANAGED_KEYS ==> HasVolume(volumes, m.name)
  }

  lemma BaseVolumeStays(volumes: seq<Volume>, customDeployed: bool, configMap: string)
    requires HasVolume(volumes, BASE_CONFIG_VOLUME)
    ensures HasVolume(ConfiguredVolumes(volumes, customDeployed, configMap), BASE_CONFIG_VOLUME)
  {
    var v :| v in volumes && v.name == BASE_CONFIG_VOLUME;
    assert BASE_CONFIG_VOLUME != CUSTOM_CONFIG_VOLUME;
    assert v in Without(volumes, CUSTOM_CONFIG_VOLUME);
    assert v in ConfiguredVolumes(volumes, customDeployed, configMap);
  }

  lemma WiredResolve(mounts: seq<Mount>, volumes: seq<Volume>, s: ConfigStates)
    requires Consistent(s) && HasVolume(volumes, BASE_CONFIG_VOLUME)
    requires s.customDeployed ==> HasVolume(volumes, CUSTOM_CONFIG_VOLUME)
    ensures MountsResolve(Wired(mounts, s.locations), volumes)
  {
    forall m | m in Wired(mounts, s.locations) && m.subPath in MANAGED_KEYS ensures HasVolume(volumes, m.name) {
      var i :| 0 <= i < |mounts| && Wired(mounts, s.locations)[i] == m;
      assert m.name == s.locations.At(m.subPath) && !m.subPath.OtherKey?;
    }
  }

  /** Given a base volume, after configuring every mount of a managed key, in the container
      and in the init container, names a volume that the template has. */
  lemma ConfiguredMountsResolve(w: Wiring, s: ConfigStates, configMap: string)
    requires Consistent(s) && HasVolume(w.volumes, BASE_CONFIG_VOLUME)
    ensures var r := Configured(w, s, configMap);
            MountsResolve(r.mounts, r.volumes) && (r.init.Some? ==> MountsResolve(r.init.value, r.volumes))
  {
    var r := Configured(w, s, configMap);
    BaseVolumeStays(w.volumes, s.customDeployed, configMap);
    CustomVolumeAfter(w.volumes, s.customDeployed, configMap);
    if s.customDeployed {
      assert FirstNamed(r.volumes, CUSTOM_CONFIG_VOLUME).value in r.volumes;
    }
    WiredResolve(w.mounts, r.volumes, s);
    if w.init.Some? {
      WiredResolve(w.init.value, r.volumes, s);
    }
  }
}
