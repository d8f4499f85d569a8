/** StatefulSets built from the templates, and their agreement with the enforcers. */
module Creation {
  import opened Resources
  import opened VolumeLists
  import opened CustomConfig
  import opened SpecRegistry
  import opened Convergence
  import opened StateLoading

  /** What the creator takes from the resource besides what the enforcers compare. */
  datatype Resource = Resource(name: string, databaseMount: string, wanted: Wanted)

  const INTERNAL_ANNOTATION := "kubectl.kubernetes.io/last-applied-configuration"

  function CopiedAnnotations(m: Metadata): (r: Metadata)
    ensures r.Keys == m.Keys - {INTERNAL_ANNOTATION} && forall k :: k in r ==> r[k] == m[k]
    ensures Prefixed(r) == Prefixed(m)
  {
    assert INTERNAL_ANNOTATION[4] == 'c' && PREFIX[4] == 'g';
    map k | k in m && k != INTERNAL_ANNOTATION :: m[k]
  }

  function TemplateVolumes(): (v: seq<Volume>)
  {
    [Volume(BASE_CONFIG_VOLUME, BASE_CONFIG_MAP, "0777"), Volume(CUSTOM_CONFIG_VOLUME, "toBeReplaced", "0777")]
  }

  function TemplateMounts(role: Role, databaseMount: string): (m: seq<Mount>)
  {
    var db := Mount(DATABASE_VOLUME, databaseMount, OtherKey(""));
    var conf := Mount(BASE_CONFIG_VOLUME, "/etc/postgres.conf", PostgresConf);
    var hba := Mount(BASE_CONFIG_VOLUME, "/etc/pg_hba.conf", PgHbaConf);
    match role
    case Primary =>
      [db,
       Mount(BASE_CONFIG_VOLUME, "/docker-entrypoint-initdb.d/primary_create_replication_role.sh",
             CreateReplicationRole),
       conf,
       Mount(BASE_CONFIG_VOLUME, "/docker-entrypoint-initdb.d/primary_init_script.sh", PrimaryInitScript),
       hba]
    case Replica => [db, conf, hba]
  }

  function TemplateInitMounts(databaseMount: string): (m: seq<Mount>)
  {
    [Mount(DATABASE_VOLUME, databaseMount, OtherKey("")),
     Mount(BASE_CONFIG_VOLUME, "/tmp/copy_primary_data_to_replica.sh", CopyPrimaryData)]
  }

  function RoleName(role: Role): (s: string)
  {
    match role
    case Primary => "primary"
    case Replica => "replica"
  }

  function Labels(r: Resource, role: Role, i: nat): (m: Metadata)
  {
    map["app" := r.name, "index" := IndexLabel(i), "replicationRole" := RoleName(role)]
  }

  /** The probes that the templates bring along. */
  function TemplateScalars(): (s: Scalars)
  {
    map[LivenessProbe := "pg_isready 60 20 15 10", ReadinessProbe := "pg_isready 5 10 3 3"]
  }

  /** A scalar of the resource replaces the one of the template when it is set. */
  function CreatedScalars(k: Wanted): (s: Scalars)
    ensures forall x :: At(s, x) == if At(k.scalars, x).Some? then At(k.scalars, x) else At(TemplateScalars(), x)
  {
    TemplateScalars() + k.scalars
  }

  function CreatedWiring(r: Resource, role: Role): (w: Wiring)
  {
    var k := r.wanted;
    Wiring(TemplateVolumes() + k.volumes,
           TemplateMounts(role, r.databaseMount) + k.mounts,
           if role.Replica? then Some(TemplateInitMounts(r.databaseMount) + k.mounts) else None)
  }

  /** The StatefulSet of instance `i` as it is sent to the API. */
  function Created(r: Resource, role: Role, i: nat): (m: Manifest)
  {
    var k := r.wanted;
    var annotations := CopiedAnnotations(k.annotations);
    Manifest(Labels(r, role, i), annotations, Labels(r, role, i), annotations,
             k.image, k.image, k.port, CreatedScalars(k),
             Configured(CreatedWiring(r, role), k.config, k.configMap), k.endpoint)
  }

  /** Sets the scalars in `xs` that the resource asks for. */
  method SetWanted(s: Scalars, k: Wanted, xs: seq<Scalar>) returns (r: Scalars)
    ensures forall x :: At(r, x) == if x in xs && x in k.scalars then Some(k.scalars[x]) else At(s, x)
  {
    r := s;
    for i := 0 to |xs|
      invariant forall x :: At(r, x) == if x in xs[..i] && x in k.scalars then Some(k.scalars[x]) else At(s, x)
    {
      assert xs[..i + 1] == xs[..i] + [xs[i]];
      if xs[i] in k.scalars {
        r := r[xs[i] := k.scalars[xs[i]]];
      }
    }
    assert xs[..|xs|] == xs;
  }

  method FillScalars(k: Wanted) returns (s: Scalars)
    ensures s == CreatedScalars(k)
  {
    var xs := [Affinity, Tolerations, ContainerResources, SecurityContext, LivenessProbe, ReadinessProbe,
               ServiceAccount];
    s := SetWanted(TemplateScalars(), k, xs);
    forall x: Scalar ensures x in xs {
      match x
      case Affinity => assert xs[0] == x;
      case Tolerations => assert xs[1] == x;
      case ContainerResources => assert xs[2] == x;
      case SecurityContext => assert xs[3] == x;
      case LivenessProbe => assert xs[4] == x;
      case ReadinessProbe => assert xs[5] == x;
      case ServiceAccount => assert xs[6] == x;
    }
    AllScalars(k, s);
  }

  lemma AllScalars(k: Wanted, s: Scalars)
    requires forall x :: At(s, x) == if At(k.scalars, x).Some? then At(k.scalars, x) else At(TemplateScalars(), x)
    ensures s == CreatedScalars(k)
  {
    forall x: Scalar ensures x in s <==> x in CreatedScalars(k) {
      assert At(s, x) == At(CreatedScalars(k), x);
    }
    assert s.Keys == CreatedScalars(k).Keys;
    forall x | x in s ensures s[x] == CreatedScalars(k)[x] {
      assert At(s, x) == At(CreatedScalars(k), x);
    }
  }

  method FillMounts(template: seq<Mount>, databaseMount: string, user: seq<Mount>) returns (m: seq<Mount>)
    requires template != []
    ensures m == template[0 := template[0].(path := databaseMount)] + user
  {
    m := template[0 := template[0].(path := databaseMount)];
    m := m + user;
  }

  method FillWiring(r: Resource, role: Role) returns (w: Wiring)
    ensures w == CreatedWiring(r, role)
  {
    var k := r.wanted;
    var volumes := TemplateVolumes() + k.volumes;
    var mounts := FillMounts(TemplateMounts(role, "toBeReplaced"), r.databaseMount, k.mounts);
    assert mounts == TemplateMounts(role, r.databaseMount) + k.mounts;
    var init := None;
    if role.Replica? {
      var filled := FillMounts(TemplateInitMounts("toBeReplaced"), r.databaseMount, k.mounts);
      assert filled == TemplateInitMounts(r.databaseMount) + k.mounts;
      init := Some(filled);
    }
    w := Wiring(volumes, mounts, init);
  }

  method FillLabels(r: Resource, role: Role, i: nat) returns (labels: Metadata)
    ensures labels == Labels(r, role, i)
  {
    labels := map["app" := "postgres-name", "index" := "1", "replicationRole" := RoleName(role)];
    labels := labels["app" := r.name];
    labels := labels["index" := IndexLabel(i)];
  }

  /** The template loaded, its placeholders filled in, the user's parts added, and the result
      wired to the configuration. */
  method CreateStatefulSet(r: Resource, role: Role, i: nat) returns (m: Manifest)
    ensures m == Created(r, role, i)
  {
    var k := r.wanted;
    var labels := FillLabels(r, role, i);
    var annotations := CopiedAnnotations(k.annotations);
    var scalars := FillScalars(k);
    var wiring := FillWiring(r, role);
    var template := new PodTemplate(wiring);
    var _ := template.Configure(k.config, k.configMap);
    m := Manifest(labels, annotations, labels, annotations, k.image, k.image, k.port, scalars,
                  template.Contents(), k.endpoint);
  }

  lemma NoPrefixedLabels(r: Resource, role: Role, i: nat)
    ensures Prefixed(Labels(r, role, i)) == map[]
  {
    assert PREFIX[0] == 'k' && "app"[0] == 'a' && "index"[0] == 'i' && "replicationRole"[0] == 'r';
  }

  lemma TemplateNamesReserved(r: Resource, role: Role)
    ensures forall m :: m in TemplateMounts(role, r.databaseMount) + TemplateInitMounts(r.databaseMount) ==>
              Reserved(m.name)
    ensures forall v :: v in TemplateVolumes() ==> Reserved(v.name)
  {
  }

  /** Renaming keeps the operator's mounts its own, and the user's mounts the user's, unless
      one of these is on a managed file. */
  lemma WiredSplit(own: seq<Mount>, user: seq<Mount>, s: ConfigStates)
    requires Consistent(s) && forall m :: m in own ==> Reserved(m.name)
    ensures NoneManaged(user) && (forall m :: m in user ==> !Reserved(m.name)) ==>
              Custom(MountName, Wired(own + user, s.locations)) == user
  {
    if NoneManaged(user) && forall m :: m in user ==> !Reserved(m.name) {
      var own' := Wired(own, s.locations);
      assert Wired(own + user, s.locations) == own' + user by {
        forall i | 0 <= i < |own + user| ensures Wired(own + user, s.locations)[i] == (own' + user)[i] {
          if i >= |own| { assert (own + user)[i] in user; }
        }
      }
      forall m | m in own' ensures Reserved(m.name) {
        var i :| 0 <= i < |own| && own'[i] == m;
        assert own[i] in own;
      }
      FilterAppend(MountName, own', user, false);
      FilterAll(MountName, own', false);
      FilterAll(MountName, user, false);
    }
  }

  /** What the user's part must be like for the created StatefulSet to need no update. */
  predicate CreatedClean(k: Wanted) {
    Prefixed(k.labels) == map[] && NoneReserved(k.volumes, k.mounts) && NoneManaged(k.mounts)
  }

  lemma {:induction false} WithoutAppend(a: seq<Volume>, b: seq<Volume>, name: string)
    requires forall v :: v in b ==> v.name != name
    ensures Without(a + b, name) == Without(a, name) + b
    decreases |b|
  {
    if b == [] {
      assert a + b == a;
    } else {
      var init, last := b[..|b| - 1], b[|b| - 1];
      var front, kept := a + init, Without(a, name);
      assert b == init + [last] && last in b;
      assert a + b == front + [last];
      assert Without(front, name) == kept + init by {
        WithoutAppend(a, init, name);
      }
      WithoutLast(front, last, name);
      assert kept + init + [last] == kept + b;
    }
  }

  lemma WithoutLast(s: seq<Volume>, v: Volume, name: string)
    requires v.name != name
    ensures Without(s + [v], name) == Without(s, name) + [v]
  {
    assert (s + [v])[..|s|] == s;
  }

  /** Among the operator's volumes the user's are the custom ones. */
  lemma UserAmongOwn(own: seq<Volume>, user: seq<Volume>, more: seq<Volume>)
    requires (forall v :: v in own + more ==> Reserved(v.name)) && (forall v :: v in user ==> !Reserved(v.name))
    ensures Custom(VolumeName, own + user + more) == user
  {
    FilterAppend(VolumeName, own + user, more, false);
    FilterAppend(VolumeName, own, user, false);
    FilterAll(VolumeName, own, false);
    FilterAll(VolumeName, user, false);
    FilterAll(VolumeName, more, false);
  }

  lemma OwnThenUser(own: seq<Volume>, user: seq<Volume>, v: Volume)
    requires (forall x :: x in own ==> Reserved(x.name)) && Reserved(v.name)
    requires forall x :: x in user ==> !Reserved(x.name)
    ensures Custom(VolumeName, own + user) == user && Custom(VolumeName, own + user + [v]) == user
  {
    UserAmongOwn(own, user, []);
    UserAmongOwn(own, user, [v]);
    assert own + user + [] == own + user;
  }

  lemma CustomOfConfigured(own: seq<Volume>, user: seq<Volume>, customDeployed: bool, configMap: string)
    requires (forall v :: v in own ==> Reserved(v.name)) && (forall v :: v in user ==> !Reserved(v.name))
    ensures Custom(VolumeName, ConfiguredVolumes(own + user, customDeployed, configMap)) == user
  {
    var n, all, r := NewConfigVolume(configMap), own + user, ConfiguredVolumes(own + user, customDeployed, configMap);
    if r == all || r == all + [n] {
      OwnThenUser(own, user, n);
    } else {
      var kept := Without(all, CUSTOM_CONFIG_VOLUME);
      assert r == kept || r == kept + [n];
      assert kept == Without(own, CUSTOM_CONFIG_VOLUME) + user by {
        WithoutAppend(own, user, CUSTOM_CONFIG_VOLUME);
      }
      OwnThenUser(Without(own, CUSTOM_CONFIG_VOLUME), user, n);
    }
  }

  lemma CreatedVolumesClean(r: Resource, role: Role)
    requires Consistent(r.wanted.config)
    requires NoneReserved(r.wanted.volumes, r.wanted.mounts) && NoneManaged(r.wanted.mounts)
    ensures var k := r.wanted;
            !VolumesDiffer(Configured(CreatedWiring(r, role), k.config, k.configMap), k.volumes, k.mounts)
  {
    var k := r.wanted;
    TemplateNamesReserved(r, role);
    CustomOfConfigured(TemplateVolumes(), k.volumes, k.config.customDeployed, k.configMap);
    WiredSplit(TemplateMounts(role, r.databaseMount), k.mounts, k.config);
    WiredSplit(TemplateInitMounts(r.databaseMount), k.mounts, k.config);
  }

  lemma CreatedWiringClean(r: Resource, role: Role)
    requires Consistent(r.wanted.config)
    ensures WiringClean(Configured(CreatedWiring(r, role), r.wanted.config, r.wanted.configMap), r.wanted)
            <==> NoneReserved(r.wanted.volumes, r.wanted.mounts) && NoneManaged(r.wanted.mounts)
  {
    var k := r.wanted;
    var w := Configured(CreatedWiring(r, role), k.config, k.configMap);
    ConfigureIdempotent(CreatedWiring(r, role), k.config, k.configMap);
    if !VolumesDiffer(w, k.volumes, k.mounts) {
      WiringCleanExactly(w, k);
      assert Rewired(w, k) == w;
    } else if NoneReserved(k.volumes, k.mounts) && NoneManaged(k.mounts) {
      CreatedVolumesClean(r, role);
      assert false;
    }
  }

  lemma SinglesClean(e: Enforcer, r: Resource, role: Role, i: nat)
    requires Single(e)
    ensures !Differs(e, Created(r, role, i), r.wanted)
  {
  }

  lemma MetadataCleanExactly(r: Resource, role: Role, i: nat)
    ensures !Differs(CustomMetadata, Created(r, role, i), r.wanted) <==> Prefixed(r.wanted.labels) == map[]
  {
    NoPrefixedLabels(r, role, i);
  }

  /** Creator and enforcers agree: a StatefulSet built from either template is as the
      resource asks if and only if the resource has no prefixed label, the user's volumes and mounts have
      no reserved name, and no user mount is on a managed configuration file. */
  lemma CreatorAgrees(r: Resource, role: Role, i: nat)
    requires Consistent(r.wanted.config)
    ensures AsWanted(Created(r, role, i), r.wanted) <==> CreatedClean(r.wanted)
  {
    var k, m := r.wanted, Created(r, role, i);
    forall e | Single(e) ensures !Differs(e, m, k) {
      SinglesClean(e, r, role, i);
    }
    CleanByParts(m, k);
    CleanMeans(m, k);
    MetadataCleanExactly(r, role, i);
    CreatedWiringClean(r, role);
  }

  /** The mount of a configuration file, from the volume that the file comes from. */
  function FileMount(k: Wanted, path: string, key: Key): (m: Mount)
  {
    Mount(k.config.locations.At(key), path, key)
  }

  lemma WiredAppend(own: seq<Mount>, user: seq<Mount>, l: Locations)
    ensures Wired(own + user, l) == Wired(own, l) + Wired(user, l)
  {
  }

  /** What is mounted in the container of a new StatefulSet besides what the user asks for: the
      scripts that initialise a database are for the primary only. */
  function ContainerMounts(k: Wanted, role: Role, databaseMount: string): (m: seq<Mount>)
  {
    var db := Mount(DATABASE_VOLUME, databaseMount, OtherKey(""));
    var conf := FileMount(k, "/etc/postgres.conf", PostgresConf);
    var hba := FileMount(k, "/etc/pg_hba.conf", PgHbaConf);
    if role.Replica? then [db, conf, hba]
    else
      [db,
       FileMount(k, "/docker-entrypoint-initdb.d/primary_create_replication_role.sh", CreateReplicationRole),
       conf,
       FileMount(k, "/docker-entrypoint-initdb.d/primary_init_script.sh", PrimaryInitScript),
       hba]
  }

  lemma WiredOne(mounts: seq<Mount>, l: Locations, i: nat)
    requires i < |mounts| && mounts[i].subPath in MANAGED_KEYS + {OtherKey("")}
    ensures Wired(mounts, l)[i]
            == if mounts[i].subPath == OtherKey("") then mounts[i]
               else Mount(l.At(mounts[i].subPath), mounts[i].path, mounts[i].subPath)
  {
  }

  lemma TemplateWired(k: Wanted, role: Role, databaseMount: string)
    ensures Wired(TemplateMounts(role, databaseMount), k.config.locations) == ContainerMounts(k, role, databaseMount)
  {
    var mounts, l := TemplateMounts(role, databaseMount), k.config.locations;
    WiredOne(mounts, l, 0);
    WiredOne(mounts, l, 1);
    WiredOne(mounts, l, 2);
    if role.Primary? {
      WiredOne(mounts, l, 3);
      WiredOne(mounts, l, 4);
    }
  }

  lemma InitTemplateWired(k: Wanted, databaseMount: string)
    ensures Wired(TemplateInitMounts(databaseMount), k.config.locations)
            == [Mount(DATABASE_VOLUME, databaseMount, OtherKey("")),
                FileMount(k, "/tmp/copy_primary_data_to_replica.sh", CopyPrimaryData)]
  {
    WiredOne(TemplateInitMounts(databaseMount), k.config.locations, 0);
    WiredOne(TemplateInitMounts(databaseMount), k.config.locations, 1);
  }

  /** What is mounted in a new StatefulSet: a primary has no init container; that of a replica
      has the script that copies the data of the primary. */
  lemma CreatedMounts(r: Resource, role: Role, i: nat)
    ensures var k, w := r.wanted, Created(r, role, i).wiring;
            var user := Wired(k.mounts, k.config.locations);
            && w.mounts == ContainerMounts(k, role, r.databaseMount) + user
            && w.init == if role.Primary? then None
                         else Some([Mount(DATABASE_VOLUME, r.databaseMount, OtherKey("")),
                                    FileMount(k, "/tmp/copy_primary_data_to_replica.sh", CopyPrimaryData)] + user)
  {
    var k, l := r.wanted, r.wanted.config.locations;
    WiredAppend(TemplateMounts(role, r.databaseMount), k.mounts, l);
    WiredAppend(TemplateInitMounts(r.databaseMount), k.mounts, l);
    TemplateWired(k, role, r.databaseMount);
    InitTemplateWired(k, r.databaseMount);
  }

  /** Every configuration file that is mounted in a new StatefulSet comes from one of its volumes;
      the base volume is that of the base configuration. */
  lemma CreatedMountsResolve(r: Resource, role: Role, i: nat)
    requires Consistent(r.wanted.config)
    ensures var w := Created(r, role, i).wiring;
            && Volume(BASE_CONFIG_VOLUME, BASE_CONFIG_MAP, "0777") in w.volumes
            && MountsResolve(w.mounts, w.volumes) && (w.init.Some? ==> MountsResolve(w.init.value, w.volumes))
  {
    var k, w := r.wanted, CreatedWiring(r, role);
    var base := Volume(BASE_CONFIG_VOLUME, BASE_CONFIG_MAP, "0777");
    assert TemplateVolumes()[0] == base && base in w.volumes;
    assert base in Without(w.volumes, CUSTOM_CONFIG_VOLUME);
    ConfiguredMountsResolve(w, k.config, k.configMap);
  }

  /** What is created for an instance is loaded back as that instance: the label is the index,
      the role is the one asked for, the application is the resource. */
  lemma CreatedIsLoaded(r: Resource, role: Role, i: nat)
    requires i < 0x8000_0000
    ensures var m := Created(r, role, i).podLabels;
            && "app" in m && m["app"] == r.name
            && "index" in m && ParseIndex(m["index"]) == Some(i)
            && "replicationRole" in m && (m["replicationRole"] == "primary" <==> role.Primary?)
  {
    LabelRoundTrip(i);
    assert "primary"[0] == 'p' && "replica"[0] == 'r';
  }
}
