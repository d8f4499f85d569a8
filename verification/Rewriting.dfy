/** The registry at work on a StatefulSet object: the loops that check and rewrite it. */
module Rewriting {
  import opened Resources
  import opened VolumeLists
  import opened CustomConfig
  import opened SpecRegistry
  import opened Convergence

  /** The enforcers that see a difference, in registry order. */
  function Differing(m: Manifest, k: Wanted, es: seq<Enforcer>): (d: seq<Enforcer>)
    ensures forall e :: e in d <==> e in es && Differs(e, m, k)
  {
    if es == [] then []
    else
      assert es == es[..|es| - 1] + [es[|es| - 1]];
      Differing(m, k, es[..|es| - 1]) + if Differs(es[|es| - 1], m, k) then [es[|es| - 1]] else []
  }

  predicate CleanFor(m: Manifest, k: Wanted, es: seq<Enforcer>) {
    forall e :: e in es ==> !Differs(e, m, k)
  }

  lemma OneMoreEnforcer(m: Manifest, k: Wanted, es: seq<Enforcer>, i: nat)
    requires i < |es|
    ensures Sweep(m, k, es[..i + 1]) == Swept(es[i], Sweep(m, k, es[..i]), k)
    ensures CleanFor(m, k, es[..i + 1]) <==> CleanFor(m, k, es[..i]) && !Differs(es[i], m, k)
  {
    assert es[..i + 1] == es[..i] + [es[i]];
    assert es[..i + 1][..i] == es[..i] && es[i] in es[..i + 1];
  }

  class StatefulSetObject {
    var manifest: Manifest

    constructor (m: Manifest)
      ensures manifest == m
    {
      manifest := m;
    }

    method CheckForSpecDifferences(k: Wanted) returns (d: seq<Enforcer>)
      ensures d == Differing(manifest, k, REGISTRY)
      ensures d == [] <==> AsWanted(manifest, k)
    {
      CleanMeans(manifest, k);
      d := [];
      for i := 0 to |REGISTRY|
        invariant d == Differing(manifest, k, REGISTRY[..i])
      {
        assert REGISTRY[..i + 1][..i] == REGISTRY[..i];
        if Differs(REGISTRY[i], manifest, k) {
          d := d + [REGISTRY[i]];
        }
      }
      assert REGISTRY[..|REGISTRY|] == REGISTRY;
      if d == [] {
        forall e | e in REGISTRY ensures !Differs(e, manifest, k) {
          assert e !in d;
        }
      } else {
        assert d[0] in d;
      }
    }

    method EnforceMounts(current: seq<Mount>, mounts: seq<Mount>) returns (r: seq<Mount>)
      ensures r == MountsReplaced(current, mounts)
    {
      r := RemoveCustom(MountName, current);
      if current != [] {
        r := r + mounts;
      }
    }

    method EnforceVolumes(k: Wanted)
      modifies this
      ensures manifest == Enforced(Volumes, old(manifest), k)
    {
      var w := manifest.wiring;
      var volumes := RemoveCustom(VolumeName, w.volumes);
      var mounts := EnforceMounts(w.mounts, k.mounts);
      var init := w.init;
      if init.Some? {
        var r := EnforceMounts(w.init.value, k.mounts);
        init := Some(r);
      }
      manifest := manifest.(wiring := Wiring(volumes + k.volumes, mounts, init));
    }

    method EnforceConfig(k: Wanted) returns (updated: bool)
      modifies this
      ensures manifest == Enforced(Config, old(manifest), k)
      ensures updated == Differs(Config, old(manifest), k)
    {
      var t := new PodTemplate(manifest.wiring);
      updated := t.Configure(k.config, k.configMap);
      manifest := manifest.(wiring := t.Contents());
    }

    method EnforceOne(e: Enforcer, k: Wanted) returns (updated: bool)
      modifies this
      ensures manifest == Enforced(e, old(manifest), k)
      ensures Differs(e, old(manifest), k) ==> updated
    {
      updated := true;
      match e {
        case Config => updated := EnforceConfig(k);
        case Volumes => EnforceVolumes(k);
        case _ => manifest := Enforced(e, manifest, k);
      }
    }

    /** One pass; an update is sent exactly when the StatefulSet is not as the resource asks. */
    method EnforceSpec(k: Wanted) returns (updated: seq<Enforcer>)
      modifies this
      ensures manifest == Rewritten(old(manifest), k)
      ensures PassWrites(old(manifest), k, manifest)
      ensures updated == [] <==> AsWanted(old(manifest), k)
    {
      updated := [];
      ghost var m := manifest;
      CleanMeans(m, k);
      PassWritesFields(m, k);
      for i := 0 to |REGISTRY|
        invariant manifest == Sweep(m, k, REGISTRY[..i])
        invariant updated == [] <==> CleanFor(m, k, REGISTRY[..i])
        invariant updated == [] ==> manifest == m
      {
        OneMoreEnforcer(m, k, REGISTRY, i);
        if Differs(REGISTRY[i], manifest, k) {
          var was := EnforceOne(REGISTRY[i], k);
          if was {
            updated := updated + [REGISTRY[i]];
          }
        }
      }
      assert REGISTRY[..|REGISTRY|] == REGISTRY;
    }
  }
}
