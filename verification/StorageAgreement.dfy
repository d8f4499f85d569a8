/** However the user edits them, all deployed StatefulSets agree on the parameters of their
    storage. Nothing is assumed here about lost writes or failed deletions. */
module StorageAgreement {
  import opened Resources
  import opened BlockingOperations
  import opened Snapshots
  import opened Enforcement
  import opened Reconciling
  import opened Effects
  import opened Steps
  import opened Decisions
  import opened Runs

  ghost predicate Agreeing(c: Cluster) {
    forall i, j :: i in c && j in c ==> c[i].storage == c[j].storage
  }

  ghost predicate AllStored(c: Cluster, s: Storage) {
    forall i :: i in c ==> c[i].storage == s
  }

  /** A new StatefulSet with storage `s` agrees with the others exactly when they all have it. */
  lemma AgreeingAfterCreation(c: Cluster, i: nat, x: StatefulSet)
    requires Agreeing(c) && i !in c
    ensures Agreeing(c[i := x]) <==> AllStored(c, x.storage)
  {
    var c' := c[i := x];
    if Agreeing(c') {
      forall j | j in c ensures c[j].storage == x.storage {
        assert c'[j] == c[j] && c'[i] == x;
      }
    }
    if AllStored(c, x.storage) {
      forall j, k | j in c' && k in c' ensures c'[j].storage == c'[k].storage {
        assert j != i ==> c'[j] == c[j];
        assert k != i ==> c'[k] == c[k];
      }
    }
  }

  lemma AgreeingOtherwise(c: Cluster, call: Call, s: Storage, f: Fields)
    requires Agreeing(c) && !(Creates(call) && call.ok)
    ensures Agreeing(Applied(c, call, s, f))
  {
    var c' := Applied(c, call, s, f);
    forall j, k | j in c' && k in c' ensures c'[j].storage == c'[k].storage {
      assert j in c && c'[j].storage == c[j].storage;
      assert k in c && c'[k].storage == c[k].storage;
    }
  }

  lemma AgreeingFrom(w: World, l: Lock, a: Replies, g: Pass)
    requires Agreeing(w.cluster) && |g.calls| <= 1
    requires g.calls == [] ==> g.cluster == w.cluster
    requires g.calls != [] ==> Accounted(w, ViewOf(w), l, a, g)
    ensures Agreeing(g.cluster) <==> !(HasCreation(g.calls) && !AllStored(w.cluster, w.spec.storage))
  {
    CreationInOne(g.calls);
    if g.calls != [] {
      AgreeingAfter(w, l, a, g);
    }
  }

  lemma AgreeingAfter(w: World, l: Lock, a: Replies, g: Pass)
    requires Agreeing(w.cluster) && g.calls != [] && Accounted(w, ViewOf(w), l, a, g)
    ensures Agreeing(g.cluster) <==>
              !(Creates(g.calls[0]) && g.calls[0].ok && !AllStored(w.cluster, w.spec.storage))
  {
    var call := g.calls[0];
    AccountedCluster(w, l, a, g);
    if Creates(call) && call.ok {
      var role := if call.verb == CreatePrimary then Primary else Replica;
      AgreeingAfterCreation(w.cluster, call.index, StatefulSet(role, false, w.spec.storage, w.spec.fields));
    } else {
      AgreeingOtherwise(w.cluster, call, w.spec.storage, w.spec.fields);
    }
  }

  /** A reconcile keeps the agreement if and only if it does not create a StatefulSet while a
      deployed one has other storage parameters than the spec. */
  lemma StorageStep(w: World, a: Replies)
    requires Readable(w) && a.now >= 0 && Agreeing(w.cluster)
    ensures Agreeing(Reconcile(w, a).cluster) <==>
              !(CreationSucceeds(w, a) && !AllStored(w.cluster, w.spec.storage))
  {
    var l, g := Outcome(w, a);
    CreationExactly(w, a);
    SameCreations(CallsOf(w, a), g.calls);
    AgreeingFrom(w, l, a, g);
  }

  /** A ready primary has a ready pod. */
  ghost predicate PodFollows(w: World) {
    forall i :: i in Primaries(w.cluster) && w.cluster[i].ready ==> i in w.pods && w.pods[i].Ready()
  }

  /** Beside a ready primary the spec check has compared the spec with that primary. */
  lemma SpecAgrees(w: World)
    requires Agreeing(w.cluster) && PodFollows(w)
    requires ViewOf(w).PrimaryReady() && !SpecFatal(w.spec, ViewOf(w))
    ensures AllStored(w.cluster, w.spec.storage)
  {
    ViewFacts(w);
    var p := ViewOf(w).primary.value;
    assert p in Primaries(w.cluster);
  }

  /** Without standby, and where a ready primary has a ready pod, a StatefulSet is only created where
      nothing disagrees with the spec. */
  lemma CreationAgrees(w: World, a: Replies)
    requires Agreeing(w.cluster) && PodFollows(w) && !w.spec.standby && CreationSucceeds(w, a)
    ensures AllStored(w.cluster, w.spec.storage)
  {
    if ViewOf(w).PrimaryReady() {
      SpecAgrees(w);
    }
  }

  lemma AgreeingNext(r: Run, i: int)
    requires IsRun(r) && 0 <= i < |r.events|
    requires Agreeing(r.states[i].cluster) && !r.states[i].spec.standby && PodFollows(r.states[i])
    ensures Agreeing(r.states[i + 1].cluster)
  {
    ReadableAt(r, i);
    assert r.Steps(i);
    match r.events[i] {
      case Environment => EnvironmentAgrees(r.states[i], r.states[i + 1]);
      case Reconciled(a, _) =>
        StorageStep(r.states[i], a);
        if CreationSucceeds(r.states[i], a) {
          CreationAgrees(r.states[i], a);
        }
    }
  }

  lemma EnvironmentAgrees(w: World, w': World)
    requires EnvironmentStep(w, w') && Agreeing(w.cluster)
    ensures Agreeing(w'.cluster)
  {
    forall i, j | i in w'.cluster && j in w'.cluster ensures w'.cluster[i].storage == w'.cluster[j].storage {
      assert w.cluster[i].storage == w.cluster[j].storage;
    }
  }

  /** In every run without standby, where a ready primary has a ready pod, all StatefulSets
      deployed at any moment have the same mount path, storage class and size. */
  lemma {:induction false} StorageAgrees(r: Run, i: int)
    requires IsRun(r) && 0 <= i < |r.states|
    requires forall k :: 0 <= k < |r.states| ==> !r.states[k].spec.standby && PodFollows(r.states[k])
    ensures Agreeing(r.states[i].cluster)
  {
    if i > 0 {
      StorageAgrees(r, i - 1);
      AgreeingNext(r, i - 1);
    }
  }

  /** An edit of the storage parameters under a running primary is taken back: the reconcile
      that looks at the spec makes no call and stores the parameters of that primary. */
  lemma EditIsRolledBack(w: World, a: Replies)
    requires |Primaries(w.cluster)| <= 1 && RequeueAfter(Begin(w, a).lock, a.now) <= 0
    requires StorageChanged(w.spec, ViewOf(w)) && a.specOk
    ensures var w', p := Reconcile(w, a), ViewOf(w).primary.value;
            && CallsOf(w, a) == [] && w'.cluster == w.cluster
            && w'.spec == w.spec.(storage := w.cluster[p].storage) && !StorageChanged(w'.spec, ViewOf(w'))
  {
    assert ViewOf(Reconcile(w, a)) == ViewOf(w);
  }
}
