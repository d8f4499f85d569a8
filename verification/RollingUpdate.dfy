/** The rolling update: one StatefulSet at a time, in order, and the pod of the last one is
    checked before the next is touched. */
module RollingUpdate {
  import opened Resources
  import opened BlockingOperations
  import opened Snapshots
  import opened Enforcement
  import opened Reconciling
  import opened Effects
  import opened Steps
  import opened Runs

  // ---------- Order ----------

  /** Same StatefulSets with the same roles. */
  ghost predicate SameShape(c: Cluster, c': Cluster) {
    c.Keys == c'.Keys && forall i :: i in c ==> c[i].role == c'[i].role
  }

  lemma SameOrder(w: World, w': World, standby: bool)
    requires SameShape(w.cluster, w'.cluster)
    ensures RolloutOrder(standby, ViewOf(w)) == RolloutOrder(standby, ViewOf(w'))
  {
    SameRoles(w.cluster, w'.cluster);
  }

  lemma SameRoles(c: Cluster, c': Cluster)
    requires SameShape(c, c')
    ensures Primaries(c) == Primaries(c') && ReplicaKeys(c) == ReplicaKeys(c')
  {
  }

  /** Earlier in the order means: a replica, and before a primary or a lower index. */
  lemma OrderMeans(w: World, standby: bool, j: int, k: int)
    requires var order := RolloutOrder(standby, ViewOf(w)); 0 <= j < k < |order|
    ensures var order := RolloutOrder(standby, ViewOf(w));
            && order[j] in w.cluster && order[k] in w.cluster
            && w.cluster[order[j]].role.Replica?
            && (w.cluster[order[k]].role.Primary? || order[k] < order[j])
  {
    var v, order := ViewOf(w), RolloutOrder(standby, ViewOf(w));
    OrderPositions(v.replicas, order, j, k);
    ReplicaShown(w, order[j]);
    if k < |v.replicas| {
      ReplicaShown(w, order[k]);
    } else {
      PrimaryShown(w);
    }
  }

  lemma OrderPositions(q: seq<nat>, order: seq<nat>, j: int, k: int)
    requires StrictlyAscending(q) && 0 <= j < k < |order| <= |q| + 1
    requires Reversed(q) <= order
    ensures order[j] in q && (k < |q| ==> order[k] in q && order[k] < order[j])
  {
    ReversedAt(q, j);
    if k < |q| {
      ReversedAt(q, k);
    }
  }

  lemma ReversedAt(q: seq<nat>, j: int)
    requires StrictlyAscending(q) && 0 <= j < |q|
    ensures Reversed(q)[j] in q && forall k :: j < k < |q| ==> Reversed(q)[k] < Reversed(q)[j]
  {
    assert q[|q| - 1 - j] in q;
    forall k | j < k < |q| ensures Reversed(q)[k] < Reversed(q)[j] {
      assert Reversed(q)[k] == q[|q| - 1 - k] < q[|q| - 1 - j];
    }
  }

  lemma ReplicaShown(w: World, i: nat)
    requires i in ViewOf(w).replicas
    ensures i in w.cluster && w.cluster[i].role.Replica?
  {
  }

  lemma PrimaryShown(w: World)
    ensures var p := ViewOf(w).primary; p.Some? ==> p.value in w.cluster && w.cluster[p.value].role.Primary?
  {
  }

  lemma AppliedKeepsWanted(c: Cluster, call: Call, s: Storage, f: Fields, i: nat)
    requires i in c && c[i].fields == f && i in Applied(c, call, s, f)
    ensures Applied(c, call, s, f)[i].fields == f
  {
  }

  /** A StatefulSet that has the wanted fields keeps them. */
  lemma WantedStays(w: World, a: Replies, i: nat)
    requires Readable(w) && a.now >= 0
    requires i in w.cluster && i in Reconcile(w, a).cluster && w.cluster[i].fields == w.spec.fields
    ensures Reconcile(w, a).cluster[i].fields == w.spec.fields
  {
    var l, g := Outcome(w, a);
    WantedFrom(w, l, a, g, i);
  }

  lemma WantedFrom(w: World, l: Lock, a: Replies, f: Pass, i: nat)
    requires f.calls == [] ==> f.cluster == w.cluster
    requires f.calls != [] ==> Accounted(w, ViewOf(w), l, a, f)
    requires i in w.cluster && i in f.cluster && w.cluster[i].fields == w.spec.fields
    ensures f.cluster[i].fields == w.spec.fields
  {
    if f.calls != [] {
      AppliedKeepsWanted(w.cluster, f.calls[0], w.spec.storage, w.spec.fields, i);
    }
  }

  /** What an update of the fields says about the state it was made in. */
  lemma UpdateFacts(w: World, a: Replies, call: Call) returns (k: int)
    requires Readable(w) && a.now >= 0 && call in CallsOf(w, a) && call.verb == UpdateFields
    ensures FirstDiffering(w.spec.fields, ViewOf(w), RolloutOrder(w.spec.standby, ViewOf(w)), k, call.index)
    ensures call.ok ==> call.index in Reconcile(w, a).cluster
                        && Reconcile(w, a).cluster[call.index].fields == w.spec.fields
  {
    var l, g := Outcome(w, a);
    k := UpdateFrom(w, l, a, g, call);
  }

  lemma UpdateFrom(w: World, l: Lock, a: Replies, f: Pass, call: Call) returns (k: int)
    requires f.calls != [] && Accounted(w, ViewOf(w), l, a, f) && call in f.calls && call.verb == UpdateFields
    ensures FirstDiffering(w.spec.fields, ViewOf(w), RolloutOrder(w.spec.standby, ViewOf(w)), k, call.index)
    ensures call.ok ==> call.index in f.cluster && f.cluster[call.index].fields == w.spec.fields
  {
    assert call == f.calls[0];
    k :| FirstDiffering(w.spec.fields, ViewOf(w), RolloutOrder(w.spec.standby, ViewOf(w)), k, call.index);
  }

  /** Between states `i` and `j` the wanted fields are constant, and no StatefulSet comes,
      goes or changes its role. */
  ghost predicate SteadyStretch(r: Run, i: int, j: int) {
    && 0 <= i <= j < |r.states|
    && forall k :: i <= k <= j ==> SteadyAt(r, i, k)
  }

  ghost predicate SteadyAt(r: Run, i: int, k: int)
    requires 0 <= i < |r.states|
  {
    && 0 <= k < |r.states|
    && r.states[k].spec.fields == r.states[i].spec.fields
    && r.states[k].spec.standby == r.states[i].spec.standby
    && SameShape(r.states[i].cluster, r.states[k].cluster)
  }

  lemma {:induction false} WantedAlong(r: Run, i: int, j: int, x: nat)
    requires IsRun(r) && SteadyStretch(r, i, j)
    requires x in r.states[i].cluster && r.states[i].cluster[x].fields == r.states[i].spec.fields
    ensures x in r.states[j].cluster && r.states[j].cluster[x].fields == r.states[i].spec.fields
    decreases j - i
  {
    assert SteadyAt(r, i, j);
    if i < j {
      assert SteadyStretch(r, i, j - 1);
      WantedAlong(r, i, j - 1, x);
      assert SteadyAt(r, i, j - 1);
      ReadableAt(r, j - 1);
      assert x in r.states[j].cluster.Keys;
      WantedNext(r, j - 1, x);
    }
  }

  lemma WantedNext(r: Run, i: int, x: nat)
    requires IsRun(r) && 0 <= i < |r.events| && Readable(r.states[i])
    requires x in r.states[i].cluster && x in r.states[i + 1].cluster
    requires r.states[i].cluster[x].fields == r.states[i].spec.fields
    ensures r.states[i + 1].cluster[x].fields == r.states[i].spec.fields
  {
    assert r.Steps(i);
    if r.events[i].Reconciled? {
      WantedStays(r.states[i], r.events[i].replies, x);
    }
  }

  lemma DifferencesFade(w: World, i: nat)
    requires i in w.cluster
    ensures DifferencesAt(w.spec.fields, ViewOf(w), i) == [] <==> w.cluster[i].fields == w.spec.fields
  {
    NoDifference(w.spec.fields, w.cluster[i].fields);
  }

  /** Event `i` updates the fields of `x`. */
  ghost predicate Updates(r: Run, i: int, x: nat) {
    r.Reconciles(i) && Call(UpdateFields, x, true) in r.Calls(i)
  }

  /** Everything up to position `k` of the rollout order, where `x` stands, has the wanted
      fields. */
  ghost predicate DoneUpTo(w: World, k: int, x: nat) {
    var order := RolloutOrder(w.spec.standby, ViewOf(w));
    && 0 <= k < |order| && order[k] == x
    && forall j :: 0 <= j <= k ==> order[j] in w.cluster && w.cluster[order[j]].fields == w.spec.fields
  }

  lemma InRollout(w: World, standby: bool, j: int)
    requires 0 <= j < |RolloutOrder(standby, ViewOf(w))|
    ensures RolloutOrder(standby, ViewOf(w))[j] in w.cluster
  {
    ViewFacts(w);
    var v := ViewOf(w);
    if j < |v.replicas| {
      assert Reversed(v.replicas)[j] in Reversed(v.replicas);
    }
  }

  /** The update of `x` completes the order up to its place. */
  lemma DoneNext(w: World, a: Replies, w': World, x: nat) returns (k: int)
    requires Readable(w) && a.now >= 0 && Call(UpdateFields, x, true) in CallsOf(w, a) && w' == Reconcile(w, a)
    requires SameShape(w.cluster, w'.cluster)
    requires w'.spec.fields == w.spec.fields && w'.spec.standby == w.spec.standby
    ensures DoneUpTo(w', k, x)
  {
    k := UpdateFacts(w, a, Call(UpdateFields, x, true));
    var order := RolloutOrder(w.spec.standby, ViewOf(w));
    SameOrder(w, w', w.spec.standby);
    forall m | 0 <= m <= k
      ensures order[m] in w'.cluster && w'.cluster[order[m]].fields == w'.spec.fields
    {
      InRollout(w, w.spec.standby, m);
      assert order[m] in w'.cluster.Keys;
      if m < k {
        DifferencesFade(w, order[m]);
        WantedStays(w, a, order[m]);
      }
    }
  }

  lemma SteadyTail(r: Run, i: int, j: int)
    requires SteadyStretch(r, i, j) && i < j
    ensures SteadyStretch(r, i + 1, j)
  {
    var n := i + 1;
    assert SteadyAt(r, i, n);
    forall m | n <= m <= j ensures SteadyAt(r, n, m) {
      assert SteadyAt(r, i, m);
    }
  }

  lemma DoneStays(r: Run, i: int, j: int, k: int, x: nat)
    requires IsRun(r) && SteadyStretch(r, i, j) && DoneUpTo(r.states[i], k, x)
    ensures DoneUpTo(r.states[j], k, x)
  {
    var w, w' := r.states[i], r.states[j];
    assert SteadyAt(r, i, j);
    SameOrder(w, w', w.spec.standby);
    var order := RolloutOrder(w.spec.standby, ViewOf(w));
    forall m | 0 <= m <= k ensures order[m] in w'.cluster && w'.cluster[order[m]].fields == w'.spec.fields {
      WantedAlong(r, i, j, order[m]);
    }
  }

  lemma DoneAfterUpdate(r: Run, i: int, j: int, x: nat) returns (k: int)
    requires IsRun(r) && SteadyStretch(r, i, j) && i < j && Updates(r, i, x)
    ensures DoneUpTo(r.states[j], k, x)
  {
    k := DoneJustAfter(r, i, j, x);
    SteadyTail(r, i, j);
    DoneStays(r, i + 1, j, k, x);
  }

  lemma DoneJustAfter(r: Run, i: int, j: int, x: nat) returns (k: int)
    requires IsRun(r) && SteadyStretch(r, i, j) && i < j && Updates(r, i, x)
    ensures DoneUpTo(r.states[i + 1], k, x)
  {
    assert r.Steps(i);
    ReadableAt(r, i);
    assert SteadyAt(r, i, i + 1);
    var w, a, w' := r.states[i], r.events[i].replies, r.states[i + 1];
    k := DoneNext(w, a, w', x);
  }

  /** Order of a rollout: in a stretch of a run with constant wanted fields and the same
      StatefulSets, whatever is updated after `x` comes later in the order. So `x` was a
      replica, and `y` is the primary or has a lower index: replicas are updated in strictly
      descending order, each once, and the primary last. */
  lemma UpdatesInOrder(r: Run, i: int, j: int, x: nat, y: nat)
    requires IsRun(r) && SteadyStretch(r, i, j) && i < j
    requires Updates(r, i, x) && r.Reconciles(j)
    requires exists c :: c in r.Calls(j) && c.verb == UpdateFields && c.index == y
    ensures x in r.states[j].cluster && y in r.states[j].cluster
    ensures r.states[j].cluster[x].role.Replica?
    ensures r.states[j].cluster[y].role.Primary? || y < x
  {
    var k := DoneAfterUpdate(r, i, j, x);
    var c :| c in r.Calls(j) && c.verb == UpdateFields && c.index == y;
    ReadableAt(r, j);
    assert r.Steps(j);
    LaterInOrder(r.states[j], r.events[j].replies, c, k, x);
  }

  lemma LaterInOrder(w: World, a: Replies, c: Call, k: int, x: nat)
    requires Readable(w) && a.now >= 0 && c in CallsOf(w, a) && c.verb == UpdateFields && DoneUpTo(w, k, x)
    ensures x in w.cluster && c.index in w.cluster && w.cluster[x].role.Replica?
    ensures w.cluster[c.index].role.Primary? || c.index < x
  {
    var m := UpdateFacts(w, a, c);
    AfterDone(w, k, x, m, c.index);
  }

  lemma AfterDone(w: World, k: int, x: nat, m: int, y: nat)
    requires DoneUpTo(w, k, x)
    requires FirstDiffering(w.spec.fields, ViewOf(w), RolloutOrder(w.spec.standby, ViewOf(w)), m, y)
    ensures x in w.cluster && y in w.cluster && w.cluster[x].role.Replica?
    ensures w.cluster[y].role.Primary? || y < x
  {
    if m <= k {
      DifferencesFade(w, y);
      assert false;
    }
    OrderMeans(w, w.spec.standby, k, m);
  }
}
