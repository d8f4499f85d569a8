/** Loading does not depend on the order of the listing, and shows the world as it is. */
module LoadingOrder {
  import opened Resources
  import opened Snapshots
  import opened StateLoading

  /** No index is carried by two StatefulSets. */
  ghost predicate DistinctIndices(ls: seq<Listed>) {
    forall i, j :: 0 <= i < j < |ls| && Parsable(ls[i]) ==>
      ParseIndex(ls[i].indexLabel) != ParseIndex(ls[j].indexLabel)
  }

  ghost predicate DistinctPods(pods: seq<ListedPod>) {
    forall i, j :: 0 <= i < j < |pods| ==> pods[i].index != pods[j].index
  }

  lemma {:induction false} WrapAllFacts(ls: seq<Listed>, pods: seq<ListedPod>)
    requires AllParsable(ls)
    ensures |WrapAll(ls, pods)| == |ls|
    ensures forall i :: 0 <= i < |ls| ==> WrapAll(ls, pods)[i] == Wrap(ls[i], pods)
  {
    if ls != [] {
      WrapAllFacts(ls[..|ls| - 1], pods);
    }
  }

  lemma WrapAllDistinct(ls: seq<Listed>, pods: seq<ListedPod>)
    requires AllParsable(ls) && DistinctIndices(ls)
    ensures Distinct(WrapAll(ls, pods))
    ensures forall w :: w in WrapAll(ls, pods) <==> exists l :: l in ls && Wrap(l, pods) == w
  {
    WrapAllFacts(ls, pods);
    forall l | l in ls ensures Wrap(l, pods) in WrapAll(ls, pods) {
      var i :| 0 <= i < |ls| && ls[i] == l;
      assert WrapAll(ls, pods)[i] == Wrap(l, pods);
    }
  }

  lemma {:induction false} WrapRoleDistinct(ls: seq<Listed>, pods: seq<ListedPod>, role: Role)
    requires AllParsable(ls) && DistinctIndices(ls)
    ensures Distinct(WrapRole(ls, pods, role))
  {
    if ls != [] {
      var init, last := ls[..|ls| - 1], ls[|ls| - 1];
      WrapRoleDistinct(init, pods, role);
      var ws := WrapRole(init, pods, role);
      forall w | w in ws ensures w.index != Wrap(last, pods).index {
        var l :| l in init && l.content.role == role && Wrap(l, pods) == w;
        var i :| 0 <= i < |init| && init[i] == l;
        assert ls[i] == l;
      }
    }
  }

  lemma {:induction false} PodAtUnique(pods: seq<ListedPod>, p: ListedPod)
    requires DistinctPods(pods) && p in pods
    ensures PodAt(pods, p.index) == Some(p.pod)
  {
    if pods[0] != p {
      PodAtUnique(pods[1..], p);
      var k :| 0 <= k < |pods| && pods[k] == p;
    }
  }

  /** The pod found under an index does not depend on the order of the pods. */
  lemma SamePodAt(pods: seq<ListedPod>, pods': seq<ListedPod>, i: int)
    requires DistinctPods(pods) && DistinctPods(pods') && forall p :: p in pods <==> p in pods'
    ensures PodAt(pods, i) == PodAt(pods', i)
  {
    if PodAt(pods, i).Some? {
      PodAtUnique(pods', ListedPod(i, PodAt(pods, i).value));
    }
  }

  /** The same StatefulSets and pods, listed in any order. */
  ghost predicate SameListing(ls: seq<Listed>, ls': seq<Listed>, pods: seq<ListedPod>, pods': seq<ListedPod>) {
    && |ls| == |ls'| && DistinctIndices(ls) && DistinctIndices(ls') && (forall l :: l in ls <==> l in ls')
    && DistinctPods(pods) && DistinctPods(pods') && (forall p :: p in pods <==> p in pods')
  }

  lemma SameWraps(ls: seq<Listed>, ls': seq<Listed>, pods: seq<ListedPod>, pods': seq<ListedPod>)
    requires SameListing(ls, ls', pods, pods') && AllParsable(ls) && AllParsable(ls')
    ensures SameElements(WrapAll(ls, pods), WrapAll(ls', pods'))
    ensures forall role :: SameElements(WrapRole(ls, pods, role), WrapRole(ls', pods', role))
  {
    WrapAllDistinct(ls, pods);
    WrapAllDistinct(ls', pods');
    forall l | l in ls ensures Wrap(l, pods) == Wrap(l, pods') {
      SamePodAt(pods, pods', ParseIndex(l.indexLabel).value);
    }
  }

  lemma PermutedListing(ls: seq<Listed>, ls': seq<Listed>, pods: seq<ListedPod>, pods': seq<ListedPod>)
    requires SameListing(ls, ls', pods, pods')
    ensures AllParsable(ls) ==> AllParsable(ls')
    ensures AllParsable(ls) && TwoPrimaries(ls) ==> TwoPrimaries(ls')
  {
    if AllParsable(ls) {
      forall i | 0 <= i < |ls'| ensures Parsable(ls'[i]) {
        assert ls'[i] in ls;
      }
    }
    if AllParsable(ls) && TwoPrimaries(ls) {
      var i, j :| 0 <= i < j < |ls| && ls[i].content.role.Primary? && ls[j].content.role.Primary?;
      assert ls[i] in ls' && ls[j] in ls' && ls[i] != ls[j];
      var i' :| 0 <= i' < |ls'| && ls'[i'] == ls[i];
      var j' :| 0 <= j' < |ls'| && ls'[j'] == ls[j];
      var x, y := if i' < j' then i' else j', if i' < j' then j' else i';
      assert ls'[x].content.role.Primary? && ls'[y].content.role.Primary? && x < y;
    }
  }

  lemma SameViews(v: Views, v': Views, ws: seq<Wrapper>, ws': seq<Wrapper>)
    requires ViewsOf(v, ws) && ViewsOf(v', ws') && Distinct(ws) && Distinct(ws') && SameElements(ws, ws')
    ensures v == v'
  {
    PermutationDistinct(ws, v.ascending);
    PermutationDistinct(ws', v'.ascending);
    PermutationDistinct(ws, v.descending);
    PermutationDistinct(ws', v'.descending);
    SameSize(v.ascending, v'.ascending);
    SameSize(v.descending, v'.descending);
    OrderedUnique(v.ascending, v'.ascending, false);
    OrderedUnique(v.descending, v'.descending, true);
  }

  lemma {:induction false} SizeOfElements(a: seq<Wrapper>)
    requires Distinct(a)
    ensures |set w | w in a| == |a|
  {
    if a != [] {
      SizeOfElements(a[1..]);
      NotInTail(a);
      assert (set w | w in a) == {a[0]} + set w | w in a[1..];
    }
  }

  lemma SameSize(a: seq<Wrapper>, b: seq<Wrapper>)
    requires Distinct(a) && Distinct(b) && SameElements(a, b)
    ensures |a| == |b|
  {
    SizeOfElements(a);
    SizeOfElements(b);
    assert (set w | w in a) == set w | w in b;
  }

  /** Loading two listings of the same StatefulSets and pods fails on both or on neither, and
      yields the same state. */
  lemma LoadOrderFree(ls: seq<Listed>, ls': seq<Listed>, pods: seq<ListedPod>, pods': seq<ListedPod>,
                      s: Snapshot, s': Snapshot)
    requires SameListing(ls, ls', pods, pods')
    ensures Loadable(ls) <==> Loadable(ls')
    ensures AllParsable(ls) && AllParsable(ls') && LoadedFrom(s, ls, pods) && LoadedFrom(s', ls', pods') ==> s == s'
  {
    PermutedListing(ls, ls', pods, pods');
    PermutedListing(ls', ls, pods', pods);
    if AllParsable(ls) && AllParsable(ls') && LoadedFrom(s, ls, pods) && LoadedFrom(s', ls', pods') {
      SameWraps(ls, ls', pods, pods');
      WrapAllDistinct(ls, pods);
      WrapAllDistinct(ls', pods');
      WrapRoleDistinct(ls, pods, Replica);
      WrapRoleDistinct(ls', pods', Replica);
      SameViews(s.all, s'.all, WrapAll(ls, pods), WrapAll(ls', pods'));
      SameViews(s.replicas, s'.replicas, WrapRole(ls, pods, Replica), WrapRole(ls', pods', Replica));
      SamePrimary(s.primary, s'.primary, WrapRole(ls, pods, Primary), WrapRole(ls', pods', Primary));
    }
  }

  lemma SamePrimary(p: Option<Wrapper>, p': Option<Wrapper>, ws: seq<Wrapper>, ws': seq<Wrapper>)
    requires ws == (if p.Some? then [p.value] else []) && ws' == (if p'.Some? then [p'.value] else [])
    requires SameElements(ws, ws')
    ensures p == p'
  {
    if p.Some? { assert p.value in ws; }
    if p'.Some? { assert p'.value in ws'; }
  }

  lemma {:induction false} RolesSplit(ls: seq<Listed>, pods: seq<ListedPod>)
    requires AllParsable(ls)
    ensures multiset(WrapAll(ls, pods))
            == multiset(WrapRole(ls, pods, Primary)) + multiset(WrapRole(ls, pods, Replica))
  {
    if ls != [] {
      RolesSplit(ls[..|ls| - 1], pods);
    }
  }

  /** Primary and replicas partition what is deployed, each view is a permutation of the other,
      and the counters are the true counts. */
  lemma LoadPartition(s: Snapshot, ls: seq<Listed>, pods: seq<ListedPod>)
    requires AllParsable(ls) && LoadedFrom(s, ls, pods)
    ensures multiset(s.all.ascending)
            == (if s.primary.Some? then multiset{s.primary.value} else multiset{}) + multiset(s.replicas.ascending)
    ensures multiset(s.all.descending) == multiset(s.all.ascending)
    ensures multiset(s.replicas.descending) == multiset(s.replicas.ascending)
    ensures s.deployed == |s.all.ascending| == s.replicasDeployed + if s.primary.Some? then 1 else 0
    ensures forall w :: w in s.replicas.ascending ==> w.content.role.Replica?
    ensures s.primary.Some? ==> s.primary.value.content.role.Primary?
  {
    RolesSplit(ls, pods);
    WrapAllFacts(ls, pods);
    SamePermutationSize(s.all.ascending, WrapAll(ls, pods));
    SamePermutationSize(WrapRole(ls, pods, Primary) + WrapRole(ls, pods, Replica), WrapAll(ls, pods));
    SamePermutationSize(s.replicas.ascending, WrapRole(ls, pods, Replica));
    RoleKept(s.replicas.ascending, ls, pods, Replica);
    RoleKept(WrapRole(ls, pods, Primary), ls, pods, Primary);
  }

  lemma SamePermutationSize(a: seq<Wrapper>, b: seq<Wrapper>)
    requires multiset(a) == multiset(b)
    ensures |a| == |b|
  {
    assert |multiset(a)| == |a| && |multiset(b)| == |b|;
  }

  lemma RoleKept(ws: seq<Wrapper>, ls: seq<Listed>, pods: seq<ListedPod>, role: Role)
    requires AllParsable(ls) && multiset(ws) == multiset(WrapRole(ls, pods, role))
    ensures forall w :: w in ws ==> w.content.role == role
  {
    forall w | w in ws ensures w.content.role == role {
      assert w in multiset(ws);
      assert w in WrapRole(ls, pods, role);
    }
  }

  // ---------- The loaded state and the world ----------

  /** The listing shows exactly the StatefulSets of the cluster. */
  ghost predicate Lists(ls: seq<Listed>, c: Cluster) {
    && AllParsable(ls) && DistinctIndices(ls)
    && (forall k :: 0 <= k < |ls| ==> Shows(ls[k], c))
    && (forall i :: i in c ==> exists k :: 0 <= k < |ls| && ParseIndex(ls[k].indexLabel) == Some(i))
  }

  ghost predicate Shows(l: Listed, c: Cluster)
    requires Parsable(l)
  {
    var i := ParseIndex(l.indexLabel).value;
    i >= 0 && i in c && l.content == c[i]
  }

  function Indices(ws: seq<Wrapper>): (q: seq<int>)
  {
    seq(|ws|, i requires 0 <= i < |ws| => ws[i].index)
  }

  lemma {:induction false} AscendingUnique(q: seq<int>, r: seq<nat>)
    requires forall i, j :: 0 <= i < j < |q| ==> q[i] < q[j]
    requires StrictlyAscending(r) && forall x :: x in q <==> x in r
    ensures q == r
  {
    assert |q| > 0 ==> q[0] in q;
    assert |r| > 0 ==> r[0] in r;
    if q != [] && r != [] {
      assert q[0] == r[0];
      forall x ensures x in q[1..] <==> x in r[1..] {
        assert x in q <==> x == q[0] || x in q[1..];
        assert x in r <==> x == r[0] || x in r[1..];
      }
      AscendingUnique(q[1..], r[1..]);
    }
  }

  lemma ShownRole(ls: seq<Listed>, pods: seq<ListedPod>, c: Cluster, role: Role, i: int)
    requires Lists(ls, c)
    ensures (exists w :: w in WrapRole(ls, pods, role) && w.index == i) <==> i in c && c[i].role == role
  {
    if w :| w in WrapRole(ls, pods, role) && w.index == i {
      var l :| l in ls && l.content.role == role && Wrap(l, pods) == w;
      var k :| 0 <= k < |ls| && ls[k] == l;
      assert Shows(ls[k], c);
    }
    if i in c && c[i].role == role {
      var k :| 0 <= k < |ls| && ParseIndex(ls[k].indexLabel) == Some(i);
      assert Shows(ls[k], c) && ls[k] in ls;
      assert Wrap(ls[k], pods) in WrapRole(ls, pods, role);
    }
  }

  lemma ShownIndex(v: Views, ls: seq<Listed>, pods: seq<ListedPod>, c: Cluster, x: int)
    requires Lists(ls, c) && SameElements(WrapRole(ls, pods, Replica), v.ascending)
    ensures x in Indices(v.ascending) <==> x in c && c[x].role.Replica?
  {
    ShownRole(ls, pods, c, Replica, x);
    IndexIn(v.ascending, x);
  }

  lemma ShownReplicas(s: Snapshot, ls: seq<Listed>, pods: seq<ListedPod>, c: Cluster)
    requires Lists(ls, c) && LoadedFrom(s, ls, pods)
    ensures Indices(s.replicas.ascending) == Ascending(ReplicaKeys(c))
  {
    WrapRoleDistinct(ls, pods, Replica);
    PermutationDistinct(WrapRole(ls, pods, Replica), s.replicas.ascending);
    ViewShown(s.replicas, ls, pods, c);
  }

  lemma ViewShown(v: Views, ls: seq<Listed>, pods: seq<ListedPod>, c: Cluster)
    requires Lists(ls, c) && SameElements(WrapRole(ls, pods, Replica), v.ascending)
    requires Ordered(v.ascending, false) && Distinct(v.ascending)
    ensures Indices(v.ascending) == Ascending(ReplicaKeys(c))
  {
    forall x: int ensures x in Indices(v.ascending) <==> x in Ascending(ReplicaKeys(c)) {
      ShownIndex(v, ls, pods, c, x);
    }
    AscendingUnique(Indices(v.ascending), Ascending(ReplicaKeys(c)));
  }

  lemma IndexIn(ws: seq<Wrapper>, x: int)
    ensures x in Indices(ws) <==> exists w :: w in ws && w.index == x
  {
    if x in Indices(ws) {
      var k :| 0 <= k < |ws| && Indices(ws)[k] == x;
      assert ws[k] in ws;
    }
    if w :| w in ws && w.index == x {
      var k :| 0 <= k < |ws| && ws[k] == w;
      assert Indices(ws)[k] == x;
    }
  }

  lemma ShownPrimary(s: Snapshot, ls: seq<Listed>, pods: seq<ListedPod>, c: Cluster)
    requires Lists(ls, c) && LoadedFrom(s, ls, pods)
    ensures s.primary.None? ==> Primaries(c) == {}
    ensures s.primary.Some? ==> Primaries(c) == {s.primary.value.index}
  {
    var ws := WrapRole(ls, pods, Primary);
    forall i ensures i in Primaries(c) <==> s.primary.Some? && i == s.primary.value.index {
      ShownRole(ls, pods, c, Primary, i);
      if s.primary.Some? {
        assert s.primary.value in ws;
      }
    }
  }

  lemma TwoElements(s: set<nat>, x: nat, y: nat)
    requires x in s && y in s && x != y
    ensures |s| > 1
  {
    SubsetSize({x, y}, s);
  }

  lemma TwoShown(ls: seq<Listed>, c: Cluster)
    requires Lists(ls, c) && TwoPrimaries(ls)
    ensures |Primaries(c)| > 1
  {
    var i, j :| 0 <= i < j < |ls| && ls[i].content.role.Primary? && ls[j].content.role.Primary?;
    assert Shows(ls[i], c) && Shows(ls[j], c);
    TwoElements(Primaries(c), ParseIndex(ls[i].indexLabel).value, ParseIndex(ls[j].indexLabel).value);
  }

  /** A listing of the cluster loads exactly when the cluster has at most one primary, and what
      is loaded is the view that the reconcile works on. */
  lemma LoadShowsWorld(s: Snapshot, ls: seq<Listed>, pods: seq<ListedPod>, w: World)
    requires Lists(ls, w.cluster)
    ensures Loadable(ls) ==> LoadedFrom(s, ls, pods) ==>
              && |Primaries(w.cluster)| <= 1
              && Indices(s.replicas.ascending) == ViewOf(w).replicas
              && ViewOf(w).primary == if s.primary.Some? then Some(s.primary.value.index) else None
    ensures !Loadable(ls) ==> |Primaries(w.cluster)| > 1
  {
    if !Loadable(ls) {
      TwoShown(ls, w.cluster);
    } else if LoadedFrom(s, ls, pods) {
      ShownReplicas(s, ls, pods, w.cluster);
      ShownPrimary(s, ls, pods, w.cluster);
    }
  }
}
