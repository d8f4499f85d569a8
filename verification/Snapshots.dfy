/** What one reconcile sees: the primary, the replicas in index order, the pods. */
module Snapshots {
  import opened Resources

  ghost predicate IsLeast(m: nat, s: set<nat>) {
    m in s && forall x :: x in s ==> m <= x
  }

  /** The smallest element of a set of indices. */
  function Least(s: set<nat>): (m: nat)
    requires s != {}
    ensures IsLeast(m, s)
  {
    LeastExists(s);
    var m :| m in s && forall x :: x in s ==> m <= x;
    m
  }

  lemma LeastExists(s: set<nat>)
    requires s != {}
    ensures exists m :: m in s && forall x :: x in s ==> m <= x
  {
    var m := FindLeast(s);
    assert IsLeast(m, s);
  }

  lemma {:induction false} FindLeast(s: set<nat>) returns (m: nat)
    requires s != {}
    ensures IsLeast(m, s)
  {
    m :| m in s;
    var rest := s - {m};
    assert s == rest + {m};
    if rest != {} {
      var n := FindLeast(rest);
      m := if m <= n then m else n;
    }
  }

  ghost predicate StrictlyAscending(q: seq<nat>) {
    forall i, j :: 0 <= i < j < |q| ==> q[i] < q[j]
  }

  function Ascending(s: set<nat>): (q: seq<nat>)
    ensures |q| == |s|
    ensures StrictlyAscending(q)
    ensures forall x :: x in q <==> x in s
  {
    if s == {} then []
    else
      var m := Least(s);
      [m] + Ascending(s - {m})
  }

  function Reversed(q: seq<nat>): (r: seq<nat>)
    ensures |r| == |q|
    ensures forall i :: 0 <= i < |q| ==> r[i] == q[|q| - 1 - i]
    ensures forall x :: x in r <==> x in q
  {
    if q == [] then [] else Reversed(q[1..]) + [q[0]]
  }

  datatype View = View(
    primary: Option<nat>,
    replicas: seq<nat>,
    sets: Cluster,
    pods: Pods,
    baseConfig: bool)
  {
    predicate Ready(i: nat) {
      i in sets && sets[i].ready
    }

    predicate PrimaryReady() {
      primary.Some? && Ready(primary.value)
    }

    predicate PodReady(i: nat) {
      i in pods && pods[i].Ready()
    }
  }

  /** The index of the primary is the least one should several carry that role; a reconcile
      stops before using it in that case. */
  function ViewOf(w: World): (v: View)
  {
    var p := Primaries(w.cluster);
    View(if p == {} then None else Some(Least(p)),
         Ascending(ReplicaKeys(w.cluster)),
         w.cluster, w.pods, w.baseConfig)
  }

  /** How a view relates to the cluster it was taken from. */
  lemma ViewFacts(w: World)
    ensures var v := ViewOf(w);
            && v.sets == w.cluster && v.pods == w.pods && v.baseConfig == w.baseConfig
            && (forall i :: i in v.replicas <==> i in w.cluster && w.cluster[i].role.Replica?)
            && |v.replicas| == |ReplicaKeys(w.cluster)|
            && (v.primary.Some? ==> v.primary.value in w.cluster && w.cluster[v.primary.value].role.Primary?)
            && (v.primary.None? <==> Primaries(w.cluster) == {})
            && (|Primaries(w.cluster)| <= 1 ==>
                  forall i :: i in w.cluster && w.cluster[i].role.Primary? ==> v.primary == Some(i))
  {
    var p := Primaries(w.cluster);
    forall i | i in w.cluster && w.cluster[i].role.Primary? && |p| <= 1
      ensures ViewOf(w).primary == Some(i)
    {
      assert i in p;
      OnlyElement(p, i, Least(p));
    }
  }

  lemma OnlyElement(s: set<nat>, a: nat, b: nat)
    requires |s| <= 1 && a in s && b in s
    ensures a == b
  {
    if a != b {
      assert {a, b} <= s;
      SubsetSize({a, b}, s);
    }
  }

  lemma SubsetSize(a: set<nat>, b: set<nat>)
    requires a <= b
    ensures |a| <= |b|
  {
    assert b == a + (b - a);
  }

  /** The first ready replica in index order. */
  function FirstReady(q: seq<nat>, v: View): (r: Option<nat>)
    ensures r.Some? ==> r.value in q && v.Ready(r.value)
    ensures r.None? ==> forall i :: i in q ==> !v.Ready(i)
  {
    if q == [] then None else if v.Ready(q[0]) then Some(q[0]) else FirstReady(q[1..], v)
  }

  function FirstUnready(q: seq<nat>, v: View): (r: Option<nat>)
    ensures r.Some? ==> r.value in q && !v.Ready(r.value)
    ensures r.None? ==> forall i :: i in q ==> v.Ready(i)
  {
    if q == [] then None else if !v.Ready(q[0]) then Some(q[0]) else FirstUnready(q[1..], v)
  }

  lemma {:induction false} FirstReadyIsLowest(q: seq<nat>, v: View, j: nat)
    requires StrictlyAscending(q) && j in q && v.Ready(j)
    ensures FirstReady(q, v).Some? && FirstReady(q, v).value <= j
  {
    if !v.Ready(q[0]) {
      FirstReadyIsLowest(q[1..], v, j);
    } else {
      var k :| 0 <= k < |q| && q[k] == j;
    }
  }

  lemma {:induction false} FirstUnreadyIsLowest(q: seq<nat>, v: View, j: nat)
    requires StrictlyAscending(q) && j in q && !v.Ready(j)
    ensures FirstUnready(q, v).Some? && FirstUnready(q, v).value <= j
  {
    if v.Ready(q[0]) {
      FirstUnreadyIsLowest(q[1..], v, j);
    } else {
      var k :| 0 <= k < |q| && q[k] == j;
    }
  }
}
