/** Loading the deployed StatefulSets from a listing in any order into the primary, the
    replicas and two sorted views. */
module StateLoading {
  import opened Resources

  // ---------- The index label ----------

  const DIGITS := "0123456789"

  function DigitOf(c: char): (d: Option<nat>)
    ensures d.Some? ==> d.value < 10 && DIGITS[d.value] == c
  {
    if '0' <= c <= '9' then Some(c as int - '0' as int) else None
  }

  /** The value of a non-empty run of decimal digits. */
  function ParseDigits(s: string): (n: Option<nat>)
  {
    if s == "" then None
    else
      var d := DigitOf(s[|s| - 1]);
      if d.None? then None
      else if |s| == 1 then d
      else
        var rest := ParseDigits(s[..|s| - 1]);
        if rest.None? then None else Some(10 * rest.value + d.value)
  }

  /** A signed decimal number that fits in 32 bits. */
  function ParseIndex(s: string): (n: Option<int>)
    ensures n.Some? ==> -0x8000_0000 <= n.value < 0x8000_0000
  {
    var negative := s != "" && s[0] == '-';
    var digits := if s != "" && (s[0] == '-' || s[0] == '+') then s[1..] else s;
    match ParseDigits(digits)
    case None => None
    case Some(m) =>
      var v := if negative then 0 - m else m;
      if -0x8000_0000 <= v < 0x8000_0000 then Some(v) else None
  }

  /** The label that the operator gives to instance `n`. */
  function IndexLabel(n: nat): (s: string)
    ensures s != ""
  {
    if n < 10 then [DIGITS[n]] else IndexLabel(n / 10) + [DIGITS[n % 10]]
  }

  lemma {:induction false} DigitsRoundTrip(n: nat)
    ensures ParseDigits(IndexLabel(n)) == Some(n)
    ensures IndexLabel(n)[0] in DIGITS
  {
    if n >= 10 {
      DigitsRoundTrip(n / 10);
      var s := IndexLabel(n);
      assert s[..|s| - 1] == IndexLabel(n / 10);
    }
  }

  /** The label written at creation is read back as the same index. */
  lemma LabelRoundTrip(n: nat)
    requires n < 0x8000_0000
    ensures ParseIndex(IndexLabel(n)) == Some(n)
  {
    DigitsRoundTrip(n);
    assert '-' !in DIGITS && '+' !in DIGITS;
  }

  // ---------- Listings ----------

  datatype Listed = Listed(indexLabel: string, content: StatefulSet)

  datatype ListedPod = ListedPod(index: int, pod: Pod)

  datatype Wrapper = Wrapper(index: int, content: StatefulSet, pod: Option<Pod>)

  /** The first pod listed under an index. */
  function PodAt(pods: seq<ListedPod>, i: int): (r: Option<Pod>)
    ensures r.Some? ==> ListedPod(i, r.value) in pods
    ensures r.None? ==> forall p :: p in pods ==> p.index != i
  {
    if pods == [] then None
    else if pods[0].index == i then Some(pods[0].pod)
    else PodAt(pods[1..], i)
  }

  predicate Parsable(l: Listed) {
    ParseIndex(l.indexLabel).Some?
  }

  function Wrap(l: Listed, pods: seq<ListedPod>): (w: Wrapper)
    requires Parsable(l)
  {
    var i := ParseIndex(l.indexLabel).value;
    Wrapper(i, l.content, PodAt(pods, i))
  }

  predicate AllParsable(ls: seq<Listed>) {
    forall i :: 0 <= i < |ls| ==> Parsable(ls[i])
  }

  predicate TwoPrimaries(ls: seq<Listed>) {
    exists i, j :: 0 <= i < j < |ls| && ls[i].content.role.Primary? && ls[j].content.role.Primary?
  }

  predicate Loadable(ls: seq<Listed>) {
    AllParsable(ls) && !TwoPrimaries(ls)
  }

  /** The wrappers of the listed StatefulSets of one role, in listing order. */
  function WrapRole(ls: seq<Listed>, pods: seq<ListedPod>, role: Role): (ws: seq<Wrapper>)
    requires AllParsable(ls)
    ensures forall w :: w in ws <==> exists l :: l in ls && l.content.role == role && Wrap(l, pods) == w
  {
    if ls == [] then []
    else
      var init, last := ls[..|ls| - 1], ls[|ls| - 1];
      assert ls == init + [last];
      WrapRole(init, pods, role) + (if last.content.role == role then [Wrap(last, pods)] else [])
  }

  function WrapAll(ls: seq<Listed>, pods: seq<ListedPod>): (ws: seq<Wrapper>)
    requires AllParsable(ls)
  {
    if ls == [] then [] else WrapAll(ls[..|ls| - 1], pods) + [Wrap(ls[|ls| - 1], pods)]
  }

  function CountReady(ws: seq<Wrapper>): (n: nat)
  {
    if ws == [] then 0 else CountReady(ws[..|ws| - 1]) + (if ws[|ws| - 1].content.ready then 1 else 0)
  }

  // ---------- Sorting ----------

  predicate InOrder(a: Wrapper, b: Wrapper, descending: bool) {
    if descending then a.index >= b.index else a.index <= b.index
  }

  ghost predicate Ordered(ws: seq<Wrapper>, descending: bool) {
    forall i, j :: 0 <= i < j < |ws| ==> InOrder(ws[i], ws[j], descending)
  }

  /** Everything in `ws` may stand before `w`. */
  ghost predicate Before(ws: seq<Wrapper>, w: Wrapper, descending: bool) {
    forall x :: x in ws ==> InOrder(x, w, descending)
  }

  lemma OrderedAppend(ws: seq<Wrapper>, w: Wrapper, descending: bool)
    requires Ordered(ws, descending) && Before(ws, w, descending)
    ensures Ordered(ws + [w], descending)
  {
    forall i, j | 0 <= i < j < |ws + [w]| ensures InOrder((ws + [w])[i], (ws + [w])[j], descending) {
      assert (ws + [w])[i] == ws[i] && ws[i] in ws;
    }
  }

  function Insert(ws: seq<Wrapper>, w: Wrapper, descending: bool): (r: seq<Wrapper>)
    ensures multiset(r) == multiset(ws) + multiset{w}
    ensures forall x :: x in r <==> x == w || x in ws
  {
    if ws == [] || InOrder(ws[|ws| - 1], w, descending) then ws + [w]
    else
      assert ws == ws[..|ws| - 1] + [ws[|ws| - 1]];
      Insert(ws[..|ws| - 1], w, descending) + [ws[|ws| - 1]]
  }

  lemma {:induction false} InsertOrders(ws: seq<Wrapper>, w: Wrapper, descending: bool)
    requires Ordered(ws, descending)
    ensures Ordered(Insert(ws, w, descending), descending)
  {
    if ws == [] || InOrder(ws[|ws| - 1], w, descending) {
      OrderedAppend(ws, w, descending);
    } else {
      var init, last := ws[..|ws| - 1], ws[|ws| - 1];
      InsertOrders(init, w, descending);
      OrderedAppend(Insert(init, w, descending), last, descending);
    }
  }

  /** The library's sort: some ordered permutation. */
  function Sorted(ws: seq<Wrapper>, descending: bool): (r: seq<Wrapper>)
    ensures multiset(r) == multiset(ws)
    ensures Ordered(r, descending)
  {
    if ws == [] then []
    else
      assert ws == ws[..|ws| - 1] + [ws[|ws| - 1]];
      InsertOrders(Sorted(ws[..|ws| - 1], descending), ws[|ws| - 1], descending);
      Insert(Sorted(ws[..|ws| - 1], descending), ws[|ws| - 1], descending)
  }

  /** One order of the two views determines the other only up to equal indices; with distinct
      indices an ordered permutation is unique. */
  ghost predicate Distinct(ws: seq<Wrapper>) {
    forall i, j :: 0 <= i < j < |ws| ==> ws[i].index != ws[j].index
  }

  ghost predicate SameElements(a: seq<Wrapper>, b: seq<Wrapper>) {
    forall w :: w in a <==> w in b
  }

  lemma {:induction false} OrderedUnique(a: seq<Wrapper>, b: seq<Wrapper>, descending: bool)
    requires Ordered(a, descending) && Ordered(b, descending) && Distinct(a) && Distinct(b)
    requires SameElements(a, b) && |a| == |b|
    ensures a == b
  {
    if a != [] {
      assert a[0] in a && a[0] in b;
      assert b[0] in b && b[0] in a;
      var i :| 0 <= i < |a| && a[i] == b[0];
      var j :| 0 <= j < |b| && b[j] == a[0];
      assert i == 0 && j == 0;
      var ta, tb := a[1..], b[1..];
      assert SameElements(ta, tb) by {
        forall w ensures w in ta <==> w in tb {
          assert w in a <==> w == a[0] || w in ta;
          assert w in b <==> w == b[0] || w in tb;
          if w == a[0] { NotInTail(a); NotInTail(b); }
        }
      }
      OrderedUnique(ta, tb, descending);
    }
  }

  lemma NotInTail(a: seq<Wrapper>)
    requires a != [] && Distinct(a)
    ensures a[0] !in a[1..]
  {
  }

  lemma PermutationDistinct(a: seq<Wrapper>, b: seq<Wrapper>)
    requires multiset(a) == multiset(b) && Distinct(a)
    ensures Distinct(b) && SameElements(a, b)
  {
    forall w ensures w in a <==> w in b {
      assert w in a <==> w in multiset(a);
      assert w in b <==> w in multiset(b);
    }
    forall i, j | 0 <= i < j < |b| ensures b[i].index != b[j].index {
      if b[i].index == b[j].index {
        assert b[i] in b && b[j] in b;
        SameIndexSame(a, b[i], b[j]);
        assert b == b[..i] + [b[i]] + b[i + 1..j] + [b[j]] + b[j + 1..];
        assert multiset(b)[b[i]] >= 2;
        AtMostOnce(a, b[i]);
      }
    }
  }

  lemma SameIndexSame(a: seq<Wrapper>, x: Wrapper, y: Wrapper)
    requires Distinct(a) && x in a && y in a && x.index == y.index
    ensures x == y
  {
  }

  lemma {:induction false} AtMostOnce(a: seq<Wrapper>, x: Wrapper)
    requires Distinct(a)
    ensures multiset(a)[x] <= 1
  {
    if a != [] {
      AtMostOnce(a[1..], x);
      assert a == [a[0]] + a[1..];
      NotInTail(a);
      assert multiset(a) == multiset{a[0]} + multiset(a[1..]);
      assert a[0] in multiset(a[1..]) <==> a[0] in a[1..];
    }
  }

  lemma {:induction false} CountReadyAppend(a: seq<Wrapper>, b: seq<Wrapper>)
    ensures CountReady(a + b) == CountReady(a) + CountReady(b)
    decreases |b|
  {
    if b == [] {
      assert a + b == a;
    } else {
      CountReadyAppend(a, b[..|b| - 1]);
      assert (a + b)[..|a + b| - 1] == a + b[..|b| - 1];
    }
  }

  lemma TakenOut(a: seq<Wrapper>, b: seq<Wrapper>) returns (l: seq<Wrapper>, r: seq<Wrapper>)
    requires a != [] && multiset(a) == multiset(b)
    ensures b == l + [a[|a| - 1]] + r && multiset(a[..|a| - 1]) == multiset(l + r)
  {
    var last := a[|a| - 1];
    assert a == a[..|a| - 1] + [last];
    assert last in multiset(b);
    var j :| 0 <= j < |b| && b[j] == last;
    l, r := b[..j], b[j + 1..];
    assert b == l + [last] + r;
    assert multiset(b) == multiset(l) + multiset{last} + multiset(r);
    assert multiset(l + r) == multiset(l) + multiset(r);
    assert multiset(a) == multiset(a[..|a| - 1]) + multiset{last};
    assert multiset(a[..|a| - 1]) == multiset(a) - multiset{last};
  }

  /** The number of ready ones does not depend on the order. */
  lemma {:induction false} CountReadyPermutes(a: seq<Wrapper>, b: seq<Wrapper>)
    requires multiset(a) == multiset(b)
    ensures CountReady(a) == CountReady(b)
  {
    if a == [] {
      assert |multiset(b)| == |b|;
    } else {
      var last := a[|a| - 1];
      var l, r := TakenOut(a, b);
      CountReadyPermutes(a[..|a| - 1], l + r);
      CountReadyAppend(l, r);
      CountReadyAppend(l, [last]);
      CountReadyAppend(l + [last], r);
    }
  }

  // ---------- The loaded state ----------

  datatype Views = Views(ascending: seq<Wrapper>, descending: seq<Wrapper>)

  /** The two views are ordered permutations of `ws`. */
  ghost predicate ViewsOf(v: Views, ws: seq<Wrapper>) {
    && Ordered(v.ascending, false) && Ordered(v.descending, true)
    && multiset(v.ascending) == multiset(ws) && multiset(v.descending) == multiset(ws)
  }

  datatype Snapshot = Snapshot(
    deployed: nat,
    primary: Option<Wrapper>,
    replicas: Views,
    replicasDeployed: nat,
    replicasReady: nat,
    all: Views)

  /** What loading a listing yields. */
  ghost predicate LoadedFrom(s: Snapshot, ls: seq<Listed>, pods: seq<ListedPod>)
    requires AllParsable(ls)
  {
    && s.deployed == |ls|
    && PrimaryOf(s.primary, ls, pods)
    && ViewsOf(s.all, WrapAll(ls, pods))
    && ViewsOf(s.replicas, WrapRole(ls, pods, Replica))
    && s.replicasDeployed == |s.replicas.ascending|
    && s.replicasReady == CountReady(s.replicas.ascending)
  }

  /** The wrappers of primaries are exactly the one recorded, if any. */
  ghost predicate PrimaryOf(p: Option<Wrapper>, ls: seq<Listed>, pods: seq<ListedPod>)
    requires AllParsable(ls)
  {
    WrapRole(ls, pods, Primary) == if p.Some? then [p.value] else []
  }

  ghost predicate Added(v: Views, w: Wrapper, v': Views) {
    && Ordered(v'.ascending, false) && Ordered(v'.descending, true)
    && multiset(v'.ascending) == multiset(v.ascending + [w])
    && multiset(v'.descending) == multiset(v.descending + [w])
  }

  lemma AddedViews(v: Views, ws: seq<Wrapper>, w: Wrapper, v': Views)
    requires ViewsOf(v, ws) && Added(v, w, v')
    ensures ViewsOf(v', ws + [w])
    ensures |v'.ascending| == |v.ascending| + 1
    ensures CountReady(v'.ascending) == CountReady(v.ascending) + if w.content.ready then 1 else 0
  {
    assert |multiset(v'.ascending)| == |v'.ascending| && |multiset(v.ascending + [w])| == |v.ascending| + 1;
    CountReadyPermutes(v'.ascending, v.ascending + [w]);
    CountReadyAppend(v.ascending, [w]);
  }

  /** How one more StatefulSet changes the loaded state. */
  ghost predicate Extended(s: Snapshot, w: Wrapper, s': Snapshot) {
    && Added(s.all, w, s'.all)
    && if w.content.role.Primary? then
         && s.primary.None? && s'.primary == Some(w)
         && (s'.replicas, s'.replicasDeployed, s'.replicasReady) == (s.replicas, s.replicasDeployed, s.replicasReady)
       else
         && s'.primary == s.primary && Added(s.replicas, w, s'.replicas)
         && s'.replicasDeployed == s.replicasDeployed + 1
         && s'.replicasReady == s.replicasReady + if w.content.ready then 1 else 0
  }

  /** The state after the first `n` StatefulSets of the listing. */
  ghost predicate LoadedPart(s: Snapshot, ls: seq<Listed>, pods: seq<ListedPod>, n: nat) {
    n <= |ls| && AllParsable(ls[..n]) && LoadedFrom(s.(deployed := n), ls[..n], pods)
  }

  lemma ExtendedLoad(s: Snapshot, s': Snapshot, ls: seq<Listed>, pods: seq<ListedPod>, n: nat)
    requires n < |ls| && LoadedPart(s, ls, pods, n) && Parsable(ls[n])
    requires Extended(s, Wrap(ls[n], pods), s')
    ensures LoadedPart(s', ls, pods, n + 1)
  {
    var w := Wrap(ls[n], pods);
    OneMore(ls, pods, n);
    AddedViews(s.all, WrapAll(ls[..n], pods), w, s'.all);
    if w.content.role.Replica? {
      AddedViews(s.replicas, WrapRole(ls[..n], pods, Replica), w, s'.replicas);
      assert WrapRole(ls[..n + 1], pods, Primary) == WrapRole(ls[..n], pods, Primary);
    } else {
      assert WrapRole(ls[..n + 1], pods, Replica) == WrapRole(ls[..n], pods, Replica);
    }
  }

  class Wrappers {
    var ascending: seq<Wrapper>
    var descending: seq<Wrapper>

    constructor ()
      ensures Contents() == Views([], [])
    {
      ascending, descending := [], [];
    }

    function Contents(): (v: Views)
      reads this
    {
      Views(ascending, descending)
    }

    /** Append and sort again, both ways. */
    method Add(w: Wrapper)
      modifies this
      ensures Added(old(Contents()), w, Contents())
    {
      ascending := Sorted(ascending + [w], false);
      descending := Sorted(descending + [w], true);
    }

    method GetByInstanceIndex(i: int) returns (r: Option<Wrapper>)
      ensures r.Some? ==> r.value in ascending && r.value.index == i
      ensures r.None? ==> forall w :: w in ascending ==> w.index != i
    {
      for k := 0 to |ascending|
        invariant forall j :: 0 <= j < k ==> ascending[j].index != i
      {
        if ascending[k].index == i {
          return Some(ascending[k]);
        }
      }
      return None;
    }
  }

  class States {
    const replicas: Wrappers
    const all: Wrappers
    var deployed: nat
    var primary: Option<Wrapper>
    var replicasDeployed: nat
    var replicasReady: nat

    constructor ()
      ensures fresh(replicas) && fresh(all) && replicas != all
      ensures State() == Snapshot(0, None, Views([], []), 0, 0, Views([], []))
    {
      replicas := new Wrappers();
      all := new Wrappers();
      deployed, primary, replicasDeployed, replicasReady := 0, None, 0, 0;
    }

    function State(): (s: Snapshot)
      reads this, replicas, all
    {
      Snapshot(deployed, primary, replicas.Contents(), replicasDeployed, replicasReady, all.Contents())
    }

    /** Fails exactly when an index label cannot be read or two StatefulSets are primary. */
    method Load(ls: seq<Listed>, pods: seq<ListedPod>) returns (ok: bool)
      requires State() == Snapshot(0, None, Views([], []), 0, 0, Views([], [])) && replicas != all
      modifies this, replicas, all
      ensures ok <==> Loadable(ls)
      ensures ok ==> LoadedFrom(State(), ls, pods)
    {
      deployed, ok := |ls|, true;
      var n := 0;
      LoadedNothing(State(), ls, pods);
      while n < |ls|
        invariant n <= |ls| && deployed == |ls| && ok
        invariant LoadedPart(State(), ls, pods, n)
      {
        ghost var before := State();
        ok := Append(ls[n], pods);
        if !ok {
          NotLoadable(before, ls, pods, n);
          return;
        }
        ExtendedLoad(before, State(), ls, pods, n);
        n := n + 1;
      }
      LoadedAll(State(), ls, pods);
    }

    method Append(l: Listed, pods: seq<ListedPod>) returns (ok: bool)
      requires replicas != all
      modifies this, replicas, all
      ensures deployed == old(deployed)
      ensures ok <==> Parsable(l) && (l.content.role.Primary? ==> old(primary).None?)
      ensures ok ==> Extended(old(State()), Wrap(l, pods), State())
    {
      var i := ParseIndex(l.indexLabel);
      if i.None? {
        return false;
      }
      var w := Wrapper(i.value, l.content, PodAt(pods, i.value));
      all.Add(w);
      if l.content.role.Primary? {
        if primary.Some? {
          return false;
        }
        primary := Some(w);
      } else {
        replicasDeployed := replicasDeployed + 1;
        replicas.Add(w);
        if w.content.ready {
          replicasReady := replicasReady + 1;
        }
      }
      return true;
    }
  }

  lemma NotLoadable(s: Snapshot, ls: seq<Listed>, pods: seq<ListedPod>, n: nat)
    requires n < |ls| && LoadedPart(s, ls, pods, n)
    requires !Parsable(ls[n]) || (ls[n].content.role.Primary? && s.primary.Some?)
    ensures !Loadable(ls)
  {
    if Parsable(ls[n]) {
      assert s.primary.value in WrapRole(ls[..n], pods, Primary);
      SecondPrimary(ls, pods, n, s.primary.value);
    }
  }

  lemma LoadedNothing(s: Snapshot, ls: seq<Listed>, pods: seq<ListedPod>)
    requires s == Snapshot(|ls|, None, Views([], []), 0, 0, Views([], []))
    ensures LoadedPart(s, ls, pods, 0)
  {
  }

  lemma LoadedAll(s: Snapshot, ls: seq<Listed>, pods: seq<ListedPod>)
    requires LoadedPart(s, ls, pods, |ls|) && s.deployed == |ls|
    ensures Loadable(ls) && LoadedFrom(s, ls, pods)
  {
    assert ls[..|ls|] == ls && s.(deployed := |ls|) == s;
    PrimaryUnique(ls, pods, s.primary);
  }

  lemma OneMore(ls: seq<Listed>, pods: seq<ListedPod>, n: nat)
    requires n < |ls| && AllParsable(ls[..n]) && Parsable(ls[n])
    ensures AllParsable(ls[..n + 1])
    ensures WrapAll(ls[..n + 1], pods) == WrapAll(ls[..n], pods) + [Wrap(ls[n], pods)]
    ensures forall role :: WrapRole(ls[..n + 1], pods, role)
                           == WrapRole(ls[..n], pods, role)
                              + if ls[n].content.role == role then [Wrap(ls[n], pods)] else []
  {
    assert ls[..n + 1] == ls[..n] + [ls[n]];
    assert ls[..n + 1][..n] == ls[..n];
  }

  lemma SecondPrimary(ls: seq<Listed>, pods: seq<ListedPod>, n: nat, p: Wrapper)
    requires n < |ls| && AllParsable(ls[..n]) && ls[n].content.role.Primary?
    requires p in WrapRole(ls[..n], pods, Primary)
    ensures TwoPrimaries(ls)
  {
    var l :| l in ls[..n] && l.content.role.Primary? && Wrap(l, pods) == p;
    var i :| 0 <= i < n && ls[..n][i] == l;
    assert ls[i].content.role.Primary?;
  }

  lemma {:induction false} RoleCount(ls: seq<Listed>, pods: seq<ListedPod>, i: int, j: int)
    requires AllParsable(ls) && 0 <= i < j < |ls|
    requires ls[i].content.role.Primary? && ls[j].content.role.Primary?
    ensures |WrapRole(ls, pods, Primary)| >= 2
  {
    var init := ls[..|ls| - 1];
    if j < |ls| - 1 {
      RoleCount(init, pods, i, j);
    } else {
      assert init[i] in init && Wrap(init[i], pods) in WrapRole(init, pods, Primary);
    }
  }

  lemma PrimaryUnique(ls: seq<Listed>, pods: seq<ListedPod>, p: Option<Wrapper>)
    requires AllParsable(ls) && PrimaryOf(p, ls, pods)
    ensures !TwoPrimaries(ls)
  {
    if TwoPrimaries(ls) {
      var i, j :| 0 <= i < j < |ls| && ls[i].content.role.Primary? && ls[j].content.role.Primary?;
      RoleCount(ls, pods, i, j);
    }
  }
}
