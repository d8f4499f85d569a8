/** Exactly which StatefulSet is updated, said of the stored state and of the answers from outside. */
module UpdateDecisions {
  import opened Resources
  import opened BlockingOperations
  import opened Snapshots
  import opened Enforcement
  import opened Reconciling
  import opened Effects
  import opened Steps
  import opened Decisions
  import opened RollingUpdate
  import opened PodVerification

  // ---------- What is recorded about an update ----------

  /** The text of the differences tells which fields were asked for. */
  lemma DifferencesIdentify(want: Fields, want': Fields, f: Fields)
    ensures Differences(want, f) == Differences(want', f) <==> want == want'
  {
    var i, i' := FieldDifference("Image", f.image, want.image), FieldDifference("Image", f.image, want'.image);
    var p, p' := FieldDifference("Port", f.port, want.port), FieldDifference("Port", f.port, want'.port);
    var o, o' := FieldDifference("Other", f.other, want.other), FieldDifference("Other", f.other, want'.other);
    if Differences(want, f) == Differences(want', f) {
      assert i + p + o == i' + p' + o';
      assert "Image"[0] != "Port"[0] && "Image"[0] != "Other"[0] && "Port"[0] != "Other"[0];
      SameParts(i, p, o, i', p', o');
    }
  }

  /** A list with at most one entry, under the name. */
  predicate Entries(d: seq<Difference>, name: string) {
    |d| <= 1 && forall x :: x in d ==> x.field == name
  }

  lemma SameParts(i: seq<Difference>, p: seq<Difference>, o: seq<Difference>,
                  i': seq<Difference>, p': seq<Difference>, o': seq<Difference>)
    requires i + p + o == i' + p' + o'
    requires Entries(i, "Image") && Entries(i', "Image") && Entries(p, "Port") && Entries(p', "Port")
    requires Entries(o, "Other") && Entries(o', "Other")
    requires "Image" != "Port" && "Image" != "Other" && "Port" != "Other"
    ensures i == i' && p == p' && o == o'
  {
    var d := i + p + o;
    forall x ensures x in i <==> x in d && x.field == "Image" {}
    forall x ensures x in i' <==> x in d && x.field == "Image" {}
    forall x ensures x in p <==> x in d && x.field == "Port" {}
    forall x ensures x in p' <==> x in d && x.field == "Port" {}
    forall x ensures x in o <==> x in d && x.field == "Other" {}
    forall x ensures x in o' <==> x in d && x.field == "Other" {}
    SameSingle(i, i');
    SameSingle(p, p');
    SameSingle(o, o');
  }

  lemma SameSingle(d: seq<Difference>, d': seq<Difference>)
    requires |d| <= 1 && |d'| <= 1 && forall x :: x in d <==> x in d'
    ensures d == d'
  {
    assert d != [] ==> d[0] in d';
    assert d' != [] ==> d'[0] in d;
  }

  // ---------- The order of the update ----------

  /** The instance takes part in the rolling update. */
  predicate RolledOut(w: World, x: nat) {
    x in w.cluster && (w.spec.standby ==> w.cluster[x].role.Replica?)
  }

  /** The rolling update comes to `j` before `x`, or `j` is `x`: replicas from the highest index
      down, then the primary. */
  predicate NotAfter(w: World, j: nat, x: nat) {
    && RolledOut(w, j) && RolledOut(w, x)
    && (w.cluster[x].role.Replica? ==> w.cluster[j].role.Replica? && x <= j)
  }

  /** Everything that comes before `y` has the wanted fields, and `y` has not. */
  predicate FirstToUpdate(w: World, y: nat) {
    && RolledOut(w, y) && w.cluster[y].fields != w.spec.fields
    && forall j :: j != y && j in w.cluster && NotAfter(w, j, y) ==> w.cluster[j].fields == w.spec.fields
  }

  lemma PlaceOf(w: World, x: nat) returns (k: nat)
    requires |Primaries(w.cluster)| <= 1 && RolledOut(w, x)
    ensures k < |RolloutOrder(w.spec.standby, ViewOf(w))| && RolloutOrder(w.spec.standby, ViewOf(w))[k] == x
  {
    OrderCovers(w, w.spec.standby, x);
    k :| k < |RolloutOrder(w.spec.standby, ViewOf(w))| && RolloutOrder(w.spec.standby, ViewOf(w))[k] == x;
  }

  /** What does not come after the instance at place `k` is at that place or before. */
  lemma PlacedBefore(w: World, k: nat, x: nat) returns (m: nat)
    requires |Primaries(w.cluster)| <= 1 && k < |RolloutOrder(w.spec.standby, ViewOf(w))|
    requires NotAfter(w, x, RolloutOrder(w.spec.standby, ViewOf(w))[k])
    ensures m <= k && RolloutOrder(w.spec.standby, ViewOf(w))[m] == x
  {
    m := PlaceOf(w, x);
    if k < m {
      OrderMeans(w, w.spec.standby, k, m);
    }
  }

  lemma PlacedNotAfter(w: World, m: nat, k: nat)
    requires |Primaries(w.cluster)| <= 1 && m <= k < |RolloutOrder(w.spec.standby, ViewOf(w))|
    ensures var order := RolloutOrder(w.spec.standby, ViewOf(w));
            NotAfter(w, order[m], order[k]) && (m < k ==> order[m] != order[k])
  {
    var order := RolloutOrder(w.spec.standby, ViewOf(w));
    OrderCovers(w, w.spec.standby, order[m]);
    OrderCovers(w, w.spec.standby, order[k]);
    if m < k {
      OrderMeans(w, w.spec.standby, m, k);
    }
  }

  /** The place of `y` in the order, as the loop finds it. */
  predicate FirstAt(w: World, k: int, y: nat) {
    FirstDiffering(w.spec.fields, ViewOf(w), RolloutOrder(w.spec.standby, ViewOf(w)), k, y)
  }

  lemma FirstAtMeans(w: World, k: int, y: nat)
    requires |Primaries(w.cluster)| <= 1 && FirstAt(w, k, y)
    ensures FirstToUpdate(w, y)
  {
    PlacedNotAfter(w, k, k);
    DifferencesFade(w, y);
    forall j | j != y && j in w.cluster && NotAfter(w, j, y) ensures w.cluster[j].fields == w.spec.fields {
      var m := PlacedBefore(w, k, j);
      DifferencesFade(w, j);
    }
  }

  lemma FirstPlaced(w: World, y: nat) returns (k: nat)
    requires |Primaries(w.cluster)| <= 1 && FirstToUpdate(w, y)
    ensures FirstAt(w, k, y)
  {
    k := PlaceOf(w, y);
    var order := RolloutOrder(w.spec.standby, ViewOf(w));
    DifferencesFade(w, y);
    forall j | 0 <= j < k ensures DifferencesAt(w.spec.fields, ViewOf(w), order[j]) == [] {
      PlacedNotAfter(w, j, k);
      DifferencesFade(w, order[j]);
    }
  }

  // ---------- The loop ----------

  /** The loop ends on `x`: the same update of `x` has timed out, or `x` needs none and its pod is
      not seen to be as it should be. */
  predicate StopsAt(l: Lock, want: Fields, v: View, x: nat, a: Replies) {
    || (UpdateTimedOutOn(l, x) && l.active.differences == DifferencesAt(want, v, x))
    || (DifferencesAt(want, v, x) == [] && ParkedOn(l, x) && !(PodVerified(want, v, x) && a.serviceDeleteOk))
  }

  predicate StopsBy(l: Lock, want: Fields, v: View, order: seq<nat>, k: int, a: Replies)
    requires k < |order|
  {
    exists m :: 0 <= m <= k && StopsAt(l, want, v, order[m], a)
  }

  /** On an instance that needs no update the loop stops, or goes on with the lock as it is or
      free. */
  lemma PassesOver(p: Pass, v: View, order: seq<nat>, a: Replies) returns (q: Pass)
    requires order != [] && DifferencesAt(p.spec.fields, v, order[0]) == []
    requires Untouched(p, v) && !p.failed && !OtherActive(p.lock, StatefulSetSpec)
    ensures StopsAt(p.lock, p.spec.fields, v, order[0], a) ==> Rollout(p, v, order, a).calls == []
    ensures !StopsAt(p.lock, p.spec.fields, v, order[0], a) ==>
              && Rollout(p, v, order, a) == Rollout(q, v, order[1..], a)
              && Untouched(q, v) && !q.failed && q.spec == p.spec
              && (q.lock == p.lock
                  || (!IsActive(q.lock) && (UpdateTimedOutOn(p.lock, order[0]) || ParkedOn(p.lock, order[0]))))
  {
    RolloutTurn(p, v, order, a);
    VerifyPodFacts(p, v, order[0], a);
    q := if ParkedOn(p.lock, order[0]) then VerifyPod(p, v, order[0], a) else Reopened(p, order[0]);
  }

  lemma FreeNeverStops(l: Lock, want: Fields, v: View, order: seq<nat>, k: int, a: Replies)
    requires !IsActive(l) && k < |order|
    ensures !StopsBy(l, want, v, order, k, a)
  {
  }

  /** Whether the loop stops is decided by the instance that the lock is about. */
  lemma StopsLater(l: Lock, q: Lock, want: Fields, v: View, order: seq<nat>, k: int, a: Replies)
    requires 0 < k < |order| && !StopsAt(l, want, v, order[0], a)
    requires l.active.hasTimedOut ==> l.active.step != TransitionStep
    requires q == l || (!IsActive(q) && (UpdateTimedOutOn(l, order[0]) || ParkedOn(l, order[0])))
    ensures StopsBy(l, want, v, order, k, a) <==> StopsBy(q, want, v, order[1..], k - 1, a)
  {
    var rest := order[1..];
    forall m | 0 <= m <= k - 1 ensures rest[m] == order[m + 1] {}
    if q != l {
      FreeNeverStops(q, want, v, rest, k - 1, a);
    } else if StopsBy(l, want, v, order, k, a) {
      var m :| 0 <= m <= k && StopsAt(l, want, v, order[m], a);
      assert StopsAt(l, want, v, rest[m - 1], a);
    }
  }

  lemma FirstDifferingLater(want: Fields, v: View, order: seq<nat>, k: int)
    requires 0 < k < |order| && FirstDiffering(want, v, order, k, order[k])
    ensures FirstDiffering(want, v, order[1..], k - 1, order[1..][k - 1])
  {
    var rest := order[1..];
    forall j | 0 <= j < k - 1 ensures DifferencesAt(want, v, rest[j]) == [] {
      assert rest[j] == order[j + 1];
    }
  }

  /** The loop updates the first instance that differs unless it stops on the way. */
  lemma {:induction false} LoopExactly(p: Pass, v: View, order: seq<nat>, k: int, a: Replies)
    requires Untouched(p, v) && !p.failed && !OtherActive(p.lock, StatefulSetSpec)
    requires 0 <= k < |order| && FirstDiffering(p.spec.fields, v, order, k, order[k])
    ensures Rollout(p, v, order, a).calls
            == if StopsBy(p.lock, p.spec.fields, v, order, k, a) then []
               else [Call(UpdateFields, order[k], a.updateOk && order[k] in v.sets)]
    decreases |order|
  {
    if k == 0 {
      RolloutTurn(p, v, order, a);
      UpdateOneFacts(Reopened(p, order[0]), v, order[0], DifferencesAt(p.spec.fields, v, order[0]), a);
      assert StopsBy(p.lock, p.spec.fields, v, order, k, a) <==> StopsAt(p.lock, p.spec.fields, v, order[0], a);
    } else {
      var q := PassesOver(p, v, order, a);
      if !StopsAt(p.lock, p.spec.fields, v, order[0], a) {
        FirstDifferingLater(p.spec.fields, v, order, k);
        LoopExactly(q, v, order[1..], k - 1, a);
        StopsLater(p.lock, q.lock, p.spec.fields, v, order, k, a);
      }
    }
  }

  // ---------- The chain ----------

  /** The answer to an update of `y`. */
  function UpdateCall(y: nat, a: Replies): (c: Call)
  {
    Call(UpdateFields, y, a.updateOk)
  }

  lemma UpdatesFirst(w: World, s: Pass, y: nat, a: Replies)
    requires |Primaries(w.cluster)| <= 1 && Untouched(s, ViewOf(w)) && !s.failed && FirstToUpdate(w, y)
    requires !OtherActive(s.lock, StatefulSetSpec) && s.spec.fields == w.spec.fields
    ensures Rollout(s, ViewOf(w), RolloutOrder(w.spec.standby, ViewOf(w)), a).calls
            == if Unstopped(w, s.lock, y, a) then [UpdateCall(y, a)] else []
  {
    var k := FirstPlaced(w, y);
    LoopExactly(s, ViewOf(w), RolloutOrder(w.spec.standby, ViewOf(w)), k, a);
    StopsMeans(w, s.lock, k, a);
  }

  lemma UpdatesDiffering(s: Pass, v: View, order: seq<nat>, c: Call, a: Replies) returns (k: int)
    requires Untouched(s, v) && !s.failed && !OtherActive(s.lock, StatefulSetSpec)
    requires c in Rollout(s, v, order, a).calls
    ensures FirstDiffering(s.spec.fields, v, order, k, c.index)
  {
    k := RolloutActs(s, v, order, a);
  }

  lemma UpdatesOnlyFirst(w: World, s: Pass, c: Call, a: Replies)
    requires |Primaries(w.cluster)| <= 1 && Untouched(s, ViewOf(w)) && !s.failed
    requires !OtherActive(s.lock, StatefulSetSpec) && s.spec.fields == w.spec.fields
    requires c in Rollout(s, ViewOf(w), RolloutOrder(w.spec.standby, ViewOf(w)), a).calls
    ensures FirstToUpdate(w, c.index)
  {
    var k := UpdatesDiffering(s, ViewOf(w), RolloutOrder(w.spec.standby, ViewOf(w)), c, a);
    FirstAtMeans(w, k, c.index);
  }

  /** The rolling update updates `y` exactly when `y` is the first that differs and nothing stops
      it before. */
  lemma RolloutExactly(w: World, s: Pass, c: Call, a: Replies)
    requires |Primaries(w.cluster)| <= 1 && Untouched(s, ViewOf(w)) && !s.failed
    requires !OtherActive(s.lock, StatefulSetSpec) && s.spec.fields == w.spec.fields
    ensures c in Rollout(s, ViewOf(w), RolloutOrder(w.spec.standby, ViewOf(w)), a).calls <==>
              c == UpdateCall(c.index, a) && FirstToUpdate(w, c.index) && Unstopped(w, s.lock, c.index, a)
  {
    var calls := Rollout(s, ViewOf(w), RolloutOrder(w.spec.standby, ViewOf(w)), a).calls;
    if c in calls {
      UpdatesOnlyFirst(w, s, c, a);
    }
    if FirstToUpdate(w, c.index) {
      UpdatesFirst(w, s, c.index, a);
    }
  }

  /** Nothing that does not come after `y` stops the rolling update. */
  predicate Unstopped(w: World, l: Lock, y: nat, a: Replies) {
    forall x :: x in w.cluster && NotAfter(w, x, y) ==> !StopsAt(l, w.spec.fields, ViewOf(w), x, a)
  }

  lemma StopsMeans(w: World, l: Lock, k: nat, a: Replies)
    requires |Primaries(w.cluster)| <= 1 && k < |RolloutOrder(w.spec.standby, ViewOf(w))|
    ensures var order := RolloutOrder(w.spec.standby, ViewOf(w));
            StopsBy(l, w.spec.fields, ViewOf(w), order, k, a) <==> !Unstopped(w, l, order[k], a)
  {
    var v, order := ViewOf(w), RolloutOrder(w.spec.standby, ViewOf(w));
    if StopsBy(l, w.spec.fields, v, order, k, a) {
      var m :| 0 <= m <= k && StopsAt(l, w.spec.fields, v, order[m], a);
      PlacedNotAfter(w, m, k);
    }
    if !Unstopped(w, l, order[k], a) {
      var x :| x in w.cluster && NotAfter(w, x, order[k]) && StopsAt(l, w.spec.fields, v, x, a);
      var m := PlacedBefore(w, k, x);
    }
  }

  /** A rolling update holds the lock. */
  lemma ChainWhenHeld(w: World, p: Pass, c: Call, a: Replies)
    requires Starts(p, w, ViewOf(w)) && Settled(p.lock) && p.lock.active.id == StatefulSetSpec
    requires |Primaries(w.cluster)| <= 1
    ensures c in EnforceAll(p, ViewOf(w), a).calls <==>
              && a.servicesOk && (w.spec.standby || ViewOf(w).PrimaryReady())
              && c == UpdateCall(c.index, a) && FirstToUpdate(w, c.index) && Unstopped(w, p.lock, c.index, a)
  {
    var v := ViewOf(w);
    OthersWait(p, v, a);
    assert WithoutPrimary(p, v).cluster == w.cluster;
    RolloutExactly(w, WithoutPrimary(p, v), c, a);
  }

  /** Nothing is to be done for the replicas. */
  lemma FieldsAfterReplicas(w: World, q: Pass, c: Call, a: Replies)
    requires Midway(w, q, ViewOf(w)) && Scales(q, ViewOf(w)) && ScaleCalls(w, a) == [] && |Primaries(w.cluster)| <= 1
    requires q.lock.active.id == ReplicaDbCount || !IsActive(q.lock)
    ensures c in Tail(q, ViewOf(w), a).calls <==>
              a.servicesOk && c == UpdateCall(c.index, a) && FirstToUpdate(w, c.index)
  {
    var v := ViewOf(w);
    var s := EnforceReplicas(q, v, a);
    var _ := TailActs(q, v, a);
    ReplicasDecide(w, q, a);
    ReplicaShape(q, v, a);
    ScaleFacts(Cleared(q, a), v, q.spec.promotePod.Some?, a);
    assert s == Cleared(q, a) && !IsActive(s.lock);
    RolloutExactly(w, s, c, a);
    FreeIsUnstopped(w, s.lock, c.index, a);
  }

  lemma FreeIsUnstopped(w: World, l: Lock, y: nat, a: Replies)
    requires !IsActive(l)
    ensures Unstopped(w, l, y, a)
  {
  }

  /** The tail of the chain with the lock free or held by others. */
  lemma TailUpdatesExactly(w: World, q: Pass, c: Call, a: Replies)
    requires Midway(w, q, ViewOf(w)) && q.lock.active.id != StatefulSetSpec && |Primaries(w.cluster)| <= 1
    requires c.verb == UpdateFields
    ensures c in Tail(q, ViewOf(w), a).calls <==>
              && Scales(q, ViewOf(w)) && ScaleCalls(w, a) == []
              && a.servicesOk && c == UpdateCall(c.index, a) && FirstToUpdate(w, c.index)
  {
    var v := ViewOf(w);
    if Scales(q, v) && ScaleCalls(w, a) == [] {
      FieldsAfterReplicas(w, q, c, a);
    } else {
      ReplicasDecide(w, q, a);
      var _ := TailActs(q, v, a);
      if !Scales(q, v) {
        NoFields(q, v, a);
      }
    }
  }

  lemma NoFields(q: Pass, v: View, a: Replies)
    requires !Scales(q, v) && q.lock.active.id != StatefulSetSpec && q.calls == []
    ensures EnforceFields(EnforceReplicas(q, v, a), v, a).calls == EnforceReplicas(q, v, a).calls
  {
    ReplicaShape(q, v, a);
  }

  lemma UpdatesAfterPromotion(w: World, q: Pass, c: Call, a: Replies)
    requires FailedPromotion(q, ViewOf(w)) && q.spec == w.spec && |Primaries(w.cluster)| <= 1
    requires q.enforced == EnforcedNow(w) && q.lastCreated == w.status.lastCreated && c.verb == UpdateFields
    ensures c in Tail(q, ViewOf(w), a).calls <==>
              && Scales(q, ViewOf(w)) && ScaleCalls(w, a) == []
              && a.servicesOk && c == UpdateCall(c.index, a) && FirstToUpdate(w, c.index)
  {
    var v, first, q0 := ViewOf(w), q.calls[0], q.(calls := []);
    assert Following(first, q0) == q && q.calls == [first];
    TailFollows(first, q0, v, a);
    TailUpdatesExactly(w, q0, c, a);
    assert Scales(q0, v) == Scales(q, v);
  }

  lemma UpdatesAfterPrimary(w: World, p: Pass, c: Call, a: Replies)
    requires Starts(p, w, ViewOf(w)) && Settled(p.lock) && p.lock.active.id != StatefulSetSpec
    requires |Primaries(w.cluster)| <= 1 && c.verb == UpdateFields
    requires var h := ChainOf(p, ViewOf(w), a); !h.base.failed && !h.primary.failed
    ensures var q := ChainOf(p, ViewOf(w), a).primary;
            c in Tail(q, ViewOf(w), a).calls <==>
              && Scales(q, ViewOf(w)) && ScaleCalls(w, a) == []
              && a.servicesOk && c == UpdateCall(c.index, a) && FirstToUpdate(w, c.index)
  {
    var v := ViewOf(w);
    var h := ChainOf(p, v, a);
    BaseConfigFacts(p, v, a);
    if h.primary.calls == [] {
      IdleCounters(w, p, v, a);
      LockAfterBoth(w, p, a);
      TailUpdatesExactly(w, h.primary, c, a);
    } else {
      PrimaryJustified(w, p, v, a);
      PrimaryEnds(h.base, v, a);
      if FailedPromotion(h.primary, v) {
        PromotionCounts(w, p.lock, h.primary, a);
        UpdatesAfterPromotion(w, h.primary, c, a);
      } else {
        NoUpdateByPrimary(h.base, v, c, a);
      }
    }
  }

  lemma NoUpdateByPrimary(b: Pass, v: View, c: Call, a: Replies)
    requires Untouched(b, v) && !b.failed && c.verb == UpdateFields
    ensures c !in EnforcePrimary(b, v, a).calls
  {
    var r := EnforcePrimary(b, v, a);
    if r.calls != [] {
      PrimaryActs(b, v, a);
      NoUpdateInCall(Refreshed(b, v), r, v, c, a);
    }
  }

  lemma NoUpdateInCall(q: Pass, r: Pass, v: View, c: Call, a: Replies)
    requires PrimaryCall(q, r, v, a) && c.verb == UpdateFields
    ensures c !in r.calls
  {
  }

  lemma ChainWhenFree(w: World, p: Pass, c: Call, a: Replies)
    requires Starts(p, w, ViewOf(w)) && Settled(p.lock) && p.lock.active.id != StatefulSetSpec
    requires |Primaries(w.cluster)| <= 1 && c.verb == UpdateFields
    ensures c in EnforceAll(p, ViewOf(w), a).calls <==>
              && ReplicaTurn(w, p.lock, a) && ScaleCalls(w, a) == []
              && a.servicesOk && c == UpdateCall(c.index, a) && FirstToUpdate(w, c.index)
  {
    var v := ViewOf(w);
    var h := ChainOf(p, v, a);
    AllShape(p, v, a);
    TurnOfReplicas(w, p, a);
    BaseConfigFacts(p, v, a);
    if !h.base.failed {
      if h.primary.failed {
        NoUpdateByPrimary(h.base, v, c, a);
      } else {
        UpdatesAfterPrimary(w, p, c, a);
      }
    }
  }

  // ---------- The updates of a reconcile ----------

  /** The rolling update has its turn and gets as far as `y`: it holds the lock already and
      nothing stops it before, or the replicas have had their turn and needed nothing. */
  predicate UpdateTurn(w: World, l: Lock, y: nat, a: Replies) {
    if l.active.id == StatefulSetSpec then
      (w.spec.standby || ViewOf(w).PrimaryReady()) && Unstopped(w, l, y, a)
    else ReplicaTurn(w, l, a) && ScaleCalls(w, a) == []
  }

  /** Exactly which StatefulSet a reconcile updates: the first in the order that has not the
      wanted fields, if the rolling update gets that far. */
  lemma UpdateExactly(w: World, a: Replies, c: Call)
    requires Readable(w) && a.now >= 0 && c.verb == UpdateFields
    ensures c in CallsOf(w, a) <==>
              && Enforces(w, a) && a.servicesOk && c.ok == a.updateOk
              && FirstToUpdate(w, c.index) && UpdateTurn(w, Begin(w, a).lock, c.index, a)
  {
    if Enforces(w, a) {
      var p := Begin(w, a);
      BeginStarts(w, a);
      EnforcesSettled(w, a);
      FinishEnforces(w, a);
      if p.lock.active.id == StatefulSetSpec {
        ChainWhenHeld(w, p, c, a);
      } else {
        ChainWhenFree(w, p, c, a);
      }
    } else {
      CallsExactly(w, a);
    }
  }

  /** An update of `x` that asked for `asked` and has timed out. */
  predicate LateUpdate(w: World, x: nat, asked: Fields, now: int) {
    && x in w.cluster && w.cluster[x].fields != asked && now >= w.status.operation.timeOut > 0
    && w.status.operation == Operation(StatefulSetSpec, SpecUpdating, x, Differences(asked, w.cluster[x].fields),
                                       w.status.operation.timeOut, false)
  }

  /** An update that has timed out is tried again if and only if something else is asked for. */
  lemma RetriedExactly(w: World, a: Replies, x: nat, asked: Fields)
    requires a.now >= 0 && LateUpdate(w, x, asked, a.now) && FirstToUpdate(w, x)
    requires Readable(w) && Enforces(w, a) && a.servicesOk && (w.spec.standby || ViewOf(w).PrimaryReady())
    ensures UpdateCall(x, a) in CallsOf(w, a) <==> w.spec.fields != asked
  {
    UpdateExactly(w, a, UpdateCall(x, a));
    LateStops(w, a, x, asked);
  }

  lemma LateStops(w: World, a: Replies, x: nat, asked: Fields)
    requires LateUpdate(w, x, asked, a.now) && RolledOut(w, x)
    ensures Begin(w, a).lock.active.id == StatefulSetSpec
    ensures Unstopped(w, Begin(w, a).lock, x, a) <==> w.spec.fields != asked
  {
    var l := Begin(w, a).lock;
    DifferencesIdentify(asked, w.spec.fields, w.cluster[x].fields);
    assert l.active == w.status.operation.(hasTimedOut := true);
    assert NotAfter(w, x, x);
  }
}
