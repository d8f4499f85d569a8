/** Lists of volumes and of volume mounts: the ones the operator owns are told apart from the
    user's by their names. */
module VolumeLists {
  const DATABASE_VOLUME := "postgres-db"
  const BASE_CONFIG_VOLUME := "base-config"
  const CUSTOM_CONFIG_VOLUME := "custom-config"

  predicate Contains(s: string, sub: string) {
    exists i :: 0 <= i <= |s| && sub <= s[i..]
  }

  predicate Reserved(name: string) {
    name == DATABASE_VOLUME || name == BASE_CONFIG_VOLUME || name == CUSTOM_CONFIG_VOLUME || Contains(name, "kube-api")
  }

  /** The elements with a name of the given kind, in order. */
  function Filter<T(!new)>(name: T -> string, s: seq<T>, reserved: bool): (r: seq<T>)
    ensures forall x :: x in r <==> x in s && Reserved(name(x)) == reserved
    ensures |r| <= |s|
  {
    if s == [] then []
    else FilterHead(name, s[0], reserved) + Filter(name, s[1..], reserved)
  }

  function Custom<T(!new)>(name: T -> string, s: seq<T>): (r: seq<T>)
  {
    Filter(name, s, false)
  }

  function Owned<T(!new)>(name: T -> string, s: seq<T>): (r: seq<T>)
  {
    Filter(name, s, true)
  }

  lemma {:induction false} FilterAppend<T(!new)>(name: T -> string, a: seq<T>, b: seq<T>, reserved: bool)
    ensures Filter(name, a + b, reserved) == Filter(name, a, reserved) + Filter(name, b, reserved)
  {
    if a == [] {
      assert a + b == b;
    } else {
      FilterAppend(name, a[1..], b, reserved);
      FilterFront(name, a, b, reserved);
      Associative(FilterHead(name, a[0], reserved), Filter(name, a[1..], reserved), Filter(name, b, reserved));
    }
  }

  function FilterHead<T(!new)>(name: T -> string, x: T, reserved: bool): (r: seq<T>)
  {
    if Reserved(name(x)) == reserved then [x] else []
  }

  lemma FilterFront<T(!new)>(name: T -> string, a: seq<T>, b: seq<T>, reserved: bool)
    requires a != []
    ensures Filter(name, a + b, reserved) == FilterHead(name, a[0], reserved) + Filter(name, a[1..] + b, reserved)
    ensures Filter(name, a, reserved) == FilterHead(name, a[0], reserved) + Filter(name, a[1..], reserved)
  {
    assert (a + b)[1..] == a[1..] + b && (a + b)[0] == a[0];
  }

  lemma Associative<T>(x: seq<T>, y: seq<T>, z: seq<T>)
    ensures x + (y + z) == (x + y) + z
  {
  }

  lemma {:induction false} FilterAll<T(!new)>(name: T -> string, s: seq<T>, reserved: bool)
    ensures (forall x :: x in s ==> Reserved(name(x)) == reserved) ==> Filter(name, s, reserved) == s
    ensures (forall x :: x in s ==> Reserved(name(x)) != reserved) ==> Filter(name, s, reserved) == []
    ensures |Filter(name, s, reserved)| == |s| ==> Filter(name, s, reserved) == s
  {
    if s != [] {
      FilterAll(name, s[1..], reserved);
      assert s == [s[0]] + s[1..];
      assert s[0] in s;
      assert forall x :: x in s[1..] ==> x in s;
    }
  }

  /** Where an element first occurs, or nothing. */
  method IndexOf<T(==,!new)>(x: T, s: seq<T>) returns (k: int)
    ensures -1 <= k < |s|
    ensures k >= 0 ==> s[k] == x && x !in s[..k]
    ensures k < 0 ==> x !in s
  {
    for i := 0 to |s|
      invariant x !in s[..i]
    {
      if s[i] == x {
        return i;
      }
      assert s[..i + 1] == s[..i] + [s[i]];
    }
    assert s[..|s|] == s;
    return -1;
  }

  /** Before the first custom element only owned ones stand. */
  lemma {:induction false} FirstCustom<T(!new)>(name: T -> string, s: seq<T>, k: int)
    requires Custom(name, s) != [] && 0 <= k < |s| && s[k] == Custom(name, s)[0]
    requires s[k] !in s[..k]
    ensures Custom(name, s[..k] + s[k + 1..]) == Custom(name, s)[1..]
    ensures Owned(name, s[..k] + s[k + 1..]) == Owned(name, s)
  {
    if k == 0 {
      assert Custom(name, s)[0] in Custom(name, s);
      assert s[..k] + s[k + 1..] == s[1..];
    } else {
      assert s[0] in s[..k];
      var t := s[1..];
      assert t[..k - 1] + t[k..] == (s[..k] + s[k + 1..])[1..];
      assert (s[..k] + s[k + 1..])[0] == s[0];
      assert t[k - 1] !in t[..k - 1];
      FirstCustom(name, t, k - 1);
    }
  }

  /** Removing the custom elements one by one, each at its first occurrence, leaves the owned
      ones in their order. */
  method RemoveCustom<T(==,!new)>(name: T -> string, s: seq<T>) returns (r: seq<T>)
    ensures r == Owned(name, s)
  {
    r := s;
    var custom := Custom(name, s);
    if |custom| == 0 {
      FilterSplit(name, s);
      return;
    }
    for i := 0 to |custom|
      invariant Custom(name, r) == custom[i..]
      invariant Owned(name, r) == Owned(name, s)
    {
      assert custom[i] in Custom(name, r);
      var k := IndexOf(custom[i], r);
      FirstCustom(name, r, k);
      r := r[..k] + r[k + 1..];
    }
    FilterSplit(name, r);
  }

  lemma {:induction false} FilterSplit<T(!new)>(name: T -> string, s: seq<T>)
    ensures |Custom(name, s)| + |Owned(name, s)| == |s|
    ensures Custom(name, s) == [] ==> Owned(name, s) == s
  {
    if s != [] {
      FilterSplit(name, s[1..]);
      assert s == [s[0]] + s[1..];
    }
  }

  // ---------- Comparison ----------

  predicate Matches<T(==,!new)>(current: seq<T>, expected: seq<T>) {
    |expected| == |current| && forall i :: 0 <= i < |expected| ==> expected[i] in current
  }

  method Compare<T(==,!new)>(current: seq<T>, expected: seq<T>) returns (same: bool)
    ensures same == Matches(current, expected)
  {
    if |expected| != |current| {
      return false;
    }
    for i := 0 to |expected|
      invariant forall j :: 0 <= j < i ==> expected[j] in current
    {
      var k := IndexOf(expected[i], current);
      if k < 0 {
        return false;
      }
    }
    return true;
  }

  predicate NoDuplicates<T(==,!new)>(s: seq<T>) {
    forall i, j :: 0 <= i < j < |s| ==> s[i] != s[j]
  }

  lemma SplitAt<T(!new)>(s: seq<T>, k: int)
    requires 0 <= k < |s|
    ensures multiset(s) == multiset(s[..k] + s[k + 1..]) + multiset{s[k]}
  {
    assert s == s[..k] + [s[k]] + s[k + 1..];
  }

  lemma SplitFront<T(!new)>(s: seq<T>)
    requires s != []
    ensures multiset(s) == multiset(s[1..]) + multiset{s[0]}
  {
    assert s == [s[0]] + s[1..];
  }

  /** Taking the first expected element out of both lists keeps the match. */
  lemma MatchWithout<T(!new)>(current: seq<T>, expected: seq<T>, k: int)
    requires NoDuplicates(expected) && Matches(current, expected) && expected != []
    requires 0 <= k < |current| && current[k] == expected[0]
    ensures Matches(current[..k] + current[k + 1..], expected[1..])
  {
    var rest, less := expected[1..], current[..k] + current[k + 1..];
    forall i | 0 <= i < |rest| ensures rest[i] in less {
      assert rest[i] == expected[i + 1] && rest[i] in current;
      var j :| 0 <= j < |current| && current[j] == rest[i];
      assert j != k;
      assert if j < k then less[j] == rest[i] else less[j - 1] == rest[i];
    }
  }

  lemma PermutationMatches<T(!new)>(current: seq<T>, expected: seq<T>)
    requires multiset(current) == multiset(expected)
    ensures Matches(current, expected)
  {
    assert |multiset(current)| == |current| && |multiset(expected)| == |expected|;
    forall i | 0 <= i < |expected| ensures expected[i] in current {
      assert expected[i] in multiset(current);
    }
  }

  lemma {:induction false} MatchesPermutes<T(!new)>(current: seq<T>, expected: seq<T>)
    requires NoDuplicates(expected) && Matches(current, expected)
    ensures multiset(current) == multiset(expected)
  {
    if expected != [] {
      assert expected[0] in current;
      var k :| 0 <= k < |current| && current[k] == expected[0];
      var less, rest := current[..k] + current[k + 1..], expected[1..];
      assert Matches(less, rest) by {
        MatchWithout(current, expected, k);
      }
      MatchesPermutes(less, rest);
      assert multiset(current) == multiset(less) + multiset{expected[0]} by {
        SplitAt(current, k);
      }
      assert multiset(expected) == multiset(rest) + multiset{expected[0]} by {
        SplitFront(expected);
      }
    }
  }

  /** For an expected list without duplicates, equal length and membership of every expected
      element say that both lists hold the same elements equally often. */
  lemma MatchesIsPermutation<T(!new)>(current: seq<T>, expected: seq<T>)
    requires NoDuplicates(expected)
    ensures Matches(current, expected) <==> multiset(current) == multiset(expected)
  {
    if Matches(current, expected) {
      MatchesPermutes(current, expected);
    }
    if multiset(current) == multiset(expected) {
      PermutationMatches(current, expected);
    }
  }
}
