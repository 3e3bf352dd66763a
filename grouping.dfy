// Grouping a list by a key into insertion-ordered buckets, the way
// `map.computeIfAbsent(key(x), k -> new ArrayList<>()).add(x)` does it over
// a list. The key function is a parameter so the grouping can be reasoned
// about once, whatever the key is.

module Grouping {

  /** The distinct keys of `xs`, in order of first appearance. */
  function GroupKeys<T, K(==)>(xs: seq<T>, key: T -> K): (keys: seq<K>)
    ensures forall i, j :: 0 <= i < j < |keys| ==> keys[i] != keys[j]
    ensures forall j :: 0 <= j < |xs| ==> key(xs[j]) in keys
    decreases |xs|
  {
    if |xs| == 0 then []
    else
      var prefix := xs[..|xs| - 1];
      var keys := GroupKeys(prefix, key);
      assert forall j :: 0 <= j < |prefix| ==> prefix[j] == xs[j];
      var k := key(xs[|xs| - 1]);
      if k in keys then keys else keys + [k]
  }

  /** Every key is the key of some element. */
  lemma {:induction false} KeysComeFromElements<T, K>(xs: seq<T>, key: T -> K, k: K)
    requires k in GroupKeys(xs, key)
    ensures exists j :: 0 <= j < |xs| && key(xs[j]) == k
    decreases |xs|
  {
    var prefix := xs[..|xs| - 1];
    if k in GroupKeys(prefix, key) {
      KeysComeFromElements(prefix, key, k);
      var j :| 0 <= j < |prefix| && key(prefix[j]) == k;
      assert prefix[j] == xs[j];
    } else {
      assert key(xs[|xs| - 1]) == k;
    }
  }

  /** The elements whose key is `k`, in their original order. */
  function Members<T(==), K(==)>(xs: seq<T>, key: T -> K, k: K): (group: seq<T>)
    ensures |group| <= |xs|
    decreases |xs|
  {
    if |xs| == 0 then []
    else
      var prefix := xs[..|xs| - 1];
      var last := xs[|xs| - 1];
      Members(prefix, key, k) + (if key(last) == k then [last] else [])
  }

  /** A group holds elements of the list with that key, and only those. */
  lemma {:induction false} MembersHaveKey<T, K>(xs: seq<T>, key: T -> K, k: K)
    ensures forall x :: x in Members(xs, key, k) ==> x in xs && key(x) == k
    decreases |xs|
  {
    if |xs| > 0 {
      var prefix := xs[..|xs| - 1];
      MembersHaveKey(prefix, key, k);
      forall x | x in prefix
        ensures x in xs
      {
        var j :| 0 <= j < |prefix| && prefix[j] == x;
        assert xs[j] == x;
      }
    }
  }

  lemma {:induction false} MembersEmptyUnlessKeyed<T, K>(xs: seq<T>, key: T -> K, k: K)
    requires k !in GroupKeys(xs, key)
    ensures Members(xs, key, k) == []
    decreases |xs|
  {
    if |xs| > 0 {
      var prefix := xs[..|xs| - 1];
      MembersEmptyUnlessKeyed(prefix, key, k);
      assert key(xs[|xs| - 1]) != k;
    }
  }

  /** What one more element changes: its key is added if new, and it joins
      the group of its key only. */
  lemma GroupSnoc<T, K>(prefix: seq<T>, x: T, key: T -> K)
    ensures GroupKeys(prefix + [x], key) ==
      if key(x) in GroupKeys(prefix, key) then GroupKeys(prefix, key) else GroupKeys(prefix, key) + [key(x)]
    ensures forall k :: Members(prefix + [x], key, k) == Members(prefix, key, k) + (if key(x) == k then [x] else [])
  {
    assert (prefix + [x])[..|prefix|] == prefix;
  }

  /** The groups of `keys`, one after the other. */
  function ConcatGroups<T(==), K(==)>(xs: seq<T>, key: T -> K, keys: seq<K>): seq<T>
  {
    if |keys| == 0 then [] else Members(xs, key, keys[0]) + ConcatGroups(xs, key, keys[1..])
  }

  lemma {:induction false} ConcatGroupsSnocKey<T, K>(xs: seq<T>, key: T -> K, keys: seq<K>, k: K)
    ensures ConcatGroups(xs, key, keys + [k]) == ConcatGroups(xs, key, keys) + Members(xs, key, k)
    decreases |keys|
  {
    if |keys| == 0 {
      assert ConcatGroups(xs, key, [k]) == Members(xs, key, k) + ConcatGroups(xs, key, []);
    } else {
      assert (keys + [k])[1..] == keys[1..] + [k];
      ConcatGroupsSnocKey(xs, key, keys[1..], k);
    }
  }

  /** Appending an element adds it to the group of its key and to no other. */
  lemma {:induction false} ConcatGroupsSnoc<T, K>(xs: seq<T>, x: T, key: T -> K, keys: seq<K>)
    requires forall i, j :: 0 <= i < j < |keys| ==> keys[i] != keys[j]
    ensures multiset(ConcatGroups(xs + [x], key, keys)) ==
            multiset(ConcatGroups(xs, key, keys)) + (if key(x) in keys then multiset{x} else multiset{})
    decreases |keys|
  {
    if |keys| > 0 {
      var first, rest := keys[0], keys[1..];
      DistinctTail(keys);
      ConcatGroupsSnoc(xs, x, key, rest);
      MembersSnoc(xs, x, key, first);
      var added: multiset<T> := if key(x) == first then multiset{x} else multiset{};
      var later: multiset<T> := if key(x) in rest then multiset{x} else multiset{};
      assert multiset(Members(xs + [x], key, first)) == multiset(Members(xs, key, first)) + added;
      assert multiset(ConcatGroups(xs + [x], key, rest)) == multiset(ConcatGroups(xs, key, rest)) + later;
      assert key(x) in keys <==> key(x) == first || key(x) in rest;
    }
  }

  /** The group of `k` after one more element. */
  lemma MembersSnoc<T, K>(xs: seq<T>, x: T, key: T -> K, k: K)
    ensures Members(xs + [x], key, k) == Members(xs, key, k) + (if key(x) == k then [x] else [])
  {
    assert (xs + [x])[..|xs|] == xs;
  }

  /** Without its head, a list of distinct keys is still distinct and no
      longer holds the head. */
  lemma DistinctTail<K>(keys: seq<K>)
    requires |keys| > 0 && forall i, j :: 0 <= i < j < |keys| ==> keys[i] != keys[j]
    ensures forall i, j :: 0 <= i < j < |keys[1..]| ==> keys[1..][i] != keys[1..][j]
    ensures keys[0] !in keys[1..]
  {
    var rest := keys[1..];
    forall i, j | 0 <= i < j < |rest|
      ensures rest[i] != rest[j]
    {
      assert rest[i] == keys[i + 1] && rest[j] == keys[j + 1];
    }
    forall i | 0 <= i < |rest|
      ensures rest[i] != keys[0]
    {
      assert rest[i] == keys[i + 1];
    }
  }

  /**
   * The groups partition the list: laid end to end, the groups of the
   * distinct keys hold exactly the elements of the list, each once.
   */
  lemma {:induction false} GroupsPartition<T, K>(xs: seq<T>, key: T -> K)
    ensures multiset(ConcatGroups(xs, key, GroupKeys(xs, key))) == multiset(xs)
    decreases |xs|
  {
    if |xs| > 0 {
      var prefix := xs[..|xs| - 1];
      var x := xs[|xs| - 1];
      assert xs == prefix + [x];
      var keys := GroupKeys(prefix, key);
      GroupsPartition(prefix, key);
      GroupSnoc(prefix, x, key);
      ConcatGroupsSnoc(prefix, x, key, keys);
      if key(x) !in keys {
        ConcatGroupsSnocKey(xs, key, keys, key(x));
        MembersEmptyUnlessKeyed(prefix, key, key(x));
        assert Members(xs, key, key(x)) == [x];
      }
    }
  }

  /** `keys` and `groups` are the grouping of `xs`. */
  ghost predicate Grouped<T, K(!new)>(xs: seq<T>, key: T -> K, keys: seq<K>, groups: map<K, seq<T>>)
  {
    && keys == GroupKeys(xs, key)
    && (forall k :: k in groups <==> k in keys)
    && (forall k :: k in groups ==> groups[k] == Members(xs, key, k))
  }

  /** One step of the grouping loop keeps `Grouped`: an element whose key
      already has a group joins it. */
  lemma GroupStepKnown<T, K(!new)>(prefix: seq<T>, x: T, key: T -> K, keys: seq<K>, groups: map<K, seq<T>>)
    requires Grouped(prefix, key, keys, groups)
    requires key(x) in groups
    ensures Grouped(prefix + [x], key, keys, groups[key(x) := groups[key(x)] + [x]])
  {
    GroupSnoc(prefix, x, key);
  }

  /** An element with a new key starts a group of its own. */
  lemma GroupStepNew<T, K(!new)>(prefix: seq<T>, x: T, key: T -> K, keys: seq<K>, groups: map<K, seq<T>>)
    requires Grouped(prefix, key, keys, groups)
    requires key(x) !in groups
    ensures Grouped(prefix + [x], key, keys + [key(x)], groups[key(x) := [x]])
  {
    GroupSnoc(prefix, x, key);
    MembersEmptyUnlessKeyed(prefix, key, key(x));
  }

  /**
   * The grouping loop: each element is appended to the list of its key,
   * creating the list on first sight. `keys` records the order in which
   * the lists were created.
   */
  method GroupByKey<T(==), K(==,!new)>(xs: seq<T>, key: T -> K) returns (keys: seq<K>, groups: map<K, seq<T>>)
    ensures keys == GroupKeys(xs, key)
    ensures forall k :: k in groups <==> k in keys
    ensures forall k :: k in groups ==> groups[k] == Members(xs, key, k)
  {
    keys := [];
    groups := map[];
    for i := 0 to |xs|
      invariant Grouped(xs[..i], key, keys, groups)
    {
      var x := xs[i];
      var k := key(x);
      assert xs[..i + 1] == xs[..i] + [x];
      if k in groups {
        GroupStepKnown(xs[..i], x, key, keys, groups);
        groups := groups[k := groups[k] + [x]];
      } else {
        GroupStepNew(xs[..i], x, key, keys, groups);
        groups := groups[k := [x]];
        keys := keys + [k];
      }
    }
    assert xs[..|xs|] == xs;
  }
}
