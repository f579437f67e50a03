/**
 * Join-result consolidation: rows `(parent, optional child)` of a LEFT JOIN become
 * `(parent, children)` groups, one per distinct parent key.
 */
module Consolidation {
  import opened Wrappers

  // ---------------------------------------------------------------------------------------------
  // Reference definition of the grouping
  // ---------------------------------------------------------------------------------------------

  /** Some row among the first `n` has a parent with key `k`. */
  predicate Seen<P, R, K(==)>(rows: seq<(P, Option<R>)>, key: P -> K, n: nat, k: K)
    requires n <= |rows|
  {
    exists i :: 0 <= i < n && key(rows[i].0) == k
  }

  /** The distinct parent keys among the first `n` rows, in order of first appearance. */
  function DistinctKeys<P, R, K(==)>(rows: seq<(P, Option<R>)>, key: P -> K, n: nat): (ks: seq<K>)
    requires n <= |rows|
    ensures forall k :: k in ks ==> Seen(rows, key, n, k)
    ensures forall i :: 0 <= i < n ==> key(rows[i].0) in ks
  {
    if n == 0 then []
    else
      var ks := DistinctKeys(rows, key, n - 1);
      var k := key(rows[n - 1].0);
      if k in ks then ks else ks + [k]
  }

  /** The `Some` children of the first `n` rows whose parent has key `k`, in row order, duplicates kept. */
  function ChildrenOf<P, R, K(==)>(rows: seq<(P, Option<R>)>, key: P -> K, n: nat, k: K): seq<R>
    requires n <= |rows|
  {
    if n == 0 then []
    else
      ChildrenOf(rows, key, n - 1, k) +
        (if key(rows[n - 1].0) == k && rows[n - 1].1.Some? then [rows[n - 1].1.value] else [])
  }

  /** The index of the first of the first `n` rows whose parent has key `k`. */
  function FirstIndex<P, R, K(==)>(rows: seq<(P, Option<R>)>, key: P -> K, n: nat, k: K): (i: nat)
    requires n <= |rows| && Seen(rows, key, n, k)
    ensures i < n && key(rows[i].0) == k
    ensures forall j :: 0 <= j < i ==> key(rows[j].0) != k
  {
    if Seen(rows, key, n - 1, k) then FirstIndex(rows, key, n - 1, k) else n - 1
  }

  /** The group of key `k`: the parent of its first row and all its children. */
  function Entry<P, R, K(==)>(rows: seq<(P, Option<R>)>, key: P -> K, k: K): (P, seq<R>)
    requires Seen(rows, key, |rows|, k)
  {
    (rows[FirstIndex(rows, key, |rows|, k)].0, ChildrenOf(rows, key, |rows|, k))
  }

  /** The groups of the keys `ks`, in the order of `ks`. */
  function Entries<P, R, K(==)>(rows: seq<(P, Option<R>)>, key: P -> K, ks: seq<K>): (es: seq<(P, seq<R>)>)
    requires forall k :: k in ks ==> Seen(rows, key, |rows|, k)
    ensures |es| == |ks|
    ensures forall a :: 0 <= a < |ks| ==> es[a] == Entry(rows, key, ks[a])
  {
    if ks == [] then []
    else Entries(rows, key, ks[..|ks| - 1]) + [Entry(rows, key, ks[|ks| - 1])]
  }

  /**
   * What consolidation produces: one group per distinct parent key in order of first appearance,
   * made of the first row's parent and every `Some` child of that key in row order.
   */
  function Consolidated<P, R, K(==)>(rows: seq<(P, Option<R>)>, key: P -> K): seq<(P, seq<R>)>
  {
    Entries(rows, key, DistinctKeys(rows, key, |rows|))
  }

  // ---------------------------------------------------------------------------------------------
  // The hash-map algorithm (`consolidate_query_result_of`)
  // ---------------------------------------------------------------------------------------------

  /**
   * `consolidate_query_result_of`: a first pass folds the rows into a map from key to children
   * (a `None` child only makes sure the key has an entry); a second pass walks the rows again and
   * emits a parent whenever its key's entry is still in the map, removing the entry.
   */
  method ConsolidateQueryResultOf<P, R, K(==)>(rows: seq<(P, Option<R>)>, key: P -> K)
    returns (out: seq<(P, seq<R>)>)
    ensures out == Consolidated(rows, key)
  {
    var buckets := CollectChildren(rows, key);
    out := EmitGroups(rows, key, buckets);
  }

  /** The fold of `consolidate_query_result_of`: each key seen, mapped to its `Some` children in row order. */
  method CollectChildren<P, R, K(==)>(rows: seq<(P, Option<R>)>, key: P -> K) returns (buckets: map<K, seq<R>>)
    ensures forall k :: k in buckets ==> Seen(rows, key, |rows|, k)
    ensures forall i :: 0 <= i < |rows| ==> key(rows[i].0) in buckets
    ensures forall k :: k in buckets ==> buckets[k] == ChildrenOf(rows, key, |rows|, k)
  {
    buckets := map[];
    var i := 0;
    while i < |rows|
      invariant 0 <= i <= |rows|
      invariant Folded(rows, key, i, buckets)
    {
      ghost var before := buckets;
      buckets := FoldRow(buckets, key(rows[i].0), rows[i].1);
      BucketStep(rows, key, i, before, buckets);
      i := i + 1;
    }
  }

  /**
   * The fold step: a `Some` child is pushed onto its key's list, or starts the list if the key
   * has none; a `None` child only makes sure the key has a (possibly empty) list.
   */
  function FoldRow<K, R>(acc: map<K, seq<R>>, k: K, child: Option<R>): (next: map<K, seq<R>>)
    ensures next.Keys == acc.Keys + {k}
    ensures forall k' :: k' in acc && k' != k ==> next[k'] == acc[k']
    ensures next[k] == (if k in acc then acc[k] else []) + (if child.Some? then [child.value] else [])
  {
    match child
    case Some(value) =>
      if k in acc then acc[k := acc[k] + [value]] else acc[k := [value]]
    case None =>
      if k in acc then acc else acc[k := []]
  }

  /** The buckets after folding the first `i` rows: the keys seen so far, each with its children so far. */
  ghost predicate Folded<P, R, K>(rows: seq<(P, Option<R>)>, key: P -> K, i: nat, buckets: map<K, seq<R>>)
    requires i <= |rows|
  {
    && (forall k :: k in buckets ==> Seen(rows, key, i, k))
    && (forall i' :: 0 <= i' < i ==> key(rows[i'].0) in buckets)
    && (forall k :: k in buckets ==> buckets[k] == ChildrenOf(rows, key, i, k))
  }

  /** One row folded into the buckets: its key gains an entry if it had none, and its child if it has one. */
  lemma BucketStep<P, R, K>(rows: seq<(P, Option<R>)>, key: P -> K, i: nat, before: map<K, seq<R>>, after: map<K, seq<R>>)
    requires i < |rows| && Folded(rows, key, i, before)
    requires after == FoldRow(before, key(rows[i].0), rows[i].1)
    ensures Folded(rows, key, i + 1, after)
  {
    BucketKeysStep(rows, key, i, before, after);
    BucketChildrenStep(rows, key, i, before, after);
  }

  lemma BucketKeysStep<P, R, K>(rows: seq<(P, Option<R>)>, key: P -> K, i: nat, before: map<K, seq<R>>, after: map<K, seq<R>>)
    requires i < |rows|
    requires forall k :: k in before ==> Seen(rows, key, i, k)
    requires forall i' :: 0 <= i' < i ==> key(rows[i'].0) in before
    requires after == FoldRow(before, key(rows[i].0), rows[i].1)
    ensures forall k :: k in after ==> Seen(rows, key, i + 1, k)
    ensures forall i' :: 0 <= i' < i + 1 ==> key(rows[i'].0) in after
  {
    forall k' | k' in after ensures Seen(rows, key, i + 1, k') {
      SeenStep(rows, key, i, k');
    }
    forall i' | 0 <= i' < i + 1 ensures key(rows[i'].0) in after {
      if i' < i {
        assert key(rows[i'].0) in before;
      }
    }
  }

  lemma BucketChildrenStep<P, R, K>(rows: seq<(P, Option<R>)>, key: P -> K, i: nat, before: map<K, seq<R>>, after: map<K, seq<R>>)
    requires i < |rows|
    requires forall i' :: 0 <= i' < i ==> key(rows[i'].0) in before
    requires forall k :: k in before ==> before[k] == ChildrenOf(rows, key, i, k)
    requires after == FoldRow(before, key(rows[i].0), rows[i].1)
    ensures forall k :: k in after ==> after[k] == ChildrenOf(rows, key, i + 1, k)
  {
    var k := key(rows[i].0);
    if k !in before {
      assert !Seen(rows, key, i, k);
      NotSeenNoChildren(rows, key, i, k);
    }
    forall k' | k' in after ensures after[k'] == ChildrenOf(rows, key, i + 1, k') {
      if k' != k {
        assert after[k'] == before[k'];
      }
    }
  }

  /** A key is seen among the first `i + 1` rows when it was seen before or is row `i`'s key. */
  lemma SeenStep<P, R, K>(rows: seq<(P, Option<R>)>, key: P -> K, i: nat, k: K)
    requires i < |rows|
    ensures Seen(rows, key, i + 1, k) <==> Seen(rows, key, i, k) || key(rows[i].0) == k
  {
    if Seen(rows, key, i + 1, k) && key(rows[i].0) != k {
      var j :| 0 <= j < i + 1 && key(rows[j].0) == k;
      assert j < i;
    }
  }

  /** The second pass of `consolidate_query_result_of`: a row whose key is still in the map emits its group and removes it. */
  method EmitGroups<P, R, K(==)>(rows: seq<(P, Option<R>)>, key: P -> K, all: map<K, seq<R>>)
    returns (out: seq<(P, seq<R>)>)
    requires forall k :: k in all ==> Seen(rows, key, |rows|, k)
    requires forall i :: 0 <= i < |rows| ==> key(rows[i].0) in all
    requires forall k :: k in all ==> all[k] == ChildrenOf(rows, key, |rows|, k)
    ensures out == Consolidated(rows, key)
  {
    var buckets := all;
    out := [];
    var j := 0;
    while j < |rows|
      invariant 0 <= j <= |rows|
      invariant forall k :: k in buckets <==> k in all && k !in DistinctKeys(rows, key, j)
      invariant forall k :: k in buckets ==> buckets[k] == all[k]
      invariant out == Entries(rows, key, DistinctKeys(rows, key, j))
    {
      var k := key(rows[j].0);
      if k in buckets {
        EmitStep(rows, key, j);
        out := out + [(rows[j].0, buckets[k])];
        buckets := buckets - {k};
      } else {
        SkipStep(rows, key, j);
      }
      j := j + 1;
    }
  }

  /** A row whose key is new extends the keys by that key and the groups by that key's group. */
  lemma EmitStep<P, R, K>(rows: seq<(P, Option<R>)>, key: P -> K, j: nat)
    requires j < |rows| && key(rows[j].0) !in DistinctKeys(rows, key, j)
    ensures DistinctKeys(rows, key, j + 1) == DistinctKeys(rows, key, j) + [key(rows[j].0)]
    ensures Entries(rows, key, DistinctKeys(rows, key, j + 1)) ==
      Entries(rows, key, DistinctKeys(rows, key, j)) + [(rows[j].0, ChildrenOf(rows, key, |rows|, key(rows[j].0)))]
  {
    var k := key(rows[j].0);
    var ks := DistinctKeys(rows, key, j);
    assert !Seen(rows, key, j, k);
    FirstIndexIs(rows, key, |rows|, k, j);
    EntriesAppend(rows, key, ks, k);
  }

  /** A row whose key was already seen changes neither the keys nor the groups. */
  lemma SkipStep<P, R, K>(rows: seq<(P, Option<R>)>, key: P -> K, j: nat)
    requires j < |rows| && key(rows[j].0) in DistinctKeys(rows, key, j)
    ensures DistinctKeys(rows, key, j + 1) == DistinctKeys(rows, key, j)
  {
  }

  lemma EntriesAppend<P, R, K>(rows: seq<(P, Option<R>)>, key: P -> K, ks: seq<K>, k: K)
    requires forall k' :: k' in ks ==> Seen(rows, key, |rows|, k')
    requires Seen(rows, key, |rows|, k)
    ensures Entries(rows, key, ks + [k]) == Entries(rows, key, ks) + [Entry(rows, key, k)]
  {
    assert (ks + [k])[..|ks|] == ks;
  }

  lemma {:induction false} NotSeenNoChildren<P, R, K>(rows: seq<(P, Option<R>)>, key: P -> K, n: nat, k: K)
    requires n <= |rows| && !Seen(rows, key, n, k)
    ensures ChildrenOf(rows, key, n, k) == []
  {
    if n > 0 {
      NotSeenNoChildren(rows, key, n - 1, k);
    }
  }

  lemma {:induction false} FirstIndexIs<P, R, K>(rows: seq<(P, Option<R>)>, key: P -> K, n: nat, k: K, j: nat)
    requires j < n <= |rows| && key(rows[j].0) == k && !Seen(rows, key, j, k)
    ensures Seen(rows, key, n, k) && FirstIndex(rows, key, n, k) == j
  {
    if n - 1 > j {
      FirstIndexIs(rows, key, n - 1, k, j);
    }
  }

  // ---------------------------------------------------------------------------------------------
  // Properties of the grouping
  // ---------------------------------------------------------------------------------------------

  ghost predicate Distinct<T>(s: seq<T>) {
    forall a, b :: 0 <= a < b < |s| ==> s[a] != s[b]
  }

  lemma {:induction false} DistinctKeysDistinct<P, R, K>(rows: seq<(P, Option<R>)>, key: P -> K, n: nat)
    requires n <= |rows|
    ensures Distinct(DistinctKeys(rows, key, n))
  {
    if n > 0 {
      DistinctKeysDistinct(rows, key, n - 1);
    }
  }

  lemma {:induction false} FirstIndexStable<P, R, K>(rows: seq<(P, Option<R>)>, key: P -> K, n: nat, m: nat, k: K)
    requires n <= m <= |rows| && Seen(rows, key, n, k)
    ensures Seen(rows, key, m, k) && FirstIndex(rows, key, m, k) == FirstIndex(rows, key, n, k)
  {
    if m > n {
      FirstIndexStable(rows, key, n, m - 1, k);
    }
  }

  /** The keys `ks` are listed by increasing index of their first row among the first `n`. */
  ghost predicate InFirstSeenOrder<P, R, K>(rows: seq<(P, Option<R>)>, key: P -> K, n: nat, ks: seq<K>)
    requires n <= |rows| && forall k :: k in ks ==> Seen(rows, key, n, k)
  {
    forall a, b :: 0 <= a < b < |ks| ==> FirstIndex(rows, key, n, ks[a]) < FirstIndex(rows, key, n, ks[b])
  }

  lemma {:induction false} DistinctKeysByFirstIndex<P, R, K>(rows: seq<(P, Option<R>)>, key: P -> K, n: nat)
    requires n <= |rows|
    ensures InFirstSeenOrder(rows, key, n, DistinctKeys(rows, key, n))
  {
    if n > 0 {
      DistinctKeysByFirstIndex(rows, key, n - 1);
      OldKeysKeepFirstIndex(rows, key, n);
      if key(rows[n - 1].0) !in DistinctKeys(rows, key, n - 1) {
        NewKeyComesLast(rows, key, n, DistinctKeys(rows, key, n - 1));
      }
    }
  }

  /** Keys seen before row `n - 1` keep their first index, which lies before `n - 1`. */
  lemma OldKeysKeepFirstIndex<P, R, K>(rows: seq<(P, Option<R>)>, key: P -> K, n: nat)
    requires 0 < n <= |rows|
    requires InFirstSeenOrder(rows, key, n - 1, DistinctKeys(rows, key, n - 1))
    ensures forall k :: k in DistinctKeys(rows, key, n - 1) ==> Seen(rows, key, n, k)
    ensures var ks := DistinctKeys(rows, key, n - 1);
      forall a :: 0 <= a < |ks| ==> FirstIndex(rows, key, n, ks[a]) == FirstIndex(rows, key, n - 1, ks[a]) < n - 1
    ensures InFirstSeenOrder(rows, key, n, DistinctKeys(rows, key, n - 1))
  {
    var ks := DistinctKeys(rows, key, n - 1);
    forall k | k in ks
      ensures Seen(rows, key, n, k) && FirstIndex(rows, key, n, k) == FirstIndex(rows, key, n - 1, k)
    {
      FirstIndexStable(rows, key, n - 1, n, k);
    }
    forall a | 0 <= a < |ks|
      ensures FirstIndex(rows, key, n, ks[a]) == FirstIndex(rows, key, n - 1, ks[a]) < n - 1
    {
      assert ks[a] in ks;
    }
  }

  /** A key first seen at row `n - 1` comes after every earlier key in first-seen order. */
  lemma NewKeyComesLast<P, R, K>(rows: seq<(P, Option<R>)>, key: P -> K, n: nat, ks: seq<K>)
    requires 0 < n <= |rows| && ks == DistinctKeys(rows, key, n - 1) && key(rows[n - 1].0) !in ks
    requires forall k :: k in ks ==> Seen(rows, key, n, k)
    requires forall a :: 0 <= a < |ks| ==> FirstIndex(rows, key, n, ks[a]) < n - 1
    requires InFirstSeenOrder(rows, key, n, ks)
    ensures InFirstSeenOrder(rows, key, n, DistinctKeys(rows, key, n))
  {
    var k := key(rows[n - 1].0);
    assert !Seen(rows, key, n - 1, k);
    FirstIndexIs(rows, key, n, k, n - 1);
    var all := ks + [k];
    assert DistinctKeys(rows, key, n) == all;
    forall a, b | 0 <= a < b < |all|
      ensures FirstIndex(rows, key, n, all[a]) < FirstIndex(rows, key, n, all[b])
    {
      assert all[a] == ks[a];
      if b < |ks| {
        assert all[b] == ks[b];
      } else {
        assert all[b] == k;
      }
    }
  }

  /**
   * The output has exactly one group per distinct parent key: no key twice, every row's key
   * present, and each group's parent is the parent of that key's first row.
   */
  lemma OneGroupPerKey<P, R, K>(rows: seq<(P, Option<R>)>, key: P -> K)
    ensures var out := Consolidated(rows, key);
      && (forall a, b :: 0 <= a < b < |out| ==> key(out[a].0) != key(out[b].0))
      && (forall i :: 0 <= i < |rows| ==> exists a :: 0 <= a < |out| && key(out[a].0) == key(rows[i].0))
      && (forall a :: 0 <= a < |out| ==>
            var i := FirstIndex(rows, key, |rows|, key(out[a].0));
            out[a].0 == rows[i].0)
  {
    var ks := DistinctKeys(rows, key, |rows|);
    DistinctKeysDistinct(rows, key, |rows|);
    var out := Consolidated(rows, key);
    assert forall a :: 0 <= a < |out| ==> key(out[a].0) == ks[a];
    forall i | 0 <= i < |rows|
      ensures exists a :: 0 <= a < |out| && key(out[a].0) == key(rows[i].0)
    {
      assert Seen(rows, key, |rows|, key(rows[i].0));
      var a :| 0 <= a < |ks| && ks[a] == key(rows[i].0);
    }
  }

  /** Groups come out in the order in which their keys first appear in the rows. */
  lemma GroupsInFirstSeenOrder<P, R, K>(rows: seq<(P, Option<R>)>, key: P -> K)
    ensures var out := Consolidated(rows, key);
      forall a, b :: 0 <= a < b < |out| ==>
        && Seen(rows, key, |rows|, key(out[a].0)) && Seen(rows, key, |rows|, key(out[b].0))
        && FirstIndex(rows, key, |rows|, key(out[a].0)) < FirstIndex(rows, key, |rows|, key(out[b].0))
  {
    DistinctKeysByFirstIndex(rows, key, |rows|);
    var ks := DistinctKeys(rows, key, |rows|);
    assert InFirstSeenOrder(rows, key, |rows|, ks);
    var out := Consolidated(rows, key);
    forall a | 0 <= a < |out|
      ensures key(out[a].0) == ks[a] && Seen(rows, key, |rows|, key(out[a].0))
    {
      assert ks[a] in ks;
    }
    forall a, b | 0 <= a < b < |out|
      ensures FirstIndex(rows, key, |rows|, key(out[a].0)) < FirstIndex(rows, key, |rows|, key(out[b].0))
    {
      assert key(out[a].0) == ks[a] && key(out[b].0) == ks[b];
      assert FirstIndex(rows, key, |rows|, ks[a]) < FirstIndex(rows, key, |rows|, ks[b]);
    }
  }

  /**
   * Each group holds every `Some` child of its key, in row order, also when the rows are not
   * adjacent; a key whose rows all have a `None` child still has a group, with no children.
   */
  lemma ChildrenInRowOrder<P, R, K>(rows: seq<(P, Option<R>)>, key: P -> K, i: nat)
    requires i < |rows|
    ensures var out := Consolidated(rows, key);
      exists a :: 0 <= a < |out| && key(out[a].0) == key(rows[i].0) &&
        out[a].1 == ChildrenOf(rows, key, |rows|, key(rows[i].0))
    ensures (forall j :: 0 <= j < |rows| && key(rows[j].0) == key(rows[i].0) ==> rows[j].1.None?) ==>
      ChildrenOf(rows, key, |rows|, key(rows[i].0)) == []
  {
    var k := key(rows[i].0);
    var ks := DistinctKeys(rows, key, |rows|);
    var out := Consolidated(rows, key);
    assert Seen(rows, key, |rows|, k);
    var a :| 0 <= a < |ks| && ks[a] == k;
    assert key(out[a].0) == k;
    if forall j :: 0 <= j < |rows| && key(rows[j].0) == k ==> rows[j].1.None? {
      NoneOnlyNoChildren(rows, key, |rows|, k);
    }
  }

  lemma {:induction false} NoneOnlyNoChildren<P, R, K>(rows: seq<(P, Option<R>)>, key: P -> K, n: nat, k: K)
    requires n <= |rows|
    requires forall j :: 0 <= j < n && key(rows[j].0) == k ==> rows[j].1.None?
    ensures ChildrenOf(rows, key, n, k) == []
  {
    if n > 0 {
      NoneOnlyNoChildren(rows, key, n - 1, k);
    }
  }

  /** How many rows among the first `n` carry a `Some` child. */
  function SomeCount<P, R>(rows: seq<(P, Option<R>)>, n: nat): nat
    requires n <= |rows|
  {
    if n == 0 then 0 else SomeCount(rows, n - 1) + (if rows[n - 1].1.Some? then 1 else 0)
  }

  /** The number of children over all groups. */
  function TotalChildren<P, R>(groups: seq<(P, seq<R>)>): nat
  {
    if groups == [] then 0 else TotalChildren(groups[..|groups| - 1]) + |groups[|groups| - 1].1|
  }

  /** The number of children of the first `n` rows summed over the keys `ks`. */
  ghost function ChildCount<P, R, K>(rows: seq<(P, Option<R>)>, key: P -> K, n: nat, ks: seq<K>): nat
    requires n <= |rows|
  {
    if ks == [] then 0
    else ChildCount(rows, key, n, ks[..|ks| - 1]) + |ChildrenOf(rows, key, n, ks[|ks| - 1])|
  }

  lemma {:induction false} ChildCountStep<P, R, K>(rows: seq<(P, Option<R>)>, key: P -> K, n: nat, ks: seq<K>)
    requires 0 < n <= |rows| && Distinct(ks)
    ensures ChildCount(rows, key, n, ks) ==
      ChildCount(rows, key, n - 1, ks) + (if key(rows[n - 1].0) in ks && rows[n - 1].1.Some? then 1 else 0)
  {
    if ks != [] {
      var init := ks[..|ks| - 1];
      assert Distinct(init);
      assert key(rows[n - 1].0) in ks <==> key(rows[n - 1].0) in init || key(rows[n - 1].0) == ks[|ks| - 1];
      ChildCountStep(rows, key, n, init);
    }
  }

  /** Summed over distinct keys that cover the rows, the children are the `Some` rows. */
  lemma {:induction false} ChildCountCovering<P, R, K>(rows: seq<(P, Option<R>)>, key: P -> K, n: nat, ks: seq<K>)
    requires n <= |rows| && Distinct(ks)
    requires forall i :: 0 <= i < n ==> key(rows[i].0) in ks
    ensures ChildCount(rows, key, n, ks) == SomeCount(rows, n)
  {
    if n > 0 {
      ChildCountCovering(rows, key, n - 1, ks);
      ChildCountStep(rows, key, n, ks);
    } else {
      ChildCountEmpty(rows, key, ks);
    }
  }

  lemma {:induction false} ChildCountEmpty<P, R, K>(rows: seq<(P, Option<R>)>, key: P -> K, ks: seq<K>)
    ensures ChildCount(rows, key, 0, ks) == 0
  {
    if ks != [] {
      ChildCountEmpty(rows, key, ks[..|ks| - 1]);
    }
  }

  lemma ChildCountIsSomeCount<P, R, K>(rows: seq<(P, Option<R>)>, key: P -> K, n: nat)
    requires n <= |rows|
    ensures ChildCount(rows, key, n, DistinctKeys(rows, key, n)) == SomeCount(rows, n)
  {
    DistinctKeysDistinct(rows, key, n);
    ChildCountCovering(rows, key, n, DistinctKeys(rows, key, n));
  }

  lemma {:induction false} TotalOfEntries<P, R, K>(rows: seq<(P, Option<R>)>, key: P -> K, ks: seq<K>)
    requires forall k :: k in ks ==> Seen(rows, key, |rows|, k)
    ensures TotalChildren(Entries(rows, key, ks)) == ChildCount(rows, key, |rows|, ks)
  {
    if ks != [] {
      TotalOfEntries(rows, key, ks[..|ks| - 1]);
      var es := Entries(rows, key, ks);
      assert es[..|es| - 1] == Entries(rows, key, ks[..|ks| - 1]);
    }
  }

  /** No `Some` child is lost or duplicated: the groups hold exactly as many children as there are `Some` rows. */
  lemma ChildrenConserved<P, R, K>(rows: seq<(P, Option<R>)>, key: P -> K)
    ensures TotalChildren(Consolidated(rows, key)) == SomeCount(rows, |rows|)
  {
    TotalOfEntries(rows, key, DistinctKeys(rows, key, |rows|));
    ChildCountIsSomeCount(rows, key, |rows|);
  }

  // ---------------------------------------------------------------------------------------------
  // Keys by arity (`consolidate_query_result`, `ModelKey`)
  // ---------------------------------------------------------------------------------------------

  /** Which primary-key columns make up the grouping key: one column, a pair, or a vector. */
  datatype ModelKey<C> = UnitPk(col: C) | PairPk(first: C, second: C) | TuplePk(cols: seq<C>)

  /** The value of a grouping key: a value, a pair of values, or a vector of values. */
  datatype PkKey<V> = Unit(v: V) | Pair(a: V, b: V) | Tuple(vs: seq<V>)

  function KeyColumns<C>(mk: ModelKey<C>): seq<C>
  {
    match mk
    case UnitPk(c) => [c]
    case PairPk(c1, c2) => [c1, c2]
    case TuplePk(cs) => cs
  }

  /**
   * The key `consolidate_query_result` groups by: the first primary-key column for arity 1,
   * the first two for arity 2, every primary-key column otherwise. (Arity 1 or 2 with fewer
   * primary-key columns panics on `unwrap`.)
   */
  function ModelKeyFor<C>(pk: seq<C>, arity: nat): (mk: ModelKey<C>)
    requires arity == 1 || arity == 2 ==> |pk| >= arity
    ensures arity == 1 ==> mk.UnitPk? && KeyColumns(mk) == pk[..1]
    ensures arity == 2 ==> mk.PairPk? && KeyColumns(mk) == pk[..2]
    ensures arity != 1 && arity != 2 ==> mk.TuplePk? && KeyColumns(mk) == pk
  {
    if arity == 1 then UnitPk(pk[0])
    else if arity == 2 then PairPk(pk[0], pk[1])
    else TuplePk(pk)
  }

  /** The values a key holds, in key-column order. */
  function KeyValues<V>(k: PkKey<V>): seq<V>
  {
    match k
    case Unit(v) => [v]
    case Pair(a, b) => [a, b]
    case Tuple(vs) => vs
  }

  /**
   * `ModelKey::get`: the key of a parent, reading its columns with `column`. The key has the
   * shape of `mk` and holds the parent's value of each key column, in order.
   */
  function KeyValue<P, C, V>(mk: ModelKey<C>, column: (P, C) -> V, p: P): (k: PkKey<V>)
    ensures k.Unit? <==> mk.UnitPk?
    ensures k.Pair? <==> mk.PairPk?
    ensures k.Tuple? <==> mk.TuplePk?
    ensures |KeyValues(k)| == |KeyColumns(mk)|
    ensures forall i :: 0 <= i < |KeyColumns(mk)| ==> KeyValues(k)[i] == column(p, KeyColumns(mk)[i])
  {
    match mk
    case UnitPk(c) => Unit(column(p, c))
    case PairPk(c1, c2) => Pair(column(p, c1), column(p, c2))
    case TuplePk(cs) => Tuple(seq(|cs|, i requires 0 <= i < |cs| => column(p, cs[i])))
  }

  /** `TuplePk::get`: pushes the parent's value of each key column, in order. */
  method TupleKey<P, C, V>(cols: seq<C>, column: (P, C) -> V, p: P) returns (key: seq<V>)
    ensures Tuple(key) == KeyValue(TuplePk(cols), column, p)
  {
    key := [];
    var i := 0;
    while i < |cols|
      invariant 0 <= i <= |cols|
      invariant |key| == i
      invariant forall j :: 0 <= j < i ==> key[j] == column(p, cols[j])
    {
      key := key + [column(p, cols[i])];
      i := i + 1;
    }
  }

  /** Two parents share a key exactly when they agree on every key column. */
  lemma KeyEqualIffColumnsEqual<P, C, V>(mk: ModelKey<C>, column: (P, C) -> V, p: P, q: P)
    ensures KeyValue(mk, column, p) == KeyValue(mk, column, q) <==>
      forall i :: 0 <= i < |KeyColumns(mk)| ==> column(p, KeyColumns(mk)[i]) == column(q, KeyColumns(mk)[i])
  {
    match mk
    case UnitPk(c) =>
      assert KeyColumns(mk)[0] == c;
    case PairPk(c1, c2) =>
      assert KeyColumns(mk)[0] == c1 && KeyColumns(mk)[1] == c2;
    case TuplePk(cs) =>
      assert KeyColumns(mk) == cs;
      var kp := KeyValue(mk, column, p).vs;
      var kq := KeyValue(mk, column, q).vs;
      assert |kp| == |cs| && forall i :: 0 <= i < |cs| ==> kp[i] == column(p, cs[i]);
      assert |kq| == |cs| && forall i :: 0 <= i < |cs| ==> kq[i] == column(q, cs[i]);
      if forall i :: 0 <= i < |cs| ==> column(p, cs[i]) == column(q, cs[i]) {
        assert kp == kq;
      }
  }

  /** `consolidate_query_result`: groups by the key the arity dictates. */
  method ConsolidateQueryResult<P, R, C, V(==)>(rows: seq<(P, Option<R>)>, pk: seq<C>, arity: nat, column: (P, C) -> V)
    returns (out: seq<(P, seq<R>)>)
    requires arity == 1 || arity == 2 ==> |pk| >= arity
    ensures out == Consolidated(rows, p => KeyValue(ModelKeyFor(pk, arity), column, p))
  {
    var mk := ModelKeyFor(pk, arity);
    out := ConsolidateQueryResultOf(rows, p => KeyValue(mk, column, p));
  }

  // ---------------------------------------------------------------------------------------------
  // The legacy adjacent-run algorithm (`consolidate_query_result_of_ordered_rows`)
  // ---------------------------------------------------------------------------------------------

  /** Whether two parents agree on every primary-key column. */
  predicate SameKey<P, C, V(==)>(pk: seq<C>, column: (P, C) -> V, l: P, last: P)
  {
    forall i :: 0 <= i < |pk| ==> column(l, pk[i]) == column(last, pk[i])
  }

  /** The inner loop of the legacy algorithm: compares the key columns one by one, stopping at the first difference. */
  method SameParent<P, C, V(==)>(pk: seq<C>, column: (P, C) -> V, l: P, last: P) returns (same: bool)
    ensures same <==> SameKey(pk, column, l, last)
  {
    same := true;
    var j := 0;
    while j < |pk|
      invariant 0 <= j <= |pk|
      invariant forall k :: 0 <= k < j ==> column(l, pk[k]) == column(last, pk[k])
    {
      if column(l, pk[j]) != column(last, pk[j]) {
        return false;
      }
      j := j + 1;
    }
  }

  /** The result of the legacy algorithm on the first `n` rows. */
  function LegacyGroups<P, R, C, V(==)>(rows: seq<(P, Option<R>)>, pk: seq<C>, column: (P, C) -> V, n: nat)
    : (acc: seq<(P, seq<R>)>)
    requires n <= |rows|
    ensures n > 0 ==> |acc| > 0
  {
    if n == 0 then []
    else
      var acc := LegacyGroups(rows, pk, column, n - 1);
      var (l, r) := rows[n - 1];
      if |acc| > 0 && SameKey(pk, column, l, acc[|acc| - 1].0) && r.Some? then
        acc[..|acc| - 1] + [(acc[|acc| - 1].0, acc[|acc| - 1].1 + [r.value])]
      else
        acc + [(l, if r.Some? then [r.value] else [])]
  }

  /**
   * `consolidate_query_result_of_ordered_rows`: a row joins the last group only when its key
   * equals that group's key and it carries a child; otherwise it starts a new group.
   */
  method ConsolidateOrderedRows<P, R, C, V(==)>(rows: seq<(P, Option<R>)>, pk: seq<C>, column: (P, C) -> V)
    returns (acc: seq<(P, seq<R>)>)
    ensures acc == LegacyGroups(rows, pk, column, |rows|)
  {
    acc := [];
    var i := 0;
    while i < |rows|
      invariant 0 <= i <= |rows|
      invariant acc == LegacyGroups(rows, pk, column, i)
    {
      var (l, r) := rows[i];
      if |acc| > 0 {
        var last := acc[|acc| - 1];
        var sameL := SameParent(pk, column, l, last.0);
        if sameL && r.Some? {
          acc := acc[..|acc| - 1] + [(last.0, last.1 + [r.value])];
          i := i + 1;
          continue;
        }
      }
      acc := acc + [(l, if r.Some? then [r.value] else [])];
      i := i + 1;
    }
  }

  /** The legacy algorithm loses no child either. */
  lemma {:induction false} LegacyConservesChildren<P, R, C, V>(rows: seq<(P, Option<R>)>, pk: seq<C>, column: (P, C) -> V, n: nat)
    requires n <= |rows|
    ensures TotalChildren(LegacyGroups(rows, pk, column, n)) == SomeCount(rows, n)
  {
    if n > 0 {
      LegacyConservesChildren(rows, pk, column, n - 1);
      var acc := LegacyGroups(rows, pk, column, n - 1);
      var res := LegacyGroups(rows, pk, column, n);
      assert res[..|res| - 1] == acc || res[..|res| - 1] == acc[..|acc| - 1];
      if |acc| > 0 && SameKey(pk, column, rows[n - 1].0, acc[|acc| - 1].0) && rows[n - 1].1.Some? {
        assert res[..|res| - 1] == acc[..|acc| - 1];
      } else {
        assert res[..|res| - 1] == acc;
      }
    }
  }
}
