/**
 * Grouping a list by a key into a JavaScript `Map`: the keys in the order they first appear, each with
 * its elements in list order.
 */
module Grouping {

  /** The distinct keys, in order of first appearance. */
  function KeysOf<D(!new), K(==,!new)>(ds: seq<D>, key: D -> K): (ks: seq<K>)
    ensures forall k :: k in ks <==> exists d :: d in ds && key(d) == k
    decreases |ds|
  {
    if ds == [] then []
    else
      var n := |ds| - 1;
      var ks := KeysOf(ds[..n], key);
      assert ds == ds[..n] + [ds[n]];
      if key(ds[n]) in ks then ks else ks + [key(ds[n])]
  }

  /** The elements of one key, in list order. */
  function Members<D(!new), K(==,!new)>(ds: seq<D>, key: D -> K, k: K): (ms: seq<D>)
    ensures forall d :: d in ms <==> d in ds && key(d) == k
    decreases |ds|
  {
    if ds == [] then []
    else
      var n := |ds| - 1;
      assert ds == ds[..n] + [ds[n]];
      Members(ds[..n], key, k) + if key(ds[n]) == k then [ds[n]] else []
  }

  predicate Distinct<K(==)>(ks: seq<K>) {
    forall i, j :: 0 <= i < j < |ks| ==> ks[i] != ks[j]
  }

  lemma {:induction false} KeysDistinct<D(!new), K(!new)>(ds: seq<D>, key: D -> K)
    ensures Distinct(KeysOf(ds, key))
    decreases |ds|
  {
    if ds != [] { KeysDistinct(ds[..|ds| - 1], key); }
  }

  lemma {:induction false} NoMembers<D(!new), K(!new)>(ds: seq<D>, key: D -> K, k: K)
    requires k !in KeysOf(ds, key)
    ensures Members(ds, key, k) == []
    decreases |ds|
  {
    if ds != [] {
      var n := |ds| - 1;
      assert ds[n] in ds;
      NoMembers(ds[..n], key, k);
    }
  }

  lemma PrefixNext<D(!new)>(ds: seq<D>, i: nat)
    requires i < |ds|
    ensures ds[..i] + [ds[i]] == ds[..i + 1]
  {
  }

  /** What one more element does to the keys and to every group. */
  lemma Extend<D(!new), K(!new)>(ds: seq<D>, key: D -> K, d: D)
    ensures KeysOf(ds + [d], key) == if key(d) in KeysOf(ds, key) then KeysOf(ds, key) else KeysOf(ds, key) + [key(d)]
    ensures forall k :: Members(ds + [d], key, k) == Members(ds, key, k) + if key(d) == k then [d] else []
  {
    assert (ds + [d])[..|ds|] == ds;
  }

  /** Restricting a list to one key leaves that key's group as it was, and no other. */
  lemma {:induction false} MembersOfMembers<D(!new), K(!new)>(ds: seq<D>, key: D -> K, k: K)
    ensures Members(Members(ds, key, k), key, k) == Members(ds, key, k)
    ensures KeysOf(Members(ds, key, k), key) == if k in KeysOf(ds, key) then [k] else []
    decreases |ds|
  {
    if ds != [] {
      var n := |ds| - 1;
      MembersOfMembers(ds[..n], key, k);
      MembersOfMembersNext(ds[..n], key, k, ds[n]);
      PrefixNext(ds, n);
      assert ds[..n + 1] == ds;
    }
  }

  lemma MembersOfMembersNext<D(!new), K(!new)>(ds: seq<D>, key: D -> K, k: K, d: D)
    requires Members(Members(ds, key, k), key, k) == Members(ds, key, k)
    requires KeysOf(Members(ds, key, k), key) == if k in KeysOf(ds, key) then [k] else []
    ensures Members(Members(ds + [d], key, k), key, k) == Members(ds + [d], key, k)
    ensures KeysOf(Members(ds + [d], key, k), key) == if k in KeysOf(ds + [d], key) then [k] else []
  {
    Extend(ds, key, d);
    if key(d) == k {
      Extend(Members(ds, key, k), key, d);
    } else {
      assert Members(ds, key, k) + [] == Members(ds, key, k);
    }
  }

  /** The map holds exactly the keys listed, each with its group. */
  ghost predicate Grouped<D(!new), K(!new)>(groups: map<K, seq<D>>, ds: seq<D>, key: D -> K) {
    forall k :: if k in groups then k in KeysOf(ds, key) && groups[k] == Members(ds, key, k) else k !in KeysOf(ds, key)
  }

  lemma GroupOf<D(!new), K(!new)>(groups: map<K, seq<D>>, ds: seq<D>, key: D -> K, k: K)
    requires Grouped(groups, ds, key) && k in KeysOf(ds, key)
    ensures k in groups && groups[k] == Members(ds, key, k)
  {
  }

  /** The map after one more element. */
  function Add<D(!new), K(!new)>(groups: map<K, seq<D>>, k: K, d: D): map<K, seq<D>> {
    if k in groups then groups[k := groups[k] + [d]] else groups[k := [d]]
  }

  lemma GroupedStep<D(!new), K(!new)>(groups: map<K, seq<D>>, ds: seq<D>, key: D -> K, d: D)
    requires Grouped(groups, ds, key)
    ensures Grouped(Add(groups, key(d), d), ds + [d], key)
  {
    Extend(ds, key, d);
    if key(d) !in groups { NoMembers(ds, key, key(d)); }
  }

  lemma KeysStep<D(!new), K(!new)>(groups: map<K, seq<D>>, ds: seq<D>, key: D -> K, d: D)
    requires Grouped(groups, ds, key)
    ensures KeysOf(ds + [d], key) == if key(d) in groups then KeysOf(ds, key) else KeysOf(ds, key) + [key(d)]
  {
    Extend(ds, key, d);
  }

  /** Fill the map: an existing bucket is extended, a new one inserted at the end. */
  method Group<D(!new), K(==,!new)>(ds: seq<D>, key: D -> K) returns (order: seq<K>, groups: map<K, seq<D>>)
    ensures order == KeysOf(ds, key)
    ensures Grouped(groups, ds, key)
  {
    order, groups := [], map[];
    for i := 0 to |ds|
      invariant order == KeysOf(ds[..i], key)
      invariant Grouped(groups, ds[..i], key)
    {
      GroupedStep(groups, ds[..i], key, ds[i]);
      KeysStep(groups, ds[..i], key, ds[i]);
      PrefixNext(ds, i);
      var k := key(ds[i]);
      if k !in groups { order := order + [k]; }
      groups := Add(groups, k, ds[i]);
    }
    assert ds[..|ds|] == ds;
  }
}
