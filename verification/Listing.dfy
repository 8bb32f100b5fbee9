/** Listing the entries of a map in some order, as a Go `range` loop that appends
    one item an entry does. Two keys may give the same item, so listings count. */
module Listing {
  import opened Sorting

  ghost function KeysGiving<K, V, T>(m: map<K, V>, item: (K, V) -> T, t: T): set<K> {
    set k | k in m && item(k, m[k]) == t
  }

  /** r holds, in any order, one item for every entry of m. */
  ghost predicate IsListing<K, V, T(!new)>(r: seq<T>, m: map<K, V>, item: (K, V) -> T) {
    forall t :: multiset(r)[t] == |KeysGiving(m, item, t)|
  }

  lemma ListingOfEmpty<K, V, T(!new)>(item: (K, V) -> T)
    ensures IsListing([], map[], item)
  {
    forall t ensures multiset([])[t] == |KeysGiving(map[], item, t)| {
      assert KeysGiving(map[], item, t) == {};
    }
  }

  lemma ListingExtend<K, V, T(!new)>(r: seq<T>, m: map<K, V>, item: (K, V) -> T, k: K, v: V)
    requires IsListing(r, m, item) && k !in m
    ensures IsListing(r + [item(k, v)], m[k := v], item)
  {
    var x, n := item(k, v), m[k := v];
    assert multiset(r + [x]) == multiset(r) + multiset{x};
    forall t ensures multiset(r + [x])[t] == |KeysGiving(n, item, t)| {
      if t == x {
        assert KeysGiving(n, item, t) == KeysGiving(m, item, t) + {k};
      } else {
        assert KeysGiving(n, item, t) == KeysGiving(m, item, t);
      }
    }
  }

  lemma ListingDrop<K, V, T(!new)>(r: seq<T>, m: map<K, V>, item: (K, V) -> T, k: K) returns (i: nat)
    requires IsListing(r, m, item) && k in m
    ensures i < |r| && r[i] == item(k, m[k])
    ensures IsListing(r[..i] + r[i + 1..], m - {k}, item)
  {
    var x, n := item(k, m[k]), m - {k};
    assert k in KeysGiving(m, item, x);
    assert multiset(r)[x] > 0;
    i :| 0 <= i < |r| && r[i] == x;
    var rest := r[..i] + r[i + 1..];
    assert r == r[..i] + [x] + r[i + 1..];
    assert multiset(r) == multiset(rest) + multiset{x};
    forall t ensures multiset(rest)[t] == |KeysGiving(n, item, t)| {
      if t == x {
        assert KeysGiving(n, item, t) == KeysGiving(m, item, t) - {k};
      } else {
        assert KeysGiving(n, item, t) == KeysGiving(m, item, t);
      }
    }
  }

  lemma {:induction false} ListingSize<K, V, T(!new)>(r: seq<T>, m: map<K, V>, item: (K, V) -> T)
    requires IsListing(r, m, item)
    ensures |r| == |m|
    decreases |m|
  {
    if m == map[] {
      forall t ensures multiset(r)[t] == 0 {
        assert KeysGiving(m, item, t) == {};
      }
      assert multiset(r) == multiset{} && |multiset(r)| == |r|;
    } else {
      var k :| k in m;
      var i := ListingDrop(r, m, item, k);
      assert (m - {k}).Keys == m.Keys - {k};
      ListingSize(r[..i] + r[i + 1..], m - {k}, item);
    }
  }

  lemma ListingMember<K, V, T(!new)>(r: seq<T>, m: map<K, V>, item: (K, V) -> T, t: T)
    requires IsListing(r, m, item)
    ensures t in r <==> exists k :: k in m && item(k, m[k]) == t
  {
    assert t in r <==> multiset(r)[t] > 0;
    if t in r {
      assert KeysGiving(m, item, t) != {};
      var k :| k in KeysGiving(m, item, t);
    }
    if exists k :: k in m && item(k, m[k]) == t {
      var k :| k in m && item(k, m[k]) == t;
      assert k in KeysGiving(m, item, t);
    }
  }

  lemma ListingsArePermutations<K, V, T(!new)>(r: seq<T>, s: seq<T>, m: map<K, V>, item: (K, V) -> T)
    requires IsListing(r, m, item)
    ensures IsListing(s, m, item) <==> multiset(s) == multiset(r)
  {
    if IsListing(s, m, item) {
      forall t ensures multiset(s)[t] == multiset(r)[t] {
        assert multiset(s)[t] == |KeysGiving(m, item, t)|;
      }
    }
  }

  /** A sorted listing exists for every map and order. */
  lemma {:induction false} SortedListing<K, V, T(!new)>(m: map<K, V>, item: (K, V) -> T, less: (T, T) -> bool)
      returns (r: seq<T>)
    requires StrictWeakOrder(less)
    ensures IsListing(r, m, item) && Sorted(r, less)
    decreases |m|
  {
    if m == map[] {
      r := [];
      ListingOfEmpty(item);
    } else {
      var k :| k in m;
      var n := m - {k};
      assert n.Keys == m.Keys - {k};
      var s := SortedListing(n, item, less);
      ListingExtend(s, n, item, k, m[k]);
      assert n[k := m[k]] == m;
      r := Inserted(s, item(k, m[k]), less);
      InsertedSorted(s, item(k, m[k]), less);
      assert multiset(s + [item(k, m[k])]) == multiset(r);
      ListingsArePermutations(s + [item(k, m[k])], r, m, item);
    }
  }
}
