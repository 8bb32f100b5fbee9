/** Sorting in place under a strict order, and when its outcome is unique. Go's
    sort.Slice promises a sorted permutation and nothing about ties; the method here
    is the insertion sort it runs on short slices. */
module Sorting {

  ghost predicate StrictWeakOrder<T(!new)>(less: (T, T) -> bool) {
    && (forall x, y :: less(x, y) ==> !less(y, x))
    && (forall x, y, z :: less(x, y) ==> less(x, z) || less(z, y))
  }

  ghost predicate Sorted<T>(s: seq<T>, less: (T, T) -> bool) {
    forall i, j :: 0 <= i < j < |s| ==> !less(s[j], s[i])
  }

  /** s is sorted except that the element at j may be too small for its place. */
  ghost predicate SortedBut<T>(s: seq<T>, j: nat, less: (T, T) -> bool) {
    forall a, b :: 0 <= a < b < |s| && b != j ==> !less(s[b], s[a])
  }

  function Swapped<T>(s: seq<T>, i: nat, j: nat): seq<T>
    requires i < |s| && j < |s|
  {
    s[i := s[j]][j := s[i]]
  }

  lemma SwapKeepsMultiset<T>(s: seq<T>, i: nat, j: nat)
    requires i < |s| && j < |s|
    ensures multiset(Swapped(s, i, j)) == multiset(s)
  {
  }

  lemma NotLessTransitive<T(!new)>(less: (T, T) -> bool, x: T, y: T, z: T)
    requires StrictWeakOrder(less)
    requires !less(x, y) && !less(y, z)
    ensures !less(x, z)
  {
  }

  /** Moving the out-of-place element one step down keeps all else sorted. */
  lemma SwapDown<T(!new)>(s: seq<T>, j: nat, less: (T, T) -> bool)
    requires StrictWeakOrder(less)
    requires 0 < j < |s| && SortedBut(s, j, less)
    requires less(s[j], s[j - 1])
    ensures SortedBut(Swapped(s, j - 1, j), j - 1, less)
  {
    var t := Swapped(s, j - 1, j);
    forall a, b | 0 <= a < b < |t| && b != j - 1 ensures !less(t[b], t[a]) {
      if b == j {
        if a == j - 1 {
          assert less(t[a], t[b]);
        } else {
          assert t[b] == s[j - 1] && t[a] == s[a];
        }
      } else {
        assert t[b] == s[b];
        if a == j - 1 {
          assert t[a] == s[j];
        } else if a == j {
          assert t[a] == s[j - 1];
        }
      }
    }
  }

  lemma InPlace<T(!new)>(s: seq<T>, j: nat, less: (T, T) -> bool)
    requires StrictWeakOrder(less)
    requires j < |s| && SortedBut(s, j, less)
    requires j > 0 ==> !less(s[j], s[j - 1])
    ensures Sorted(s, less)
  {
    forall a | 0 <= a < j ensures !less(s[j], s[a]) {
      if a < j - 1 {
        NotLessTransitive(less, s[j], s[j - 1], s[a]);
      }
    }
  }

  method SortInPlace<T(!new)>(a: array<T>, less: (T, T) -> bool)
    requires StrictWeakOrder(less)
    modifies a
    ensures Sorted(a[..], less)
    ensures multiset(a[..]) == multiset(old(a[..]))
  {
    var i := 0;
    while i < a.Length
      invariant 0 <= i <= a.Length
      invariant Sorted(a[..i], less)
      invariant multiset(a[..]) == multiset(old(a[..]))
    {
      Insert(a, i, less);
      i := i + 1;
    }
    assert a[..] == a[..i];
  }

  /** Sinks a[i] into the sorted part before it. */
  method Insert<T(!new)>(a: array<T>, i: nat, less: (T, T) -> bool)
    requires StrictWeakOrder(less)
    requires i < a.Length && Sorted(a[..i], less)
    modifies a
    ensures Sorted(a[..i + 1], less)
    ensures multiset(a[..]) == multiset(old(a[..]))
  {
    var j := i;
    assert SortedBut(a[..i + 1], i, less) by {
      assert forall k :: 0 <= k < i ==> a[..i + 1][k] == a[..i][k];
    }
    while j > 0 && less(a[j], a[j - 1])
      invariant 0 <= j <= i
      invariant SortedBut(a[..i + 1], j, less)
      invariant multiset(a[..]) == multiset(old(a[..]))
    {
      ghost var whole, part := a[..], a[..i + 1];
      SwapDown(part, j, less);
      SwapKeepsMultiset(whole, j - 1, j);
      a[j], a[j - 1] := a[j - 1], a[j];
      assert a[..] == Swapped(whole, j - 1, j);
      assert a[..i + 1] == Swapped(part, j - 1, j);
      j := j - 1;
    }
    InPlace(a[..i + 1], j, less);
  }

  // --------------------------------------------------------------- uniqueness

  /** Ties happen only between equal elements of s. */
  ghost predicate NoTies<T>(s: seq<T>, less: (T, T) -> bool) {
    forall x, y :: x in s && y in s ==> x == y || less(x, y) || less(y, x)
  }

  lemma SameHead<T>(s: seq<T>, t: seq<T>, less: (T, T) -> bool)
    requires Sorted(s, less) && Sorted(t, less)
    requires multiset(s) == multiset(t) && s != [] && t != []
    requires NoTies(s, less)
    ensures s[0] == t[0]
  {
    assert s[0] in multiset(t) && t[0] in multiset(s);
    var i :| 0 <= i < |t| && t[i] == s[0];
    var j :| 0 <= j < |s| && s[j] == t[0];
  }

  lemma SameTail<T>(s: seq<T>, t: seq<T>)
    requires multiset(s) == multiset(t) && s != [] && t != [] && s[0] == t[0]
    ensures multiset(s[1..]) == multiset(t[1..])
  {
    assert s == [s[0]] + s[1..] && t == [t[0]] + t[1..];
    assert multiset(s[1..]) == multiset(s) - multiset{s[0]};
    assert multiset(t[1..]) == multiset(t) - multiset{t[0]};
  }

  /** Without ties, all sorted permutations of a sequence are the same sequence. */
  lemma {:induction false} SortedUnique<T>(s: seq<T>, t: seq<T>, less: (T, T) -> bool)
    requires Sorted(s, less) && Sorted(t, less)
    requires multiset(s) == multiset(t)
    requires NoTies(s, less)
    ensures s == t
  {
    assert |s| == |multiset(s)| == |t|;
    if s != [] {
      SameHead(s, t, less);
      SameTail(s, t);
      assert forall x :: x in s[1..] ==> x in s;
      SortedUnique(s[1..], t[1..], less);
      assert s == [s[0]] + s[1..] && t == [t[0]] + t[1..];
    }
  }

  /** Two neighbours in a tie can change places: the permutation stays sorted. */
  lemma SwapTie<T(!new)>(s: seq<T>, i: nat, j: nat, less: (T, T) -> bool)
    requires StrictWeakOrder(less)
    requires Sorted(s, less)
    requires i < |s| && j < |s| && !less(s[i], s[j]) && !less(s[j], s[i])
    ensures Sorted(Swapped(s, i, j), less)
    ensures multiset(Swapped(s, i, j)) == multiset(s)
  {
    SwapKeepsMultiset(s, i, j);
    var t := Swapped(s, i, j);
    forall a, b | 0 <= a < b < |t| ensures !less(t[b], t[a]) {
      // t[k] is tied with s[k] at every position, so t is ordered as s is
      NotLessTransitive(less, t[b], s[b], s[a]);
      NotLessTransitive(less, t[b], s[a], t[a]);
    }
  }

  /** Putting one element in its place, for building sorted sequences in proofs. */
  ghost function Inserted<T>(s: seq<T>, x: T, less: (T, T) -> bool): seq<T> {
    if s == [] then [x]
    else if less(s[0], x) then [s[0]] + Inserted(s[1..], x, less)
    else [x] + s
  }

  lemma {:induction false} InsertedSorted<T(!new)>(s: seq<T>, x: T, less: (T, T) -> bool)
    requires StrictWeakOrder(less) && Sorted(s, less)
    ensures Sorted(Inserted(s, x, less), less)
    ensures multiset(Inserted(s, x, less)) == multiset(s) + multiset{x}
  {
    if s != [] {
      assert s == [s[0]] + s[1..];
      if less(s[0], x) {
        InsertedSorted(s[1..], x, less);
        var r := Inserted(s[1..], x, less);
        forall k | 0 <= k < |r| ensures !less(r[k], s[0]) {
          assert r[k] in multiset(r);
          if r[k] != x {
            assert r[k] in s[1..];
          }
        }
      } else {
        forall k | 0 <= k < |s| ensures !less(s[k], x) {
          if k > 0 {
            NotLessTransitive(less, s[k], s[0], x);
          }
        }
      }
    }
  }
}
