/** The PCR map of an attestation as the sorted vector the on-chain allowlist hashes
    (pcrMapToContractPCRs in pkg/policy/policy.go). */
module PcrVector {
  import opened Prelude
  import opened Claims
  import opened Sorting
  import opened Listing

  datatype Pcr = Pcr(index: byte, value: Hash32)

  /** The struct built for one map entry; Go's uint8 conversion truncates the index. */
  function ToPcr(index: nat, value: Hash32): Pcr {
    Pcr(index % 256, value)
  }

  predicate LessIndex(a: Pcr, b: Pcr) {
    a.index < b.index
  }

  ghost predicate IsPcrVector(r: seq<Pcr>, pcrs: PcrMap) {
    Sorted(r, LessIndex) && IsListing(r, pcrs, ToPcr)
  }

  lemma LessIndexIsOrder()
    ensures StrictWeakOrder(LessIndex)
  {
  }

  /** pcrMapToContractPCRs: the keys come in any order. */
  method PcrMapToContractPcrs(pcrs: PcrMap) returns (r: seq<Pcr>)
    ensures IsPcrVector(r, pcrs)
  {
    var result: seq<Pcr> := [];
    var todo := pcrs.Keys;
    ghost var done: map<nat, Hash32> := map[];
    ListingOfEmpty(ToPcr);
    while todo != {}
      invariant todo <= pcrs.Keys
      invariant done == map k | k in pcrs && k !in todo :: pcrs[k]
      invariant IsListing(result, done, ToPcr)
      decreases |todo|
    {
      var idx :| idx in todo;
      ListingExtend(result, done, ToPcr, idx, pcrs[idx]);
      result := result + [ToPcr(idx, pcrs[idx])];
      todo := todo - {idx};
      done := done[idx := pcrs[idx]];
    }
    assert done == pcrs;
    var slice := new Pcr[|result|](i requires 0 <= i < |result| => result[i]);
    assert slice[..] == result;
    LessIndexIsOrder();
    SortInPlace(slice, LessIndex);
    r := slice[..];
    ListingsArePermutations(result, r, pcrs, ToPcr);
  }

  /** No two registers share an 8-bit index and differ in value. */
  ghost predicate NoIndexClash(pcrs: PcrMap) {
    forall j, k :: j in pcrs && k in pcrs && j % 256 == k % 256 ==> pcrs[j] == pcrs[k]
  }

  /** The vector is the same for every iteration order and every outcome of the
      unstable sort exactly when no two registers clash in their 8-bit index. */
  lemma PcrVectorUniqueIff(pcrs: PcrMap)
    ensures (forall r, s :: IsPcrVector(r, pcrs) && IsPcrVector(s, pcrs) ==> r == s) <==> NoIndexClash(pcrs)
  {
    LessIndexIsOrder();
    if NoIndexClash(pcrs) {
      forall r, s | IsPcrVector(r, pcrs) && IsPcrVector(s, pcrs) ensures r == s {
        ListingsArePermutations(r, s, pcrs, ToPcr);
        NoClashNoTies(r, pcrs);
        SortedUnique(r, s, LessIndex);
      }
    } else {
      var j, k :| j in pcrs && k in pcrs && j % 256 == k % 256 && pcrs[j] != pcrs[k];
      var r := SortedListing(pcrs, ToPcr, LessIndex);
      ListingMember(r, pcrs, ToPcr, ToPcr(j, pcrs[j]));
      ListingMember(r, pcrs, ToPcr, ToPcr(k, pcrs[k]));
      var a :| 0 <= a < |r| && r[a] == ToPcr(j, pcrs[j]);
      var b :| 0 <= b < |r| && r[b] == ToPcr(k, pcrs[k]);
      SwapTie(r, a, b, LessIndex);
      var s := Swapped(r, a, b);
      ListingsArePermutations(r, s, pcrs, ToPcr);
      assert s[a] != r[a];
      assert IsPcrVector(r, pcrs) && IsPcrVector(s, pcrs) && r != s;
    }
  }

  lemma NoClashNoTies(r: seq<Pcr>, pcrs: PcrMap)
    requires IsListing(r, pcrs, ToPcr) && NoIndexClash(pcrs)
    ensures NoTies(r, LessIndex)
  {
    forall x, y | x in r && y in r ensures x == y || LessIndex(x, y) || LessIndex(y, x) {
      ListingMember(r, pcrs, ToPcr, x);
      ListingMember(r, pcrs, ToPcr, y);
      var j :| j in pcrs && ToPcr(j, pcrs[j]) == x;
      var k :| k in pcrs && ToPcr(k, pcrs[k]) == y;
    }
  }

  /** All register indices fit the contract's uint8; Verify asks for 4, 8 and 9. */
  ghost predicate SmallIndices(pcrs: PcrMap) {
    forall k :: k in pcrs ==> k < 256
  }

  /** The canonical form: strictly increasing, as many registers as the map, and
      exactly its entries. */
  lemma PcrVectorCanonical(r: seq<Pcr>, pcrs: PcrMap)
    requires IsPcrVector(r, pcrs) && SmallIndices(pcrs)
    ensures forall i, j :: 0 <= i < j < |r| ==> r[i].index < r[j].index
    ensures |r| == |pcrs|
    ensures forall p :: p in r <==> p.index in pcrs && pcrs[p.index] == p.value
  {
    ListingSize(r, pcrs, ToPcr);
    forall p ensures p in r <==> p.index in pcrs && pcrs[p.index] == p.value {
      ListingMember(r, pcrs, ToPcr, p);
      if p.index in pcrs && pcrs[p.index] == p.value {
        assert ToPcr(p.index, pcrs[p.index]) == p;
      }
    }
    forall i, j | 0 <= i < j < |r| ensures r[i].index < r[j].index {
      assert !LessIndex(r[j], r[i]);
      if r[i].index == r[j].index {
        assert r[i] in r && r[j] in r;
        PcrAtMostOnce(r, pcrs, r[i]);
        TwoPlacesTwoCopies(r, i, j);
      }
    }
  }

  lemma TwoPlacesTwoCopies<T>(r: seq<T>, i: nat, j: nat)
    requires i < j < |r|
    ensures r[i] == r[j] ==> multiset(r)[r[i]] >= 2
  {
    assert r == r[..i] + [r[i]] + r[i + 1..j] + [r[j]] + r[j + 1..];
  }

  lemma PcrAtMostOnce(r: seq<Pcr>, pcrs: PcrMap, p: Pcr)
    requires IsListing(r, pcrs, ToPcr) && SmallIndices(pcrs)
    ensures multiset(r)[p] <= 1
  {
    SubsetSize(KeysGiving(pcrs, ToPcr, p), {p.index as nat});
  }

  lemma {:induction false} SubsetSize<T>(a: set<T>, b: set<T>)
    requires a <= b
    ensures |a| <= |b|
  {
    assert b == a + (b - a);
  }

  /** Within uint8 indices the vector determines the register map. */
  lemma PcrVectorInjective(r: seq<Pcr>, a: PcrMap, b: PcrMap)
    requires SmallIndices(a) && SmallIndices(b)
    requires IsPcrVector(r, a) && IsPcrVector(r, b)
    ensures a == b
  {
    PcrVectorCanonical(r, a);
    PcrVectorCanonical(r, b);
    assert forall k :: k in a ==> Pcr(k, a[k]) in r;
    assert forall k :: k in b ==> Pcr(k, b[k]) in r;
    forall k ensures k in a <==> k in b {
      if k in a { assert Pcr(k, a[k]).index == k; }
      if k in b { assert Pcr(k, b[k]).index == k; }
    }
  }

  /** The vector by counting indices upwards: what the loop and the sort amount to. */
  function PcrVectorFrom(pcrs: PcrMap, i: nat): seq<Pcr>
    decreases 256 - i
  {
    if i >= 256 then []
    else (if i in pcrs then [Pcr(i, pcrs[i])] else []) + PcrVectorFrom(pcrs, i + 1)
  }

  ghost function FromIndex(pcrs: PcrMap, i: nat): PcrMap {
    map k | k in pcrs && k >= i :: pcrs[k]
  }

  lemma {:induction false} PcrVectorFromIsListing(pcrs: PcrMap, i: nat)
    requires i <= 256 && SmallIndices(pcrs)
    ensures Sorted(PcrVectorFrom(pcrs, i), LessIndex)
    ensures forall p :: p in PcrVectorFrom(pcrs, i) ==> p.index >= i
    ensures IsListing(PcrVectorFrom(pcrs, i), FromIndex(pcrs, i), ToPcr)
    decreases 256 - i
  {
    if i == 256 {
      assert FromIndex(pcrs, i) == map[];
      ListingOfEmpty(ToPcr);
    } else {
      PcrVectorFromIsListing(pcrs, i + 1);
      if i in pcrs {
        assert FromIndex(pcrs, i) == FromIndex(pcrs, i + 1)[i := pcrs[i]];
        PrependPcr(PcrVectorFrom(pcrs, i + 1), FromIndex(pcrs, i + 1), i, pcrs[i]);
      } else {
        assert FromIndex(pcrs, i) == FromIndex(pcrs, i + 1);
        assert PcrVectorFrom(pcrs, i) == PcrVectorFrom(pcrs, i + 1);
      }
    }
  }

  lemma PrependSorted(r: seq<Pcr>, p: Pcr)
    requires Sorted(r, LessIndex) && forall q :: q in r ==> q.index >= p.index
    ensures Sorted([p] + r, LessIndex)
    ensures forall q :: q in [p] + r ==> q.index >= p.index
  {
    assert forall k :: 0 <= k < |r| ==> r[k] in r;
    assert forall q :: q in [p] + r ==> q == p || q in r;
  }

  lemma PrependListing(r: seq<Pcr>, pcrs: PcrMap, i: nat, value: Hash32)
    requires IsListing(r, pcrs, ToPcr) && i !in pcrs && i < 0x1_0000_0000
    ensures IsListing([ToPcr(i, value)] + r, pcrs[i := value], ToPcr)
  {
    hide IsListing;
    var p := ToPcr(i, value);
    ListingExtend(r, pcrs, ToPcr, i, value);
    assert multiset([p] + r) == multiset(r + [p]);
    ListingsArePermutations(r + [p], [p] + r, pcrs[i := value], ToPcr);
  }

  lemma PrependPcr(r: seq<Pcr>, pcrs: PcrMap, i: nat, value: Hash32)
    requires Sorted(r, LessIndex) && IsListing(r, pcrs, ToPcr)
    requires i < 256 && i !in pcrs
    requires forall p :: p in r ==> p.index >= i + 1
    ensures Sorted([Pcr(i, value)] + r, LessIndex)
    ensures forall p :: p in [Pcr(i, value)] + r ==> p.index >= i
    ensures IsListing([Pcr(i, value)] + r, pcrs[i := value], ToPcr)
  {
    hide IsListing, Sorted;
    PrependSorted(r, Pcr(i, value));
    PrependListing(r, pcrs, i, value);
  }

  /** Every run of the conversion yields the counted vector. */
  lemma PcrVectorIsCounted(r: seq<Pcr>, pcrs: PcrMap)
    requires IsPcrVector(r, pcrs) && SmallIndices(pcrs)
    ensures r == PcrVectorFrom(pcrs, 0)
  {
    var s := PcrVectorFrom(pcrs, 0);
    PcrVectorFromIsListing(pcrs, 0);
    assert FromIndex(pcrs, 0) == pcrs;
    assert NoIndexClash(pcrs);
    NoClashNoTies(r, pcrs);
    ListingsArePermutations(r, s, pcrs, ToPcr);
    SortedUnique(r, s, LessIndex);
  }
}
