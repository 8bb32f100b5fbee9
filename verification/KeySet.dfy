/** Choosing the verification keys for a token (getFilteredKeySetForToken in
    pkg/attestation/attestation.go): the cached keys of the token's algorithm. */
module KeySet {
  import opened Prelude

  /** A key as the set library holds it; `object` tells which object it is. */
  datatype Jwk = Jwk(alg: Option<string>, kid: Option<string>, object: nat)

  datatype TokenHeader = TokenHeader(alg: Option<string>, kid: Option<string>)

  /** The keys of one algorithm, in cache order. */
  function Matching(keys: seq<Jwk>, alg: string): seq<Jwk> {
    if keys == [] then []
    else
      var init := Matching(keys[..|keys| - 1], alg);
      if keys[|keys| - 1].alg == Some(alg) then init + [keys[|keys| - 1]] else init
  }

  /** No key object twice, as the library's AddKey ensures for every set. */
  predicate Distinct(keys: seq<Jwk>) {
    forall i, j :: 0 <= i < j < |keys| ==> keys[i] != keys[j]
  }

  /** AddKey refuses a key object the set already holds. */
  method AddKey(keys: seq<Jwk>, key: Jwk) returns (r: seq<Jwk>)
    requires Distinct(keys)
    ensures r == if key in keys then keys else keys + [key]
    ensures Distinct(r)
  {
    r := if key in keys then keys else keys + [key];
  }

  /** The cached key set. It may be refreshed between any two reads, finitely often
      during a call; `seen` keeps every version. */
  class KeyCache {
    var keys: seq<Jwk>
    ghost var seen: seq<seq<Jwk>>
    var refreshesLeft: nat

    ghost predicate Valid()
      reads this
    {
      seen != [] && seen[|seen| - 1] == keys && Distinct(keys)
    }

    constructor (keys: seq<Jwk>, refreshes: nat)
      requires Distinct(keys)
      ensures Valid() && this.keys == keys && seen == [keys] && refreshesLeft == refreshes
    {
      this.keys, refreshesLeft, seen := keys, refreshes, [keys];
    }

    method Refresh()
      requires Valid()
      modifies this
      ensures Valid() && old(seen) <= seen && refreshesLeft <= old(refreshesLeft)
      ensures seen == old(seen) ==> keys == old(keys)
      ensures seen != old(seen) ==> refreshesLeft < old(refreshesLeft)
    {
      var refreshed: bool := *;
      if refreshed && refreshesLeft > 0 {
        var fetched: seq<Jwk> := *;
        if Distinct(fetched) {
          keys, refreshesLeft, seen := fetched, refreshesLeft - 1, seen + [fetched];
        }
      }
    }

    method Len() returns (n: nat)
      requires Valid()
      modifies this
      ensures Valid() && old(seen) <= seen && refreshesLeft <= old(refreshesLeft)
      ensures seen == old(seen) ==> keys == old(keys)
      ensures seen != old(seen) ==> refreshesLeft < old(refreshesLeft)
      ensures n == |keys|
    {
      Refresh();
      n := |keys|;
    }

    method Key(i: nat) returns (key: Option<Jwk>)
      requires Valid()
      modifies this
      ensures Valid() && old(seen) <= seen && refreshesLeft <= old(refreshesLeft)
      ensures seen == old(seen) ==> keys == old(keys)
      ensures seen != old(seen) ==> refreshesLeft < old(refreshesLeft)
      ensures key == if i < |keys| then Some(keys[i]) else None
    {
      Refresh();
      key := if i < |keys| then Some(keys[i]) else None;
    }
  }

  /** Where a key was read: in which version of the cache, at which place. */
  datatype Read = Read(version: nat, place: nat)

  predicate IsRead(k: Jwk, at: Read, alg: string, seen: seq<seq<Jwk>>) {
    k.alg == Some(alg) && at.version < |seen| && at.place < |seen[at.version]| && seen[at.version][at.place] == k
  }

  /** Keys of the algorithm, read at increasing places of versions that never go back. */
  ghost predicate Gathered(keys: seq<Jwk>, places: seq<Read>, alg: string, seen: seq<seq<Jwk>>) {
    && |places| == |keys|
    && (forall i :: 0 <= i < |keys| ==> IsRead(keys[i], places[i], alg, seen))
    && (forall i, j :: 0 <= i < j < |places| ==>
      places[i].place < places[j].place && places[i].version <= places[j].version)
  }

  ghost predicate ReadBefore(places: seq<Read>, place: nat) {
    forall i :: 0 <= i < |places| ==> places[i].place < place
  }

  predicate UsableHeader(signatures: seq<TokenHeader>) {
    |signatures| > 0 && signatures[0].alg.Some? && signatures[0].kid.Some? && signatures[0].kid.value != ""
  }

  /** None stands for each of the source's errors: no signature, no algorithm, no key
      id, and no key left. */
  method FilteredKeySetForToken(signatures: seq<TokenHeader>, cache: KeyCache)
      returns (r: Option<seq<Jwk>>, ghost places: seq<Read>)
    requires cache.Valid()
    modifies cache
    ensures cache.Valid() && old(cache.seen) <= cache.seen
    ensures r.Some? ==>
      && |signatures| > 0 && signatures[0].alg.Some? && signatures[0].kid.Some? && signatures[0].kid.value != ""
      && r.value != [] && Distinct(r.value)
    ensures r.Some? ==> Gathered(r.value, places, signatures[0].alg.value, cache.seen)
    // without a refresh during the call
    ensures cache.seen == old(cache.seen) ==>
      r == if UsableHeader(signatures) && Matching(old(cache.keys), signatures[0].alg.value) != []
           then Some(Matching(old(cache.keys), signatures[0].alg.value)) else None
  {
    hide Gathered, Matching, Distinct;
    if |signatures| == 0 {
      return None, [];
    }
    var header := signatures[0];
    if header.alg.None? {
      return None, [];
    }
    if header.kid.None? || header.kid.value == "" {
      return None, [];
    }
    var filtered;
    filtered, places := KeysOf(header.alg.value, cache);
    if |filtered| == 0 {
      return None, [];
    }
    r := Some(filtered);
  }

  /** The loop over the cache. */
  method KeysOf(tokenAlg: string, cache: KeyCache) returns (filtered: seq<Jwk>, ghost places: seq<Read>)
    requires cache.Valid()
    modifies cache
    ensures cache.Valid() && old(cache.seen) <= cache.seen
    ensures Gathered(filtered, places, tokenAlg, cache.seen) && Distinct(filtered)
    ensures cache.seen == old(cache.seen) ==> filtered == Matching(old(cache.keys), tokenAlg)
  {
    hide Gathered, Matching, Distinct, ReadBefore, IsRead;
    filtered, places := [], [];
    var i := 0;
    var n := cache.Len();
    NothingGathered(tokenAlg, cache.seen);
    assert cache.keys[..0] == [];
    while i < n
      invariant cache.Valid() && old(cache.seen) <= cache.seen
      invariant n == |cache.keys|
      invariant Gathered(filtered, places, tokenAlg, cache.seen) && ReadBefore(places, i) && Distinct(filtered)
      invariant cache.seen == old(cache.seen) ==> cache.keys == old(cache.keys)
      invariant cache.seen == old(cache.seen) ==> i <= n && filtered == Matching(cache.keys[..i], tokenAlg)
      decreases cache.refreshesLeft, n - i
    {
      ghost var before := cache.seen;
      var key := cache.Key(i);
      SeenLater(filtered, places, tokenAlg, before, cache.seen);
      if key.Some? {
        MatchingStep(cache.keys, i, tokenAlg);
      }
      filtered, places := TakeKey(tokenAlg, key, filtered, places, i, cache.seen);
      i := i + 1;
      before := cache.seen;
      n := cache.Len();
      SeenLater(filtered, places, tokenAlg, before, cache.seen);
    }
    assert cache.seen == old(cache.seen) ==> cache.keys[..i] == cache.keys;
  }

  /** One round: a key of the algorithm joins the set. */
  method TakeKey(tokenAlg: string, key: Option<Jwk>, keys: seq<Jwk>, ghost read: seq<Read>, i: nat,
      ghost seen: seq<seq<Jwk>>) returns (filtered: seq<Jwk>, ghost places: seq<Read>)
    requires seen != [] && key == if i < |seen[|seen| - 1]| then Some(seen[|seen| - 1][i]) else None
    requires Gathered(keys, read, tokenAlg, seen) && ReadBefore(read, i) && Distinct(keys)
    ensures Gathered(filtered, places, tokenAlg, seen) && ReadBefore(places, i + 1) && Distinct(filtered)
    ensures filtered ==
      if key.Some? && key.value.alg == Some(tokenAlg) && key.value !in keys then keys + [key.value] else keys
  {
    hide Gathered, Distinct, ReadBefore;
    filtered, places := keys, read;
    StillBefore(read, i);
    if key.Some? && key.value.alg == Some(tokenAlg) {
      ReadNext(keys, read, key.value, Read(|seen| - 1, i), tokenAlg, seen);
      if key.value !in keys {
        places := read + [Read(|seen| - 1, i)];
      }
      filtered := AddKey(keys, key.value);
    }
  }

  lemma NothingGathered(alg: string, seen: seq<seq<Jwk>>)
    ensures Gathered([], [], alg, seen) && ReadBefore([], 0) && Distinct([]) && Matching([], alg) == []
  {
  }

  lemma StillBefore(places: seq<Read>, place: nat)
    requires ReadBefore(places, place)
    ensures ReadBefore(places, place + 1)
  {
  }

  lemma SeenLater(keys: seq<Jwk>, places: seq<Read>, alg: string, before: seq<seq<Jwk>>, now: seq<seq<Jwk>>)
    requires before <= now && Gathered(keys, places, alg, before)
    ensures Gathered(keys, places, alg, now)
  {
    forall i | 0 <= i < |keys| ensures IsRead(keys[i], places[i], alg, now) {
      assert IsRead(keys[i], places[i], alg, before);
      assert now[places[i].version] == before[places[i].version];
    }
  }

  lemma ReadNext(keys: seq<Jwk>, places: seq<Read>, key: Jwk, at: Read, alg: string, seen: seq<seq<Jwk>>)
    requires Gathered(keys, places, alg, seen) && ReadBefore(places, at.place) && at.version == |seen| - 1
    requires IsRead(key, at, alg, seen)
    ensures Gathered(keys + [key], places + [at], alg, seen) && ReadBefore(places + [at], at.place + 1)
  {
    assert forall i :: 0 <= i < |keys| ==> IsRead(keys[i], places[i], alg, seen);
  }

  lemma MatchingStep(keys: seq<Jwk>, i: nat, alg: string)
    requires i < |keys| && Distinct(keys)
    ensures keys[i] !in Matching(keys[..i], alg)
    ensures Matching(keys[..i + 1], alg)
         == if keys[i].alg == Some(alg) then Matching(keys[..i], alg) + [keys[i]] else Matching(keys[..i], alg)
  {
    assert keys[..i + 1][..i] == keys[..i];
    MatchingKeys(keys[..i], alg);
  }

  lemma {:induction false} MatchingKeys(keys: seq<Jwk>, alg: string)
    ensures forall k :: k in Matching(keys, alg) <==> k in keys && k.alg == Some(alg)
  {
    if keys != [] {
      var init, last := keys[..|keys| - 1], keys[|keys| - 1];
      MatchingKeys(init, alg);
      assert keys == init + [last];
    }
  }

  /** Where the keys of one algorithm stand in the cache. */
  ghost function Places(keys: seq<Jwk>, alg: string): seq<nat> {
    if keys == [] then []
    else
      var before := Places(keys[..|keys| - 1], alg);
      if keys[|keys| - 1].alg == Some(alg) then before + [|keys| - 1] else before
  }

  lemma {:induction false} PlacesIncrease(keys: seq<Jwk>, alg: string)
    ensures forall i :: 0 <= i < |Places(keys, alg)| ==> Places(keys, alg)[i] < |keys|
    ensures forall i, j :: 0 <= i < j < |Places(keys, alg)| ==> Places(keys, alg)[i] < Places(keys, alg)[j]
  {
    if keys != [] {
      PlacesIncrease(keys[..|keys| - 1], alg);
    }
  }

  lemma {:induction false} PlacesAreAll(keys: seq<Jwk>, alg: string)
    ensures forall n: nat :: n < |keys| ==> (n in Places(keys, alg) <==> keys[n].alg == Some(alg))
  {
    if keys != [] {
      var init := keys[..|keys| - 1];
      PlacesAreAll(init, alg);
      PlacesIncrease(init, alg);
      forall n: nat | n < |keys| ensures n in Places(keys, alg) <==> keys[n].alg == Some(alg) {
        if n < |init| {
          assert init[n] == keys[n];
        } else {
          assert n !in Places(init, alg);
        }
      }
    }
  }

  /** The filtered keys are the order-preserving sublist: the keys at exactly the
      matching places, taken in increasing order. */
  lemma {:induction false} MatchingIsSublist(keys: seq<Jwk>, alg: string)
    ensures |Matching(keys, alg)| == |Places(keys, alg)|
    ensures forall i :: 0 <= i < |Places(keys, alg)| ==>
      Places(keys, alg)[i] < |keys| && Matching(keys, alg)[i] == keys[Places(keys, alg)[i]]
  {
    if keys != [] {
      MatchingIsSublist(keys[..|keys| - 1], alg);
    }
  }

  /** First key with a key id, as the JWT library looks it up. */
  function LookupKid(keys: seq<Jwk>, kid: string): Option<Jwk> {
    if keys == [] then None
    else
      var r := LookupKid(keys[..|keys| - 1], kid);
      if r.Some? then r
      else if keys[|keys| - 1].kid == Some(kid) then Some(keys[|keys| - 1]) else None
  }

  /** First key with a key id and an algorithm. */
  function LookupKidAlg(keys: seq<Jwk>, kid: string, alg: string): Option<Jwk> {
    if keys == [] then None
    else
      var r := LookupKidAlg(keys[..|keys| - 1], kid, alg);
      if r.Some? then r
      else
        var k := keys[|keys| - 1];
        if k.kid == Some(kid) && k.alg == Some(alg) then Some(k) else None
  }

  /** Repeated key ids do no harm: by key id in the filtered set is by key id and
      algorithm in the whole set. */
  lemma {:induction false} FilteredLookup(keys: seq<Jwk>, kid: string, alg: string)
    ensures LookupKid(Matching(keys, alg), kid) == LookupKidAlg(keys, kid, alg)
  {
    if keys != [] {
      var init, last := keys[..|keys| - 1], keys[|keys| - 1];
      FilteredLookup(init, kid, alg);
      if last.alg == Some(alg) {
        var m := Matching(init, alg);
        assert (m + [last])[..|m|] == m;
      }
    }
  }
}
