/** Solana key derivation (pkg/crypto/solana.go) against SLIP-0010, "Private parent
    key -> private child key" for ed25519. HMAC-SHA512 and PBKDF2 are parameters. */
module SolanaKeys {
  import opened Prelude

  const HARDENED: nat := 0x8000_0000

  /** The bytes of "ed25519 seed", SLIP-0010's key for the root of this curve. */
  const ED25519_SEED: Bytes := [101, 100, 50, 53, 53, 49, 57, 32, 115, 101, 101, 100]

  /** HMAC-SHA512: key and data to 64 bytes. */
  type Hmac = f: (Bytes, Bytes) -> Bytes | forall k, d :: |f(k, d)| == 64
    ghost witness (k: Bytes, d: Bytes) => seq(64, _ => 0)

  // -------------------------------------------------------------- serialising

  /** `big.Int.Bytes`: big-endian without leading zero bytes. */
  function MinimalBytes(n: nat): Bytes {
    if n == 0 then [] else MinimalBytes(n / 256) + [n % 256]
  }

  /** ser32 of the standard: exactly four bytes. */
  function Ser32(i: nat): Bytes
    requires i < 0x1_0000_0000
  {
    [i / 0x100_0000, i / 0x1_0000 % 0x100, i / 0x100 % 0x100, i % 0x100]
  }

  function FromBytes(b: Bytes): nat {
    if b == [] then 0 else 256 * FromBytes(b[..|b| - 1]) + b[|b| - 1]
  }

  lemma {:induction false} MinimalInverse(n: nat)
    ensures FromBytes(MinimalBytes(n)) == n
  {
    if n != 0 {
      MinimalInverse(n / 256);
      var b := MinimalBytes(n);
      assert b[..|b| - 1] == MinimalBytes(n / 256);
    }
  }

  /** The minimal bytes are ser32 exactly from 2^24 on; hardened indices qualify. */
  lemma MinimalIsSer32Iff(i: nat)
    requires i < 0x1_0000_0000
    ensures MinimalBytes(i) == Ser32(i) <==> i >= 0x100_0000
    ensures |MinimalBytes(i)| <= 4
  {
    var b, c, d := i / 256, i / 256 / 256, i / 256 / 256 / 256;
    assert c == i / 0x1_0000 && d == i / 0x100_0000;
    assert d / 256 == 0;
    assert MinimalBytes(d) == if d == 0 then [] else [d];
    assert MinimalBytes(c) == if c == 0 then [] else MinimalBytes(d) + [c % 256];
    assert MinimalBytes(b) == if b == 0 then [] else MinimalBytes(c) + [b % 256];
  }

  /** The buffer handed to the HMAC. */
  function ChildBuffer(key: Bytes, segment: nat): Bytes {
    [0] + key + MinimalBytes(segment)
  }

  lemma BufferInjective(k1: Bytes, s1: nat, k2: Bytes, s2: nat)
    requires |k1| == |k2|
    ensures ChildBuffer(k1, s1) == ChildBuffer(k2, s2) <==> k1 == k2 && s1 == s2
  {
    var b, c := ChildBuffer(k1, s1), ChildBuffer(k2, s2);
    if b == c {
      assert k1 == b[1..1 + |k1|] && k2 == c[1..1 + |k2|];
      assert MinimalBytes(s1) == b[1 + |k1|..] && MinimalBytes(s2) == c[1 + |k2|..];
      MinimalInverse(s1);
      MinimalInverse(s2);
    }
  }

  // ---------------------------------------------------------------- one child

  datatype Node = Node(key: Bytes, chain: Bytes)

  predicate WellFormed(n: Node) {
    |n.key| == 32 && |n.chain| == 32
  }

  /** CKDpriv of SLIP-0010 for ed25519: hardened children only. */
  function CkdPriv(hmac: Hmac, parent: Node, i: nat): Option<Node>
    requires i < 0x1_0000_0000
  {
    if i < HARDENED then None
    else
      var I := hmac(parent.chain, [0] + parent.key + Ser32(i));
      Some(Node(I[..32], I[32..]))
  }

  /** A hardened child's halves are those of the MAC, keyed with the parent's chain code, of
      a zero byte, the parent's key and the four index bytes; there are no others. */
  lemma ChildHalves(hmac: Hmac, parent: Node, i: nat)
    requires i < 0x1_0000_0000
    ensures CkdPriv(hmac, parent, i).Some? <==> i >= 0x8000_0000
    ensures CkdPriv(hmac, parent, i).Some? ==>
      var n := CkdPriv(hmac, parent, i).value;
      && WellFormed(n) && n.key + n.chain == hmac(parent.chain, [0] + parent.key + Ser32(i))
      && FromBytes(Ser32(i)) == i && |Ser32(i)| == 4
  {
    Ser32Inverse(i);
  }

  lemma Ser32Inverse(i: nat)
    requires i < 0x1_0000_0000
    ensures FromBytes(Ser32(i)) == i && |Ser32(i)| == 4
  {
    var a, b, c, d := i / 0x100_0000, i / 0x1_0000 % 0x100, i / 0x100 % 0x100, i % 0x100;
    BytesStep([a, b, c], d);
    BytesStep([a, b], c);
    BytesStep([a], b);
    BytesStep([], a);
    assert [] + [a] == [a] && [a] + [b] == [a, b] && [a, b] + [c] == [a, b, c] && [a, b, c] + [d] == Ser32(i);
    DigitsOf(i);
  }

  lemma DigitsOf(i: nat)
    requires i < 0x1_0000_0000
    ensures ((i / 0x100_0000 * 256 + i / 0x1_0000 % 0x100) * 256 + i / 0x100 % 0x100) * 256 + i % 0x100 == i
  {
    assert i / 0x100_0000 * 256 + i / 0x1_0000 % 0x100 == i / 0x1_0000;
    assert i / 0x1_0000 * 256 + i / 0x100 % 0x100 == i / 0x100;
  }

  lemma BytesStep(b: Bytes, x: byte)
    ensures FromBytes(b + [x]) == 256 * FromBytes(b) + x
  {
    assert (b + [x])[..|b|] == b;
  }

  method Derive(hmac: Hmac, key: Bytes, chainCode: Bytes, segment: nat) returns (il: Bytes, ir: Bytes)
    requires segment < 0x1_0000_0000
    ensures |il| == 32 && |ir| == 32
    ensures il + ir == hmac(chainCode, ChildBuffer(key, segment))
    ensures segment >= HARDENED ==> Some(Node(il, ir)) == CkdPriv(hmac, Node(key, chainCode), segment)
  {
    var buf: Bytes := [0];
    buf := buf + key;
    buf := buf + MinimalBytes(segment);
    var I := hmac(chainCode, buf);
    il := I[..32];
    ir := I[32..];
    MinimalIsSer32Iff(segment);
  }

  // --------------------------------------------------------------------- path

  /** Folding the standard's child derivation along a path of indices. */
  function DerivePath(hmac: Hmac, node: Option<Node>, path: seq<nat>): Option<Node>
    requires forall i :: 0 <= i < |path| ==> path[i] < 0x1_0000_0000
  {
    if path == [] then node
    else
      var parent := DerivePath(hmac, node, path[..|path| - 1]);
      if parent.None? then None else CkdPriv(hmac, parent.value, path[|path| - 1])
  }

  function Master(hmac: Hmac, seed: Bytes): Node {
    var I := hmac(ED25519_SEED, seed);
    Node(I[..32], I[32..])
  }

  /** The root halves are the left and right half of the MAC of the seed. */
  lemma MasterHalves(hmac: Hmac, seed: Bytes)
    ensures WellFormed(Master(hmac, seed))
    ensures Master(hmac, seed).key + Master(hmac, seed).chain
      == hmac([101, 100, 50, 53, 53, 49, 57, 32, 115, 101, 101, 100], seed)
  {
  }

  /** The path's segments: 44', 501', the index and 0', each with the top bit. */
  lemma PathSegments(index: nat)
    requires index < 0x8000_0000
    ensures |WalletPath(index)| == 4
    ensures WalletPath(index)[0] == 0x8000_002C && WalletPath(index)[1] == 0x8000_01F5
    ensures WalletPath(index)[2] == 0x8000_0000 + index && WalletPath(index)[3] == 0x8000_0000
  {
  }

  /** m/44'/501'/index'/0', with Go's wrapping uint32 addition. */
  function WalletPath(index: nat): (path: seq<nat>)
    requires index < 0x1_0000_0000
    ensures forall i :: 0 <= i < |path| ==> path[i] < 0x1_0000_0000
  {
    [HARDENED + 44, HARDENED + 501, (HARDENED + index) % 0x1_0000_0000, HARDENED]
  }

  /** The path is the intended hardened one exactly while the index has its top bit clear. */
  lemma PathIsHardenedIff(index: nat)
    requires index < 0x1_0000_0000
    ensures (forall i :: 0 <= i < |WalletPath(index)| ==> WalletPath(index)[i] >= HARDENED) <==> index < HARDENED
    ensures index < HARDENED ==> WalletPath(index)[2] == HARDENED + index
  {
    assert WalletPath(index)[2] == (HARDENED + index) % 0x1_0000_0000;
  }

  /** The seed of the ed25519 key: the loop over the path equals the standard's fold
      for every index below 2^31. */
  method DeriveWalletSeed(hmac: Hmac, seed: Bytes, index: nat) returns (derivedSeed: Bytes)
    requires index < 0x1_0000_0000
    ensures |derivedSeed| == 32
    ensures index < HARDENED ==>
      var leaf := DerivePath(hmac, Some(Master(hmac, seed)), WalletPath(index));
      leaf.Some? && derivedSeed == leaf.value.key
  {
    var sum := hmac(ED25519_SEED, seed);
    derivedSeed := sum[..32];
    var chain := sum[32..];
    var path := WalletPath(index);
    var i := 0;
    while i < |path|
      invariant 0 <= i <= |path|
      invariant |derivedSeed| == 32 && |chain| == 32
      invariant index < HARDENED ==>
        DerivePath(hmac, Some(Master(hmac, seed)), path[..i]) == Some(Node(derivedSeed, chain))
    {
      assert path[..i + 1][..i] == path[..i];
      derivedSeed, chain := Derive(hmac, derivedSeed, chain, path[i]);
      i := i + 1;
    }
    assert path[..i] == path;
  }

  /** Along hardened paths every node is well formed, so buffers never overlap. */
  lemma {:induction false} PathStaysWellFormed(hmac: Hmac, root: Node, path: seq<nat>)
    requires WellFormed(root)
    requires forall i :: 0 <= i < |path| ==> HARDENED <= path[i] < 0x1_0000_0000
    ensures DerivePath(hmac, Some(root), path).Some? && WellFormed(DerivePath(hmac, Some(root), path).value)
  {
    if path != [] {
      PathStaysWellFormed(hmac, root, path[..|path| - 1]);
    }
  }

  /** The standard defines the wallet's node exactly for indices below 2^31. */
  lemma WalletNodeDefinedIff(hmac: Hmac, root: Node, index: nat)
    requires WellFormed(root) && index < 0x1_0000_0000
    ensures DerivePath(hmac, Some(root), WalletPath(index)).Some? <==> index < HARDENED
  {
    var path := WalletPath(index);
    if index < HARDENED {
      PathStaysWellFormed(hmac, root, path);
    } else {
      assert path[..3][2] < HARDENED;
      assert path[..|path| - 1] == path[..3] && path[..3][..2] == path[..2];
      assert DerivePath(hmac, Some(root), path[..3]) == None;
    }
  }
}
