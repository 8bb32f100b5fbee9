/** Purpose-separated digests: every digest the system signs, attests or derives a
    key from hashes header || 0x00 || data. SHA-256 is symbolic: a digest is known
    by the bytes that were hashed, so equal digests mean equal input. */
module Digests {
  import opened Prelude

  datatype Digest = Sha256(input: Bytes)

  /** The hash state of Go's crypto/sha256: what has been written so far. */
  class HashState {
    var written: Bytes

    constructor ()
      ensures written == []
    {
      written := [];
    }

    method Write(data: Bytes)
      modifies this
      ensures written == old(written) + data
    {
      written := written + data;
    }

    method Sum() returns (d: Digest)
      ensures d == Sha256(written)
    {
      d := Sha256(written);
    }
  }

  function Frame(header: Bytes, data: Bytes): Bytes {
    header + [0] + data
  }

  function SignableDigest(header: Bytes, data: Bytes): Digest {
    Sha256(Frame(header, data))
  }

  method CalculateSignableDigest(header: Bytes, data: Bytes) returns (d: Digest)
    ensures d == SignableDigest(header, data)
  {
    var digest := new HashState();
    digest.Write(header);
    digest.Write([0]);
    digest.Write(data);
    d := digest.Sum();
  }

  /** In a framing under a zero-free header, the separator is the first zero byte. */
  lemma SeparatorIsFirstZero(h: Bytes, d: Bytes)
    requires 0 !in h
    ensures Frame(h, d)[|h|] == 0
    ensures forall i :: 0 <= i < |h| ==> Frame(h, d)[i] != 0
  {
    forall i | 0 <= i < |h| ensures Frame(h, d)[i] != 0 {
      assert Frame(h, d)[i] == h[i] && h[i] in h;
    }
  }

  /** Framing can be undone for headers free of zero bytes. */
  lemma FrameInjective(h1: Bytes, d1: Bytes, h2: Bytes, d2: Bytes)
    requires 0 !in h1 && 0 !in h2
    ensures Frame(h1, d1) == Frame(h2, d2) <==> h1 == h2 && d1 == d2
  {
    var f, g := Frame(h1, d1), Frame(h2, d2);
    SeparatorIsFirstZero(h1, d1);
    SeparatorIsFirstZero(h2, d2);
    if f == g {
      assert |h1| == |h2|;
      assert h1 == f[..|h1|] && h2 == g[..|h2|];
      assert d1 == f[|h1| + 1..] && d2 == g[|h2| + 1..];
    }
  }

  /** For arbitrary headers: two of them share a framing exactly when one, closed by
      its separator, is a prefix of the other one closed by its separator. */
  lemma FramesMeetIff(h1: Bytes, h2: Bytes)
    ensures (exists d1, d2 :: Frame(h1, d1) == Frame(h2, d2)) <==> h1 + [0] <= h2 + [0] || h2 + [0] <= h1 + [0]
  {
    if exists d1, d2 :: Frame(h1, d1) == Frame(h2, d2) {
      var d1, d2 :| Frame(h1, d1) == Frame(h2, d2);
      var f := Frame(h1, d1);
      assert f[..|h1| + 1] == h1 + [0] && f[..|h2| + 1] == h2 + [0];
      if |h1| <= |h2| {
        assert f[..|h2| + 1][..|h1| + 1] == f[..|h1| + 1];
      } else {
        assert f[..|h1| + 1][..|h2| + 1] == f[..|h2| + 1];
      }
    }
    if h1 + [0] <= h2 + [0] {
      MeetWitness(h1, h2);
    }
    if h2 + [0] <= h1 + [0] {
      MeetWitness(h2, h1);
    }
  }

  lemma MeetWitness(h1: Bytes, h2: Bytes)
    requires h1 + [0] <= h2 + [0]
    ensures Frame(h1, (h2 + [0])[|h1| + 1..]) == Frame(h2, [])
  {
    var k := h2 + [0];
    assert k == k[..|h1| + 1] + k[|h1| + 1..];
    assert k[..|h1| + 1] == h1 + [0];
  }

  // ----------------------------------------------------------------- purposes

  /** What a digest is for. `KeyDerivation` is the framing DeriveMnemonic writes. */
  datatype Purpose = KmsSignature | EnvRequestKey | JwtRequestKey | DerivedAddresses | KeyDerivation

  function Ascii(s: string): (b: Bytes)
    requires forall i :: 0 <= i < |s| ==> s[i] as int < 256
    ensures |b| == |s|
    ensures forall i :: 0 <= i < |s| ==> b[i] == s[i] as int
  {
    seq(|s|, i requires 0 <= i < |s| => s[i] as int)
  }

  function HeaderText(p: Purpose): string {
    match p
    case KmsSignature => "COMPUTE_APP_KMS_SIGNATURE_V1"
    case EnvRequestKey => "COMPUTE_APP_ENV_REQUEST_RSA_KEY_V1"
    case JwtRequestKey => "COMPUTE_APP_JWT_REQUEST_RSA_KEY_V1"
    case DerivedAddresses => "COMPUTE_APP_DERIVED_ADDRESSES_V1"
    case KeyDerivation => "COMPUTE_APP_KEY_DERIVATION_V1"
  }

  predicate IsHeaderText(t: string) {
    forall i :: 0 <= i < |t| ==> '0' <= t[i] <= '_'
  }

  lemma KmsSignatureIsAscii()
    ensures IsHeaderText(HeaderText(KmsSignature))
  {
  }

  lemma EnvRequestKeyIsAscii()
    ensures IsHeaderText(HeaderText(EnvRequestKey))
  {
  }

  lemma JwtRequestKeyIsAscii()
    ensures IsHeaderText(HeaderText(JwtRequestKey))
  {
  }

  lemma DerivedAddressesIsAscii()
    ensures IsHeaderText(HeaderText(DerivedAddresses))
  {
  }

  lemma KeyDerivationIsAscii()
    ensures IsHeaderText(HeaderText(KeyDerivation))
  {
  }

  lemma HeaderTextIsAscii(p: Purpose)
    ensures forall i :: 0 <= i < |HeaderText(p)| ==> '0' <= HeaderText(p)[i] <= '_'
  {
    hide HeaderText;
    match p
    case KmsSignature => KmsSignatureIsAscii();
    case EnvRequestKey => EnvRequestKeyIsAscii();
    case JwtRequestKey => JwtRequestKeyIsAscii();
    case DerivedAddresses => DerivedAddressesIsAscii();
    case KeyDerivation => KeyDerivationIsAscii();
  }

  function Header(p: Purpose): Bytes {
    HeaderTextIsAscii(p);
    Ascii(HeaderText(p))
  }

  lemma HeadersDiffer(p: Purpose, q: Purpose)
    requires p != q
    ensures Header(p) != Header(q)
  {
    if |Header(p)| == |Header(q)| {
      assert Header(p)[12] == HeaderText(p)[12] as int && Header(q)[12] == HeaderText(q)[12] as int;
      assert Header(p)[12] != Header(q)[12];
    }
  }

  lemma HeaderIsZeroFree(p: Purpose)
    ensures 0 !in Header(p)
  {
    HeaderTextIsAscii(p);
    assert forall i :: 0 <= i < |Header(p)| ==> Header(p)[i] == HeaderText(p)[i] as int;
  }

  function DigestFor(p: Purpose, data: Bytes): Digest {
    SignableDigest(Header(p), data)
  }

  /** No digest made for one purpose is a digest for another, and within a purpose
      the digest determines its data. */
  lemma PurposesSeparate(p: Purpose, d: Bytes, q: Purpose, e: Bytes)
    ensures DigestFor(p, d) == DigestFor(q, e) <==> p == q && d == e
  {
    HeaderIsZeroFree(p);
    HeaderIsZeroFree(q);
    FrameInjective(Header(p), d, Header(q), e);
    if p != q {
      HeadersDiffer(p, q);
    }
  }

  /** The input DeriveMnemonic sends to the MAC key: the domain separator, a zero
      byte and the application id, written piece by piece. */
  method MnemonicInput(appId: Bytes) returns (isolated: Digest)
    ensures isolated == DigestFor(KeyDerivation, appId)
  {
    var h := new HashState();
    h.Write(Header(KeyDerivation));
    h.Write([0]);
    h.Write(appId);
    isolated := h.Sum();
  }
}
