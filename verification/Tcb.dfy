/** The TDX trusted-computing-base version packed for the on-chain minimum
    (checkTCB in pkg/policy/policy.go), on 64-bit words. */
module Tcb {
  import opened Prelude
  import opened Claims

  function Pow2(k: nat): (p: nat)
    ensures p >= 1
  {
    if k == 0 then 1 else 2 * Pow2(k - 1)
  }

  /** Go's `x << k` on uint64. */
  function ShiftLeft(x: nat, k: nat): nat {
    x * Pow2(k) % 0x1_0000_0000_0000_0000
  }

  /** Go's `x | y`, bit by bit. */
  function Or(x: nat, y: nat): nat {
    if x == 0 && y == 0 then 0
    else (if x % 2 == 1 || y % 2 == 1 then 1 else 0) + 2 * Or(x / 2, y / 2)
  }

  /** major << 16 | minor << 8 | microcode. */
  function Pack(major: byte, minor: byte, microcode: byte): nat {
    Or(Or(ShiftLeft(major, 16), ShiftLeft(minor, 8)), microcode)
  }

  /** The minor version is byte 0 of the vector and the major version byte 1. */
  function PackSvn(svn: TeeTcbSvn): nat {
    Pack(svn[1], svn[0], svn[2])
  }

  predicate LexLess(a: (byte, byte, byte), b: (byte, byte, byte)) {
    a.0 < b.0 || (a.0 == b.0 && (a.1 < b.1 || (a.1 == b.1 && a.2 < b.2)))
  }

  /** Or-ing below a shifted word adds. */
  lemma {:induction false} OrBelow(x: nat, y: nat, k: nat)
    requires y < Pow2(k)
    ensures Or(x * Pow2(k), y) == x * Pow2(k) + y
  {
    if k == 0 {
      OrZero(x);
    } else {
      var w := x * Pow2(k - 1);
      assert x * Pow2(k) == 2 * w;
      OrBelow(x, y / 2, k - 1);
      assert 2 * w / 2 == w && 2 * w % 2 == 0;
    }
  }

  lemma {:induction false} OrZero(x: nat)
    ensures Or(x, 0) == x
  {
    if x != 0 {
      OrZero(x / 2);
    }
  }

  lemma Pow2Values()
    ensures Pow2(8) == 0x100 && Pow2(16) == 0x1_0000
  {
    assert Pow2(4) == 16;
    assert Pow2(12) == 16 * Pow2(8);
  }

  lemma OrBelow256(x: nat, y: byte)
    ensures Or(x * 0x100, y) == x * 0x100 + y
  {
    Pow2Values();
    OrBelow(x, y, 8);
  }

  lemma OrBelow65536(x: nat, y: nat)
    requires y < 0x1_0000
    ensures Or(x * 0x1_0000, y) == x * 0x1_0000 + y
  {
    Pow2Values();
    OrBelow(x, y, 16);
  }

  lemma Shifts(x: byte)
    ensures ShiftLeft(x, 16) == x * 0x1_0000 && ShiftLeft(x, 8) == x * 0x100
  {
    Pow2Values();
  }

  lemma PackSum(major: byte, minor: byte, microcode: byte)
    ensures Pack(major, minor, microcode) == major * 0x1_0000 + minor * 0x100 + microcode
  {
    Shifts(major);
    Shifts(minor);
    OrBelow65536(major, minor * 0x100);
    var high := major * 0x100 + minor;
    assert major * 0x1_0000 + minor * 0x100 == high * 0x100;
    OrBelow256(high, microcode);
  }

  lemma Digits(w: nat, major: byte, minor: byte, microcode: byte)
    requires w == major * 0x1_0000 + minor * 0x100 + microcode
    ensures w / 0x100 == major * 0x100 + minor && w % 0x100 == microcode
    ensures w / 0x1_0000 == major
    ensures w / 0x100 % 0x100 == minor
  {
  }

  /** The packed word stays below 2^24 and unpacks uniquely. */
  lemma PackUnpacks(major: byte, minor: byte, microcode: byte)
    ensures var w := Pack(major, minor, microcode);
            w < 0x100_0000 && w / 0x1_0000 == major && w / 0x100 % 0x100 == minor && w % 0x100 == microcode
  {
    PackSum(major, minor, microcode);
    Digits(Pack(major, minor, microcode), major, minor, microcode);
  }

  /** Numeric order of packed words is lexicographic order of version triples: an
      on-chain minimum, being a threshold on words, is one on triples, without ties. */
  lemma PackOrder(a: (byte, byte, byte), b: (byte, byte, byte))
    ensures Pack(a.0, a.1, a.2) < Pack(b.0, b.1, b.2) <==> LexLess(a, b)
  {
    PackSum(a.0, a.1, a.2);
    PackSum(b.0, b.1, b.2);
  }
}
