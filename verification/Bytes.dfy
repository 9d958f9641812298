/**
 Bytes as integers, with the exclusive or of the CAN checksum.
 */
module Bytes {

  type Byte = x: int | 0 <= x < 0x100

  /** The exclusive or of the lowest `n` bits: every bit is the sum of two, without the carry. */
  function XorBits(a: nat, b: nat, n: nat): (r: nat)
    ensures r < Pow2(n)
  {
    if n == 0 then 0 else (a + b) % 2 + 2 * XorBits(a / 2, b / 2, n - 1)
  }

  function Pow2(n: nat): nat {
    if n == 0 then 1 else 2 * Pow2(n - 1)
  }

  function XorByte(a: Byte, b: Byte): Byte {
    assert Pow2(8) == 0x100;
    XorBits(a, b, 8)
  }

  /** The lowest bit, and the others. */
  lemma BitsOf(a: nat, b: nat, n: nat)
    requires n > 0
    ensures XorBits(a, b, n) % 2 == (a + b) % 2 && XorBits(a, b, n) / 2 == XorBits(a / 2, b / 2, n - 1)
  {
  }

  lemma SameNumber(a: nat, b: nat)
    requires a % 2 == b % 2 && a / 2 == b / 2
    ensures a == b
  {
  }

  lemma ParityAssociates(a: nat, b: nat, c: nat, ab: nat, bc: nat)
    requires ab % 2 == (a + b) % 2 && bc % 2 == (b + c) % 2
    ensures (ab + c) % 2 == (a + bc) % 2
  {
  }

  lemma {:induction false} BitsAssociate(a: nat, b: nat, c: nat, n: nat)
    ensures XorBits(XorBits(a, b, n), c, n) == XorBits(a, XorBits(b, c, n), n)
  {
    if n > 0 {
      var ab, bc := XorBits(a, b, n), XorBits(b, c, n);
      BitsOf(a, b, n);
      BitsOf(b, c, n);
      BitsOf(ab, c, n);
      BitsOf(a, bc, n);
      ParityAssociates(a, b, c, ab, bc);
      BitsAssociate(a / 2, b / 2, c / 2, n - 1);
      SameNumber(XorBits(ab, c, n), XorBits(a, bc, n));
    }
  }

  lemma {:induction false} BitsCommute(a: nat, b: nat, n: nat)
    ensures XorBits(a, b, n) == XorBits(b, a, n)
  {
    if n > 0 {
      BitsCommute(a / 2, b / 2, n - 1);
    }
  }

  lemma {:induction false} BitsCancel(a: nat, n: nat)
    ensures XorBits(a, a, n) == 0
  {
    if n > 0 {
      BitsCancel(a / 2, n - 1);
    }
  }

  lemma {:induction false} ZeroIsUnit(a: nat, n: nat)
    requires a < Pow2(n)
    ensures XorBits(a, 0, n) == a
  {
    if n > 0 {
      ZeroIsUnit(a / 2, n - 1);
    }
  }

  lemma XorAssociates(a: Byte, b: Byte, c: Byte)
    ensures XorByte(XorByte(a, b), c) == XorByte(a, XorByte(b, c))
  {
    BitsAssociate(a, b, c, 8);
  }

  lemma XorUnits(a: Byte)
    ensures XorByte(a, 0) == a && XorByte(0, a) == a && XorByte(a, a) == 0
  {
    assert Pow2(8) == 0x100;
    ZeroIsUnit(a, 8);
    BitsCommute(0, a, 8);
    BitsCancel(a, 8);
  }

  lemma XorCommutes(a: Byte, b: Byte)
    ensures XorByte(a, b) == XorByte(b, a)
  {
    BitsCommute(a, b, 8);
  }

  /** The number of values of so many bytes. */
  function Pow256(k: nat): nat {
    if k == 0 then 1 else 0x100 * Pow256(k - 1)
  }
}
