/** Exclusive or on natural numbers, as Python's ^ on non-negative integers. */
module Xors {
  import opened Common

  function Xor(a: nat, b: nat): nat
    decreases a + b
  {
    if a == 0 && b == 0 then 0 else 2 * Xor(a / 2, b / 2) + (a + b) % 2
  }

  /** v shifted left by k bits. */
  function Shl(v: nat, k: nat): nat {
    if k == 0 then v else 2 * Shl(v, k - 1)
  }

  function Bit(n: nat, k: nat): bool {
    if k == 0 then n % 2 == 1 else Bit(n / 2, k - 1)
  }

  lemma Halves(a: nat, b: nat)
    ensures Xor(a, b) == 2 * Xor(a / 2, b / 2) + (a + b) % 2
    ensures Xor(a, b) / 2 == Xor(a / 2, b / 2) && Xor(a, b) % 2 == (a + b) % 2
  {
  }

  lemma {:induction false} XorBit(a: nat, b: nat, k: nat)
    ensures Bit(Xor(a, b), k) <==> Bit(a, k) != Bit(b, k)
    decreases k
  {
    Halves(a, b);
    if k > 0 { XorBit(a / 2, b / 2, k - 1); }
  }

  lemma {:induction false} SameBits(a: nat, b: nat)
    requires forall k: nat :: Bit(a, k) == Bit(b, k)
    ensures a == b
    decreases a + b
  {
    assert Bit(a, 0) == Bit(b, 0);
    if a != 0 || b != 0 {
      forall k: nat ensures Bit(a / 2, k) == Bit(b / 2, k) {
        assert Bit(a, k + 1) == Bit(b, k + 1);
      }
      SameBits(a / 2, b / 2);
    }
  }

  /** The order of four operands does not matter. */
  lemma XorExchange(a: nat, b: nat, c: nat, d: nat)
    ensures Xor(Xor(a, b), Xor(c, d)) == Xor(Xor(a, c), Xor(b, d))
  {
    forall k: nat ensures Bit(Xor(Xor(a, b), Xor(c, d)), k) == Bit(Xor(Xor(a, c), Xor(b, d)), k) {
      XorBit(a, b, k); XorBit(c, d, k); XorBit(Xor(a, b), Xor(c, d), k);
      XorBit(a, c, k); XorBit(b, d, k); XorBit(Xor(a, c), Xor(b, d), k);
    }
    SameBits(Xor(Xor(a, b), Xor(c, d)), Xor(Xor(a, c), Xor(b, d)));
  }

  lemma {:induction false} XorIsZero(a: nat, b: nat)
    ensures Xor(a, b) == 0 <==> a == b
    decreases a + b
  {
    if a != 0 || b != 0 {
      Halves(a, b);
      XorIsZero(a / 2, b / 2);
      EvenSum(a, b);
      assert a == 2 * (a / 2) + a % 2 && b == 2 * (b / 2) + b % 2;
    }
  }

  lemma EvenSum(a: nat, b: nat)
    ensures (a + b) % 2 == 0 <==> a % 2 == b % 2
  {
  }

  lemma {:induction false} XorZero(a: nat)
    ensures Xor(a, 0) == a && Xor(0, a) == a
  {
    if a > 0 { XorZero(a / 2); }
  }

  lemma XorDouble(a: nat, b: nat)
    ensures Xor(2 * a, 2 * b) == 2 * Xor(a, b)
  {
    HalfOf(a, 0);
    HalfOf(b, 0);
    HalfOf(a + b, 0);
    assert 2 * a + 2 * b == 2 * (a + b) + 0 && (2 * a) / 2 == a && (2 * b) / 2 == b;
    Halves(2 * a, 2 * b);
  }

  /** Xor with the same number twice restores the first. */
  lemma XorTwice(c: nat, t: nat)
    ensures Xor(Xor(c, t), t) == c
  {
    XorExchange(c, t, 0, t);
    XorZero(c);
    XorZero(t);
    XorIsZero(t, t);
  }

  lemma XorFlags()
    ensures Xor(0, 0) == 0 && Xor(0, 1) == 1 && Xor(1, 0) == 1 && Xor(1, 1) == 0
  {
  }

  lemma HalfOf(s: nat, x: nat)
    ensures (2 * s + x) / 2 == s + x / 2 && (2 * s + x) % 2 == x % 2
  {
  }

  /** Xor works below bit k and from bit k on separately. */
  lemma {:induction false} XorSplit(a: nat, b: nat, x: nat, y: nat, k: nat)
    requires x < Pow2(k) && y < Pow2(k)
    ensures Xor(x, y) < Pow2(k)
    ensures Xor(Shl(a, k) + x, Shl(b, k) + y) == Shl(Xor(a, b), k) + Xor(x, y)
    decreases k
  {
    if k == 0 {
      XorZero(0);
    } else {
      var s, t := Shl(a, k - 1), Shl(b, k - 1);
      XorSplit(a, b, x / 2, y / 2, k - 1);
      HalfOf(s, x);
      HalfOf(t, y);
      Halves(2 * s + x, 2 * t + y);
      Halves(x, y);
      SameParity(s, t, x, y);
    }
  }

  lemma SameParity(s: nat, t: nat, x: nat, y: nat)
    ensures (2 * s + x + (2 * t + y)) % 2 == (x + y) % 2
  {
    HalfOf(s + t, x + y);
    assert 2 * s + x + (2 * t + y) == 2 * (s + t) + (x + y);
  }

  lemma {:induction false} ShlAdd(v: nat, j: nat, k: nat)
    ensures Shl(Shl(v, j), k) == Shl(v, j + k)
  {
    if k > 0 { ShlAdd(v, j, k - 1); }
  }

  lemma Shl8(v: nat)
    ensures Shl(v, 8) == 256 * v && Shl(v, 7) == 128 * v && Pow2(7) == 128 && Pow2(8) == 256
  {
    assert Shl(v, 1) == 2 * v && Pow2(1) == 2;
    assert Shl(v, 2) == 4 * v && Pow2(2) == 4;
    assert Shl(v, 3) == 8 * v && Pow2(3) == 8;
    assert Shl(v, 4) == 16 * v && Pow2(4) == 16;
    assert Shl(v, 5) == 32 * v && Pow2(5) == 32;
    assert Shl(v, 6) == 64 * v && Pow2(6) == 64;
  }

  lemma {:induction false} Pow2IsShl(k: nat)
    ensures Pow2(k) == Shl(1, k)
  {
    if k > 0 { Pow2IsShl(k - 1); }
  }

  lemma ShlWords(v: nat)
    ensures Shl(v, 24) == 0x100_0000 * v && Shl(v, 31) == 0x8000_0000 * v
    ensures Pow2(24) == 0x100_0000 && Pow2(31) == 0x8000_0000
  {
    ShlBytes(v);
    ShlBytes(1);
    Pow2IsShl(24);
    Pow2IsShl(31);
  }

  /** Where no bits overlap, xor adds. */
  lemma XorDisjoint(v: nat, r: nat)
    requires r < 0x100_0000
    ensures Xor(r, v * 0x100_0000) == v * 0x100_0000 + r
  {
    ShlWords(v);
    ShlWords(0);
    XorZero(v);
    XorZero(r);
    XorSplit(0, v, r, 0, 24);
  }

  lemma ShlBytes(v: nat)
    ensures Shl(v, 24) == 0x100_0000 * v && Shl(v, 31) == 0x8000_0000 * v
  {
    Shl8(v);
    Shl8(256 * v);
    Shl8(0x1_0000 * v);
    Shl8(0x100_0000 * v);
    ShlAdd(v, 8, 8);
    ShlAdd(v, 16, 8);
    ShlAdd(v, 24, 7);
  }
}
