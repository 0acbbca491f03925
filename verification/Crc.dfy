/** The Ogg page checksum of app/channel/audio_duration.py (RFC 3533, section 6): polynomial
    0x04C11DB7, initial value 0, no reflection, no final inversion. Its linearity, and the bursts
    it detects. */
module Crc {
  import opened Xors

  type byte = b: int | 0 <= b < 256

  type Register = c: int | 0 <= c < 0x1_0000_0000

  const Half: nat := 0x8000_0000

  lemma XorFits(a: Register, b: Register)
    ensures Xor(a, b) < 0x1_0000_0000
    ensures Xor(a, b) % Half == Xor(a % Half, b % Half)
    ensures Xor(a, b) >= Half <==> (a >= Half) != (b >= Half)
  {
    var ha, hb := TopBit(a), TopBit(b);
    LowBits(a);
    LowBits(b);
    SplitTop(ha, hb, a % Half, b % Half);
    LowBits((if ha != hb then Half else 0) + Xor(a % Half, b % Half));
  }

  function TopBit(c: Register): nat {
    if c >= Half then 1 else 0
  }

  lemma LowBits(c: Register)
    ensures c % Half == c - Half * TopBit(c)
  {
  }

  lemma SplitTop(ha: nat, hb: nat, la: nat, lb: nat)
    requires ha < 2 && hb < 2 && la < Half && lb < Half
    ensures Xor(la, lb) < Half
    ensures Xor(Half * ha + la, Half * hb + lb) == (if ha != hb then Half else 0) + Xor(la, lb)
  {
    ShlWords(ha); ShlWords(hb); ShlWords(Xor(ha, hb));
    XorSplit(ha, hb, la, lb, 31);
    XorFlags();
  }

  /** One shift of the register. */
  function BitStep(c: Register): (r: Register) {
    var shifted := 2 * c % 0x1_0000_0000;
    if c >= 0x8000_0000 then Plus(shifted, 0x04C11DB7) else shifted
  }

  function Iterate<G>(f: G -> G, k: nat, x: G): G {
    if k == 0 then x else f(Iterate(f, k - 1, x))
  }

  function Plus(a: Register, b: Register): Register {
    XorFits(a, b);
    Xor(a, b)
  }

  function PlusByte(a: byte, b: byte): byte {
    ByteFits(a, b);
    Xor(a, b)
  }

  lemma ByteFits(a: byte, b: byte)
    ensures Xor(a, b) < 256
  {
    Shl8(0);
    XorSplit(0, 0, a, b, 8);
  }

  /** How often a byte shifts the register. */
  function BitsOf(v: byte): nat {
    8
  }

  /** A byte enters at the top of the register. */
  function ByteStep(c: Register, v: byte): Register {
    Iterate(BitStep, BitsOf(v), Plus(c, v * 0x100_0000))
  }

  function Fold<G, V>(step: (G, V) -> G, start: G, data: seq<V>): G {
    if data == [] then start else step(Fold(step, start, data[..|data|-1]), data[|data|-1])
  }

  function Checksum(data: seq<byte>): Register {
    Fold(ByteStep, 0, data)
  }

  /** _ogg_crc */
  method OggCrc(data: seq<byte>) returns (crc: Register)
    ensures crc == Checksum(data)
  {
    crc := 0;
    for i := 0 to |data|
      invariant crc == Fold(ByteStep, 0, data[..i])
    {
      assert data[..i+1][..i] == data[..i];
      crc := ShiftIn(crc, data[i]);
    }
    assert data[..|data|] == data;
  }

  method ShiftIn(register: Register, value: byte) returns (crc: Register)
    ensures crc == ByteStep(register, value)
  {
    crc := Plus(register, value * 0x100_0000);
    ghost var start := crc;
    for k := 0 to BitsOf(value)
      invariant crc == Iterate(BitStep, k, start)
    {
      XorZero(2 * crc % 0x1_0000_0000);
      crc := Plus(2 * crc % 0x1_0000_0000, if crc >= 0x8000_0000 then 0x04C11DB7 else 0);
    }
  }

  /** The checksum of the byte 1 is the polynomial: seven shifts bring the bit to the top, and the eighth
      takes it out. */
  lemma ChecksumOfOne(data: seq<byte>)
    requires |data| == 1 && data[0] == 1
    ensures Checksum(data) == 0x04C11DB7
  {
    var one := data[0];
    assert data[..0] == [];
    assert Checksum(data) == ByteStep(Fold(ByteStep, 0, data[..0]), one) == ByteStep(0, one);
    var start: Register := 0x100_0000;
    XorZero(start);
    assert Plus(0, start) == start;
    Doublings(start, 7);
    TopBitOut(Iterate(BitStep, 7, start));
    assert Iterate(BitStep, 8, start) == BitStep(Iterate(BitStep, 7, start));
  }

  lemma TopBitOut(c: Register)
    requires c == 0x8000_0000
    ensures BitStep(c) == 0x04C11DB7
  {
    var shifted := 2 * c % 0x1_0000_0000;
    assert shifted == 0;
    XorZero(0x04C11DB7);
  }

  lemma {:induction false} Doublings(x: Register, k: nat)
    requires k <= 7 && x == 0x100_0000
    ensures Iterate(BitStep, k, x) == Doubled(k) <= 0x8000_0000
  {
    if k > 0 {
      Doublings(x, k - 1);
      ShiftOnly(Doubled(k - 1));
      assert Doubled(k) == 2 * Doubled(k - 1);
    }
  }

  lemma ShiftOnly(c: nat)
    requires c < 0x8000_0000
    ensures BitStep(c) == 2 * c
  {
  }

  function Doubled(k: nat): nat {
    if k == 0 then 0x100_0000 else if k == 1 then 0x200_0000 else if k == 2 then 0x400_0000
    else if k == 3 then 0x800_0000 else if k == 4 then 0x1000_0000 else if k == 5 then 0x2000_0000
    else if k == 6 then 0x4000_0000 else 0x8000_0000
  }

  // ----- Linearity -----

  ghost predicate Linear<G(!new)>(f: G -> G, plus: (G, G) -> G) {
    forall x, y :: f(plus(x, y)) == plus(f(x), f(y))
  }

  lemma {:induction false} IterateLinear<G(!new)>(f: G -> G, plus: (G, G) -> G, k: nat, x: G, y: G)
    requires Linear(f, plus)
    ensures Iterate(f, k, plus(x, y)) == plus(Iterate(f, k, x), Iterate(f, k, y))
  {
    if k > 0 { IterateLinear(f, plus, k - 1, x, y); }
  }

  ghost predicate OnlyZeroToZero<G(!new)>(f: G -> G, zero: G) {
    f(zero) == zero && forall x :: f(x) == zero ==> x == zero
  }

  lemma {:induction false} IterateZero<G(!new)>(f: G -> G, zero: G, k: nat, x: G)
    requires OnlyZeroToZero(f, zero)
    ensures Iterate(f, k, x) == zero <==> x == zero
  {
    if k > 0 { IterateZero(f, zero, k - 1, x); }
  }

  /** The polynomial a register adds when its top bit falls off. */
  function Feedback(c: Register): Register {
    if c >= 0x8000_0000 then 0x04C11DB7 else 0
  }

  lemma StepAsXor(c: Register)
    ensures BitStep(c) == Xor(2 * (c % Half), Feedback(c))
  {
    assert 2 * c % 0x1_0000_0000 == 2 * (c % Half);
    XorZero(2 * (c % Half));
  }

  lemma FeedbackLinear(a: Register, b: Register)
    ensures Feedback(Plus(a, b)) == Xor(Feedback(a), Feedback(b))
  {
    XorFits(a, b);
    XorIsZero(0x04C11DB7, 0x04C11DB7);
    XorZero(0x04C11DB7);
    XorZero(0);
  }

  lemma BitStepLinear(a: Register, b: Register)
    ensures BitStep(Plus(a, b)) == Plus(BitStep(a), BitStep(b))
  {
    XorFits(a, b);
    StepAsXor(a); StepAsXor(b); StepAsXor(Plus(a, b));
    XorDouble(a % Half, b % Half);
    FeedbackLinear(a, b);
    XorExchange(2 * (a % Half), Feedback(a), 2 * (b % Half), Feedback(b));
  }

  /** The polynomial is odd, so only a zero register shifts to zero. */
  lemma BitStepZero(a: Register)
    ensures BitStep(a) == 0 <==> a == 0
  {
    StepAsXor(a);
    XorIsZero(2 * (a % Half), Feedback(a));
  }

  lemma BitStepIsLinear()
    ensures Linear(BitStep, Plus) && OnlyZeroToZero(BitStep, 0)
  {
    forall x: Register, y: Register ensures BitStep(Plus(x, y)) == Plus(BitStep(x), BitStep(y)) {
      BitStepLinear(x, y);
    }
    forall x: Register ensures BitStep(x) == 0 <==> x == 0 { BitStepZero(x); }
  }

  lemma TopLinear(v: byte, w: byte)
    ensures PlusByte(v, w) * 0x100_0000 == Plus(v * 0x100_0000, w * 0x100_0000)
  {
    ShlWords(v); ShlWords(w); ShlWords(Xor(v, w));
    XorSplit(v, w, 0, 0, 24);
    XorZero(0);
  }

  lemma ByteStepLinear(c: Register, d: Register, v: byte, w: byte)
    ensures ByteStep(Plus(c, d), PlusByte(v, w)) == Plus(ByteStep(c, v), ByteStep(d, w))
  {
    var tv, tw := v * 0x100_0000, w * 0x100_0000;
    BitStepIsLinear();
    TopLinear(v, w);
    XorExchange(c, d, tv, tw);
    IterateLinear(BitStep, Plus, 8, Plus(c, tv), Plus(d, tw));
  }

  lemma ByteStepZero(c: Register, v: byte)
    ensures ByteStep(c, v) == 0 <==> c == v * 0x100_0000
  {
    BitStepIsLinear();
    IterateZero(BitStep, 0, 8, Plus(c, v * 0x100_0000));
    XorIsZero(c, v * 0x100_0000);
  }

  function Difference(a: seq<byte>, b: seq<byte>): seq<byte>
    requires |a| == |b|
  {
    seq(|a|, i requires 0 <= i < |a| => PlusByte(a[i], b[i]))
  }

  /** The checksum of a difference is the difference of the checksums. */
  lemma {:induction false} ChecksumLinear(a: seq<byte>, b: seq<byte>)
    requires |a| == |b|
    ensures Checksum(Difference(a, b)) == Plus(Checksum(a), Checksum(b))
  {
    if a == [] {
      XorZero(0);
    } else {
      var n := |a| - 1;
      ChecksumLinear(a[..n], b[..n]);
      assert Difference(a, b)[..n] == Difference(a[..n], b[..n]);
      ByteStepLinear(Checksum(a[..n]), Checksum(b[..n]), a[n], b[n]);
    }
  }

  // ----- Bursts -----

  lemma {:induction false} LeadingZeros(d: seq<byte>)
    requires forall i | 0 <= i < |d| :: d[i] == 0
    ensures Checksum(d) == 0
  {
    if d != [] {
      LeadingZeros(d[..|d|-1]);
      ByteStepZero(0, 0);
    }
  }

  /** Zeros at the end neither clear the register nor fill a clear one. */
  lemma {:induction false} TrailingZeros(d: seq<byte>, n: nat)
    requires n <= |d| && forall i | n <= i < |d| :: d[i] == 0
    ensures Checksum(d) == 0 <==> Checksum(d[..n]) == 0
  {
    if n == |d| {
      assert d[..n] == d;
    } else {
      var m := |d| - 1;
      assert d[..m][..n] == d[..n];
      TrailingZeros(d[..m], n);
      ByteStepZero(Checksum(d[..m]), 0);
    }
  }

  /** A register whose top byte is clear is only shifted. */
  lemma LowShifts(r: Register)
    requires r < 0x100_0000
    ensures Iterate(BitStep, 8, r) == 0x100 * r
  {
    assert Iterate(BitStep, 1, r) == 2 * r;
    assert Iterate(BitStep, 2, r) == 4 * r;
    assert Iterate(BitStep, 3, r) == 8 * r;
    assert Iterate(BitStep, 4, r) == 16 * r;
    assert Iterate(BitStep, 5, r) == 32 * r;
    assert Iterate(BitStep, 6, r) == 64 * r;
    assert Iterate(BitStep, 7, r) == 128 * r;
  }

  lemma StepInjective(x: Register, y: Register)
    requires Iterate(BitStep, 8, x) == Iterate(BitStep, 8, y)
    ensures x == y
  {
    BitStepIsLinear();
    IterateLinear(BitStep, Plus, 8, x, y);
    IterateZero(BitStep, 0, 8, Plus(x, y));
    XorIsZero(Iterate(BitStep, 8, x), Iterate(BitStep, 8, y));
    XorIsZero(x, y);
  }

  /** The register before the byte v, when the one after it has a clear low byte. */
  lemma Peel(c: Register, v: byte, r: Register)
    requires r < 0x100_0000 && ByteStep(c, v) == 0x100 * r
    ensures c == v * 0x100_0000 + r
  {
    LowShifts(r);
    StepInjective(Plus(c, v * 0x100_0000), r);
    XorTwice(c, v * 0x100_0000);
    XorDisjoint(v, r);
  }

  /** The checksum of four bytes after zeros is zero only for four zeros. */
  lemma FourBytes(d: seq<byte>, n: nat)
    requires |d| == n + 4 && (forall i | 0 <= i < n :: d[i] == 0) && Checksum(d) == 0
    ensures d[n] == 0 && d[n+1] == 0 && d[n+2] == 0 && d[n+3] == 0
  {
    assert d[..n+4] == d;
    LeadingZeros(d[..n]);
    var x: int, y: int, z: int := d[n+1], d[n+2], d[n+3];
    PeelLast(d, n + 3, 0);
    PeelLast(d, n + 2, z * 0x1_0000);
    PeelLast(d, n + 1, y * 0x1_0000 + z * 0x100);
    PeelLast(d, n, x * 0x1_0000 + y * 0x100 + z);
  }

  lemma PeelLast(d: seq<byte>, k: nat, r: Register)
    requires k < |d| && r < 0x100_0000 && Checksum(d[..k+1]) == 0x100 * r
    ensures Checksum(d[..k]) == d[k] * 0x100_0000 + r
  {
    assert d[..k+1][..k] == d[..k];
    Peel(Checksum(d[..k]), d[k], r);
  }

  /** Two inputs of one length that differ, but only within four consecutive bytes, have different
      checksums. */
  lemma BurstDetected(a: seq<byte>, b: seq<byte>, n: nat)
    requires |a| == |b| && a != b
    requires forall i | 0 <= i < |a| && a[i] != b[i] :: n <= i < n + 4
    ensures Checksum(a) != Checksum(b)
  {
    var d := Difference(a, b);
    DifferenceZero(a, b);
    ChecksumLinear(a, b);
    XorIsZero(Checksum(a), Checksum(b));
    if Checksum(d) == 0 {
      ShortDifference(d, n);
    }
  }

  lemma DifferenceZero(a: seq<byte>, b: seq<byte>)
    requires |a| == |b|
    ensures forall i | 0 <= i < |a| :: Difference(a, b)[i] == 0 <==> a[i] == b[i]
  {
    forall i | 0 <= i < |a| ensures Difference(a, b)[i] == 0 <==> a[i] == b[i] { XorIsZero(a[i], b[i]); }
  }

  lemma ShortDifference(d: seq<byte>, n: nat)
    requires Checksum(d) == 0 && forall i | 0 <= i < |d| && d[i] != 0 :: n <= i < n + 4
    ensures forall i | 0 <= i < |d| :: d[i] == 0
  {
    var padded := d + [0, 0, 0, 0];
    var k := if n <= |d| then n else |d|;
    assert padded[..|d|] == d;
    TrailingZeros(padded, |d|);
    TrailingZeros(padded, k + 4);
    FourBytes(padded[..k+4], k);
    forall i | 0 <= i < |d| ensures d[i] == 0 { assert d[i] == padded[i]; }
  }
}
