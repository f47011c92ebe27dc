// Bytes, 16-bit words and the two mask operations the driver uses, `|` and `& ~`.
// Everything is on integers: a register is a number below 256, a bit is reached by halving.

module Bytes {

  type Byte = x: int | 0 <= x < 0x100

  type Word = x: int | 0 <= x < 0x1_0000

  // Where unsigned 32-bit arithmetic goes round.
  const WRAP := 0x1_0000_0000

  type Word32 = x: int | 0 <= x < WRAP

  function Lo(w: Word): Byte { w % 0x100 }

  function Hi(w: Word): Byte { w / 0x100 }

  // 256 times a number, by counting, so that proofs meet the product only where they ask for
  // it with PairValue.
  function Page(n: nat): nat { if n == 0 then 0 else 0x100 + Page(n - 1) }

  lemma {:induction false} PageValue(n: nat)
    ensures Page(n) == 0x100 * n
  {
    if n > 0 { PageValue(n - 1); }
  }

  // The little-endian pairing of the unions in the driver's header.
  function Pair(lo: Byte, hi: Byte): Word
  {
    PageValue(hi);
    lo + Page(hi)
  }

  lemma PairValue(lo: Byte, hi: Byte)
    ensures Pair(lo, hi) == lo + 0x100 * hi
  {
    PageValue(hi);
  }

  lemma PairBytes(lo: Byte, hi: Byte)
    ensures Lo(Pair(lo, hi)) == lo && Hi(Pair(lo, hi)) == hi
  {
    PairValue(lo, hi);
  }

  lemma PairSplits(w: Word)
    ensures Pair(Lo(w), Hi(w)) == w
  {
    PairValue(Lo(w), Hi(w));
  }

  function Bit(x: nat, k: nat): bool
    decreases k
  {
    if k == 0 then x % 2 == 1 else Bit(x / 2, k - 1)
  }

  // x | y
  function Or(x: nat, y: nat): nat
    decreases x
  {
    if x == 0 then y
    else if y == 0 then x
    else 2 * Or(x / 2, y / 2) + if x % 2 == 1 || y % 2 == 1 then 1 else 0
  }

  // x & ~y
  function AndNot(x: nat, y: nat): nat
    decreases x
  {
    if x == 0 then 0
    else if y == 0 then x
    else 2 * AndNot(x / 2, y / 2) + if x % 2 == 1 && y % 2 == 0 then 1 else 0
  }

  lemma {:induction false} OrBit(x: nat, y: nat, k: nat)
    ensures Bit(Or(x, y), k) == (Bit(x, k) || Bit(y, k))
    decreases k
  {
    ZeroBit(k);
    if x != 0 && y != 0 && k > 0 {
      assert Or(x, y) / 2 == Or(x / 2, y / 2);
      OrBit(x / 2, y / 2, k - 1);
    }
  }

  // Bits 2 and up are those of the quarter.
  lemma QuarterBits(x: nat, y: nat, k: nat)
    requires x / 4 == y / 4 && k >= 2
    ensures Bit(x, k) == Bit(y, k)
  {
    assert x / 2 / 2 == x / 4 && y / 2 / 2 == y / 4;
    assert Bit(x, k) == Bit(x / 2, k - 1) == Bit(x / 4, k - 2);
    assert Bit(y, k) == Bit(y / 2, k - 1) == Bit(y / 4, k - 2);
  }

  // The bits of the masks the driver and the chip use.
  lemma MaskBits()
    ensures Bit(0x04, 2) && !Bit(0x04, 3) && Bit(0x08, 3) && !Bit(0x08, 2) && Bit(0x40, 6) && !Bit(0x40, 7)
    ensures !Bit(0x40, 3)
    ensures Bit(0x80, 7) && !Bit(0x80, 6) && !Bit(0x80, 3) && Bit(0xF5, 2)
    ensures !Bit(0x01, 3) && !Bit(0x02, 3) && !Bit(0x10, 3) && !Bit(0x20, 3) && Bit(0x0A, 3)
    ensures !Bit(0x01, 4) && !Bit(0x02, 4) && !Bit(0x08, 4) && !Bit(0x20, 4) && Bit(0x10, 4)
  {
  }

  lemma {:induction false} AndNotBit(x: nat, y: nat, k: nat)
    ensures Bit(AndNot(x, y), k) == (Bit(x, k) && !Bit(y, k))
    decreases k
  {
    ZeroBit(k);
    if x != 0 && y != 0 && k > 0 {
      assert AndNot(x, y) / 2 == AndNot(x / 2, y / 2);
      AndNotBit(x / 2, y / 2, k - 1);
    }
  }

  lemma {:induction false} ZeroBit(k: nat)
    ensures !Bit(0, k)
  {
    if k > 0 { ZeroBit(k - 1); }
  }

  // The low bits of a number.
  lemma {:induction false} LowBitsOf(x: nat, n: nat, k: nat)
    ensures Bit(x % Pow2(n), k) == (k < n && Bit(x, k))
    decreases n
  {
    if n == 0 {
      ZeroBit(k);
    } else {
      HalfOfRest(x, Pow2(n - 1));
      if k > 0 { LowBitsOf(x / 2, n - 1, k - 1); }
    }
  }

  lemma HalfOfRest(x: nat, p: nat)
    requires p > 0
    ensures x % (2 * p) / 2 == x / 2 % p && x % (2 * p) % 2 == x % 2
  {
    var q, r := x / (2 * p), x % (2 * p);
    assert x == 2 * (p * q) + r;
    assert x / 2 == p * q + r / 2 && x % 2 == r % 2;
    assert r / 2 < p;
    QuotientIs(x / 2, p, q, r / 2);
  }

  lemma QuotientIs(a: nat, p: nat, q: nat, r: nat)
    requires p > 0 && a == p * q + r && r < p
    ensures a % p == r
  {
    var d := a / p - q;
    assert a == p * (a / p) + a % p;
    assert p * d == r - a % p;
    MultipleOf(p, d);
  }

  lemma MultipleOf(p: int, d: int)
    requires p >= 0
    ensures (d >= 1 ==> p * d >= p) && (d <= -1 ==> p * d <= -p)
  {
  }

  // Masks stay inside the width of their operands.
  lemma {:induction false} MaskBounds(x: nat, y: nat, n: nat)
    requires x < Pow2(n) && y < Pow2(n)
    ensures Or(x, y) < Pow2(n) && AndNot(x, y) < Pow2(n)
    decreases n
  {
    if x != 0 && y != 0 && n > 0 { MaskBounds(x / 2, y / 2, n - 1); }
  }

  function Pow2(n: nat): (p: nat)
    ensures p > 0
  {
    if n == 0 then 1 else 2 * Pow2(n - 1)
  }

  lemma Pow2Values()
    ensures Pow2(8) == 0x100 && Pow2(16) == 0x1_0000 && Pow2(31) == 0x8000_0000 && Pow2(32) == WRAP
  {
    assert Pow2(4) == 0x10 && Pow2(8) == 0x100;
    assert Pow2(12) == 0x1000 && Pow2(16) == 0x1_0000;
    assert Pow2(20) == 0x10_0000 && Pow2(24) == 0x100_0000;
    assert Pow2(28) == 0x1000_0000;
  }

  // The masks on whole registers.
  function SetBits(x: Byte, m: Byte): Byte { MaskBounds8(x, m); Or(x, m) }

  function ClearBits(x: Byte, m: Byte): Byte { MaskBounds8(x, m); AndNot(x, m) }

  function OrWord(x: Word, m: Word): Word
  {
    Pow2Values();
    MaskBounds(x, m, 16);
    Or(x, m)
  }

  lemma MaskBounds8(x: Byte, m: Byte)
    ensures Or(x, m) < 0x100 && AndNot(x, m) < 0x100
  {
    Pow2Values();
    MaskBounds(x, m, 8);
  }

  // A mask with a clear low bit leaves the low bit alone; with two clear low bits, both.
  lemma KeepLowBit(x: nat, m: nat)
    requires m % 2 == 0
    ensures Or(x, m) % 2 == x % 2 && AndNot(x, m) % 2 == x % 2
  {
    if x != 0 && m != 0 {
      hide Or, AndNot;
      UnfoldMasks(x, m);
      EvenPlus(Or(x / 2, m / 2), x % 2);
      EvenPlus(AndNot(x / 2, m / 2), x % 2);
    }
  }

  lemma EvenPlus(a: nat, r: nat)
    requires r < 2
    ensures (2 * a + r) % 2 == r
  {
  }

  lemma KeepLowBits(x: nat, m: nat)
    requires m % 4 == 0
    ensures Or(x, m) % 4 == x % 4 && AndNot(x, m) % 4 == x % 4
  {
    if x != 0 && m != 0 {
      hide Or, AndNot;
      KeepLowBit(x / 2, m / 2);
      TwoLowBits(Or(x / 2, m / 2), x / 2, x % 2);
      TwoLowBits(AndNot(x / 2, m / 2), x / 2, x % 2);
      UnfoldMasks(x, m);
    }
  }

  lemma UnfoldMasks(x: nat, m: nat)
    requires x != 0 && m != 0 && m % 2 == 0
    ensures Or(x, m) == 2 * Or(x / 2, m / 2) + x % 2
    ensures AndNot(x, m) == 2 * AndNot(x / 2, m / 2) + x % 2
    ensures x == 2 * (x / 2) + x % 2
  {
  }

  lemma TwoLowBits(a: nat, b: nat, r: nat)
    requires a % 2 == b % 2 && r < 2
    ensures (2 * a + r) % 4 == (2 * b + r) % 4
  {
    assert a == 2 * (a / 2) + a % 2 && b == 2 * (b / 2) + b % 2;
    assert 2 * a + r == 4 * (a / 2) + (2 * (a % 2) + r);
    assert 2 * b + r == 4 * (b / 2) + (2 * (b % 2) + r);
  }

  // Clearing the two low bits, and setting them once they are clear.
  lemma ClearLowBits(x: nat)
    ensures AndNot(x, 3) == x - x % 4
  {
    if x != 0 {
      assert AndNot(x, 3) == 2 * AndNot(x / 2, 1);
      AndNotOne(x / 2);
      assert x == 2 * (x / 2) + x % 2;
      TwoLowBits(x / 2, x / 2 % 2, x % 2);
    }
  }

  lemma AndNotOne(x: nat)
    ensures AndNot(x, 1) == x - x % 2
  {
    if x != 0 { assert AndNot(x / 2, 0) == x / 2; }
  }

  lemma SetLowBits(x: nat, m: nat)
    requires x % 4 == 0 && m < 4
    ensures Or(x, m) == x + m
  {
    if x != 0 && m != 0 {
      var x', m' := x / 2, m / 2;
      assert x == 2 * x' && x' % 2 == 0;
      assert Or(x', m') == x' + m' by {
        if x' != 0 && m' != 0 { assert m' == 1 && Or(x' / 2, 0) == x' / 2; }
      }
      assert m == 2 * m' + m % 2;
    }
  }

  lemma OrOne(x: nat)
    ensures Or(x, 1) == x - x % 2 + 1
  {
    if x != 0 { assert Or(x / 2, 0) == x / 2; }
  }
}
