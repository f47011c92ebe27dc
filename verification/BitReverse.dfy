// The software bit reversal for cores without RBIT: a loop that stops as soon as the rest of
// the value is zero and makes up for it with one final shift.

module BitReverse {
  import opened Bytes

  // The n low bits of x, the lowest first.
  function Reversed(x: nat, n: nat): (r: nat)
    ensures r < Pow2(n)
    decreases n
  {
    if n == 0 then 0 else x % 2 * Pow2(n - 1) + Reversed(x / 2, n - 1)
  }

  function Dropped(x: nat, n: nat): nat
    decreases n
  {
    if n == 0 then x else Dropped(x / 2, n - 1)
  }

  method Rbit(v: Word32) returns (result: Word32)
    ensures result == Reversed(v, 32)
  {
    StartOf(v);
    hide Reversed, Dropped, Pow2;
    Pow2Values();
    var s := 31;
    result := v;
    var value: Word32 := v / 2;
    ghost var n := 0;
    while value != 0
      invariant 0 <= n <= 31 && s == 31 - n
      invariant value == Dropped(v / 2, n)
      invariant result == (v * Pow2(n) + Reversed(v / 2, n)) % WRAP
      decreases value
    {
      DroppedFits(v / 2, n, 31);
      OneRound(v, n);
      result := (result * 2 + value % 2) % WRAP;
      s := s - 1;
      value := value / 2;
      n := n + 1;
    }
    CatchUp(v, n);
    result := result * Pow2(s) % WRAP;
  }

  lemma StartOf(v: Word32)
    ensures (v * Pow2(0) + Reversed(v / 2, 0)) % WRAP == v && Dropped(v / 2, 0) == v / 2
  {
  }

  // One round of the loop.
  lemma OneRound(v: Word32, n: nat)
    ensures ((v * Pow2(n) + Reversed(v / 2, n)) % WRAP * 2 + Dropped(v / 2, n) % 2) % WRAP
            == (v * Pow2(n + 1) + Reversed(v / 2, n + 1)) % WRAP
    ensures Dropped(v / 2, n + 1) == Dropped(v / 2, n) / 2
  {
    DoublePow(n);
    hide Reversed, Dropped, Pow2;
    OneMore(v / 2, n);
    var x, b := v * Pow2(n) + Reversed(v / 2, n), Dropped(v / 2, n) % 2;
    ShiftIn(x, b);
    MulAssoc(v, 2, Pow2(n));
    assert 2 * x + b == v * Pow2(n + 1) + Reversed(v / 2, n + 1);
  }

  lemma DoublePow(n: nat)
    ensures Pow2(n + 1) == 2 * Pow2(n)
  {
  }

  lemma MulAssoc(a: int, b: int, c: int)
    ensures b * (a * c) == a * (b * c)
  {
  }

  // Shifting and reducing may be done in either order.
  lemma ShiftIn(x: nat, b: nat)
    ensures (x % WRAP * 2 + b) % WRAP == (2 * x + b) % WRAP
  {
    var q := x / WRAP;
    assert 2 * x + b == WRAP * (2 * q) + (x % WRAP * 2 + b);
    Reduce(2 * q, x % WRAP * 2 + b);
  }

  lemma Reduce(q: int, r: int)
    ensures (WRAP * q + r) % WRAP == r % WRAP
  {
    assert WRAP * q + r == WRAP * (q + r / WRAP) + r % WRAP;
  }

  // A value below 2^m has no bits left once m are dropped.
  lemma {:induction false} DroppedFits(x: nat, n: nat, m: nat)
    requires x < Pow2(m)
    ensures Dropped(x, n) != 0 ==> n < m
    decreases n
  {
    if m == 0 { StaysZero(x, 0, n); } else if n > 0 { DroppedFits(x / 2, n - 1, m - 1); }
  }

  lemma {:induction false} OneMore(x: nat, n: nat)
    ensures Reversed(x, n + 1) == 2 * Reversed(x, n) + Dropped(x, n) % 2
    ensures Dropped(x, n + 1) == Dropped(x, n) / 2
    decreases n
  {
    if n > 0 {
      OneMore(x / 2, n - 1);
      MulAssoc(x % 2, 2, Pow2(n - 1));
    }
  }

  // Reversing more bits than there are shifts the result up.
  lemma {:induction false} ReversedRest(x: nat, n: nat, m: nat)
    requires Dropped(x, n) == 0
    ensures Reversed(x, n + m) == Reversed(x, n) * Pow2(m)
    decreases m
  {
    if m > 0 {
      ReversedRest(x, n, m - 1);
      StaysZero(x, n, m - 1);
      OneMore(x, n + m - 1);
      MulAssoc(Reversed(x, n), 2, Pow2(m - 1));
    }
  }

  lemma {:induction false} StaysZero(x: nat, n: nat, m: nat)
    requires Dropped(x, n) == 0
    ensures Dropped(x, n + m) == 0
    decreases m
  {
    if m > 0 {
      StaysZero(x, n, m - 1);
      OneMore(x, n + m - 1);
    }
  }

  // The final shift: what is left of the input above bit 0 falls off the top.
  lemma CatchUp(v: Word32, n: nat)
    requires n <= 31 && Dropped(v / 2, n) == 0
    ensures (v * Pow2(n) + Reversed(v / 2, n)) % WRAP * Pow2(31 - n) % WRAP == Reversed(v, 32)
  {
    hide Reversed, Dropped, Pow2;
    var p, r := Pow2(31 - n), Reversed(v / 2, n);
    ReversedRest(v / 2, n, 31 - n);
    Pow2Values();
    PowSum(n, 31 - n);
    Expand(v, Pow2(n), r, p);
    LateReduction(v * Pow2(n) + r, p);
    LastBits(v);
  }

  lemma LastBits(v: Word32)
    ensures (v * 0x8000_0000 + Reversed(v / 2, 31)) % WRAP == Reversed(v, 32)
  {
    Pow2Values();
    FallsOff(v, Reversed(v / 2, 31));
  }

  lemma LateReduction(y: nat, p: nat)
    ensures y % WRAP * p % WRAP == y * p % WRAP
  {
    var q := y / WRAP;
    assert y == WRAP * q + y % WRAP;
    Distribute(q, y % WRAP, p);
    Reduce(q * p, y % WRAP * p);
  }

  lemma FallsOff(v: nat, r: nat)
    requires r < 0x8000_0000
    ensures (v * 0x8000_0000 + r) % WRAP == v % 2 * 0x8000_0000 + r
  {
    assert v * 0x8000_0000 + r == WRAP * (v / 2) + (v % 2 * 0x8000_0000 + r);
    Reduce(v / 2, v % 2 * 0x8000_0000 + r);
  }

  lemma Distribute(q: nat, m: nat, p: nat)
    ensures (WRAP * q + m) * p == WRAP * (q * p) + m * p
  {
  }

  lemma Expand(v: nat, a: nat, r: nat, p: nat)
    requires a * p == 0x8000_0000
    ensures (v * a + r) * p == v * 0x8000_0000 + r * p
  {
    assert (v * a + r) * p == v * (a * p) + r * p;
  }

  lemma {:induction false} PowSum(a: nat, b: nat)
    ensures Pow2(a) * Pow2(b) == Pow2(a + b)
    decreases a
  {
    if a > 0 {
      PowSum(a - 1, b);
      assert 2 * Pow2(a - 1) * Pow2(b) == 2 * (Pow2(a - 1) * Pow2(b));
    }
  }

  // ----- what reversal means -----

  lemma {:induction false} LowBit(a: nat, m: nat, b: nat, k: nat)
    requires k < m
    ensures Bit(a * Pow2(m) + b, k) == Bit(b, k)
    decreases k
  {
    var h := a * Pow2(m - 1);
    assert a * Pow2(m) == 2 * h by { MulAssoc(a, 2, Pow2(m - 1)); }
    assert (2 * h + b) % 2 == b % 2 && (2 * h + b) / 2 == h + b / 2;
    if k > 0 { LowBit(a, m - 1, b / 2, k - 1); }
  }

  lemma {:induction false} TopBit(a: nat, m: nat, b: nat)
    requires a < 2 && b < Pow2(m)
    ensures Bit(a * Pow2(m) + b, m) == (a == 1)
    decreases m
  {
    if m > 0 {
      var h := a * Pow2(m - 1);
      assert a * Pow2(m) == 2 * h by { MulAssoc(a, 2, Pow2(m - 1)); }
      assert (2 * h + b) / 2 == h + b / 2;
      TopBit(a, m - 1, b / 2);
    }
  }

  // Bit k of the reversal is the bit as far from the other end.
  lemma {:induction false} ReversedBit(x: nat, n: nat, k: nat)
    requires k < n
    ensures Bit(Reversed(x, n), k) == Bit(x, n - 1 - k)
    decreases n
  {
    if k == n - 1 {
      TopBit(x % 2, n - 1, Reversed(x / 2, n - 1));
    } else {
      LowBit(x % 2, n - 1, Reversed(x / 2, n - 1), k);
      ReversedBit(x / 2, n - 1, k);
    }
  }

  lemma {:induction false} SameBits(x: nat, y: nat, n: nat)
    requires x < Pow2(n) && y < Pow2(n) && forall k | 0 <= k < n :: Bit(x, k) == Bit(y, k)
    ensures x == y
    decreases n
  {
    if n > 0 {
      assert Bit(x, 0) == Bit(y, 0);
      forall k | 0 <= k < n - 1 ensures Bit(x / 2, k) == Bit(y / 2, k) {
        assert Bit(x, k + 1) == Bit(y, k + 1);
      }
      SameBits(x / 2, y / 2, n - 1);
    }
  }

  // Reversing twice gives the value back.
  lemma Involution(v: Word32)
    ensures Reversed(v, 32) < WRAP && Reversed(Reversed(v, 32), 32) == v
  {
    Pow2Values();
    var r := Reversed(v, 32);
    forall k | 0 <= k < 32 ensures Bit(Reversed(r, 32), k) == Bit(v, k) {
      ReversedBit(r, 32, k);
      ReversedBit(v, 32, 31 - k);
    }
    SameBits(Reversed(r, 32), v, 32);
  }
}
