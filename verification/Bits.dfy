/**
 * The 64-bit acknowledgement bitmap as a natural number: bit test, bit set, right shift
 * by one (`x / 2`), the highest set bit and the run of trailing ones.
 */
module Bits {
  import opened Protocol

  function Pow2(n: nat): (p: nat)
    ensures p >= 1
  {
    if n == 0 then 1 else 2 * Pow2(n - 1)
  }

  predicate Bit(x: nat, i: nat) {
    if i == 0 then x % 2 == 1 else Bit(x / 2, i - 1)
  }

  /** `x | (1 << i)` */
  function SetBit(x: nat, i: nat): nat {
    if i == 0 then (if x % 2 == 1 then x else x + 1) else x % 2 + 2 * SetBit(x / 2, i - 1)
  }

  /** Index of the highest set bit. */
  function HighestBit(x: nat): nat
    requires x > 0
  {
    if x == 1 then 0 else 1 + HighestBit(x / 2)
  }

  function TrailingOnes(x: nat): nat {
    if x % 2 == 1 then 1 + TrailingOnes(x / 2) else 0
  }

  /** `x >> n` */
  function Shift(x: nat, n: nat): (y: nat)
    ensures y <= x
  {
    if n == 0 then x else Shift(x / 2, n - 1)
  }

  lemma {:induction false} SetBitBit(x: nat, i: nat, j: nat)
    ensures Bit(SetBit(x, i), j) == (Bit(x, j) || i == j)
  {
    if i > 0 {
      assert SetBit(x, i) / 2 == SetBit(x / 2, i - 1);
      if j > 0 {
        SetBitBit(x / 2, i - 1, j - 1);
      }
    }
  }

  lemma {:induction false} SetBitBound(x: nat, i: nat, n: nat)
    requires i < n && x < Pow2(n)
    ensures SetBit(x, i) < Pow2(n)
  {
    var half := Pow2(n - 1);
    assert Pow2(n) == 2 * half;
    var q := x / 2;
    assert x == 2 * q + x % 2 && q < half;
    hide Pow2;
    if i > 0 {
      SetBitBound(q, i - 1, n - 1);
    }
  }

  lemma Pow2Times16(n: nat)
    ensures Pow2(n + 4) == 16 * Pow2(n)
  {
    assert Pow2(n + 2) == 4 * Pow2(n);
  }

  lemma Pow2Times65536(n: nat)
    ensures Pow2(n + 16) == 65536 * Pow2(n)
  {
    Pow2Times16(n);
    Pow2Times16(n + 4);
    Pow2Times16(n + 8);
    Pow2Times16(n + 12);
  }

  lemma Pow2_64()
    ensures Pow2(64) == 0x1_0000_0000_0000_0000
  {
    assert Pow2(0) == 1;
    hide Pow2;
    Pow2Times65536(0);
    Pow2Times65536(16);
    Pow2Times65536(32);
    Pow2Times65536(48);
  }

  lemma {:induction false} ShiftBit(x: nat, n: nat, i: nat)
    ensures Bit(Shift(x, n), i) == Bit(x, i + n)
  {
    if n > 0 {
      ShiftBit(x / 2, n - 1, i);
    }
  }

  lemma {:induction false} ZeroBit(i: nat)
    ensures !Bit(0, i)
  {
    if i > 0 {
      ZeroBit(i - 1);
    }
  }

  lemma {:induction false} HighBitsClear(x: nat, n: nat, i: nat)
    requires x < Pow2(n) && i >= n
    ensures !Bit(x, i)
  {
    if n == 0 {
      ZeroBit(i);
    } else {
      HighBitsClear(x / 2, n - 1, i - 1);
    }
  }

  lemma {:induction false} HighestBitIsSet(x: nat)
    requires x > 0
    ensures Bit(x, HighestBit(x))
    ensures forall i :: i > HighestBit(x) ==> !Bit(x, i)
  {
    if x == 1 {
      forall i: nat | i > 0 ensures !Bit(x, i) {
        ZeroBit(i - 1);
      }
    } else {
      HighestBitIsSet(x / 2);
    }
  }

  lemma {:induction false} HighestBitBound(x: nat, n: nat)
    requires 0 < x < Pow2(n)
    ensures HighestBit(x) < n
  {
    if x > 1 {
      HighestBitBound(x / 2, n - 1);
    }
  }

  lemma HighestBitOfWord(x: u64)
    requires x > 0
    ensures HighestBit(x) <= 63
  {
    hide HighestBit;
    Pow2_64();
    HighestBitBound(x, 64);
  }

  lemma {:induction false} TrailingOnesBits(x: nat)
    ensures forall i :: 0 <= i < TrailingOnes(x) ==> Bit(x, i)
    ensures !Bit(x, TrailingOnes(x))
  {
    if x % 2 == 1 {
      TrailingOnesBits(x / 2);
    }
  }

  /** All the ones trail exactly when nothing is left after shifting them out. */
  lemma {:induction false} AllOnesTrail(x: nat)
    ensures Shift(x, TrailingOnes(x)) == 0 <==> x == Pow2(TrailingOnes(x)) - 1
  {
    if x % 2 == 1 {
      AllOnesTrail(x / 2);
    }
  }

  lemma {:induction false} TrailingOnesBound(x: nat, n: nat)
    requires x < Pow2(n)
    ensures TrailingOnes(x) <= n
  {
    if x % 2 == 1 {
      TrailingOnesBound(x / 2, n - 1);
    }
  }

  lemma {:induction false} PowMinusOneTrails(k: nat)
    ensures TrailingOnes(Pow2(k) - 1) == k
  {
    if k > 0 {
      PowMinusOneTrails(k - 1);
      assert (Pow2(k) - 1) / 2 == Pow2(k - 1) - 1;
    }
  }

  lemma {:induction false} LowestBit(x: nat) returns (low: nat)
    requires x > 0
    ensures Bit(x, low) && forall i: nat :: i < low ==> !Bit(x, i)
  {
    if x % 2 == 1 {
      low := 0;
    } else {
      var next := LowestBit(x / 2);
      low := next + 1;
    }
  }
}
