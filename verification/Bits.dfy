/**
 Bits of machine words and byte bitmaps (include/stdWorkhorse.h, include/lib/dsa/bitmap.h).
 */
module Bits {
  function Mask(k: nat): bv32
    requires k < 32
  {
    (1 as bv32) << k
  }

  predicate Bit(w: bv32, k: nat)
    requires k < 32
  {
    w & Mask(k) != 0
  }

  lemma SetBit(w: bv32, i: nat, j: nat)
    requires i < 32 && j < 32
    ensures Bit(w | Mask(i), j) <==> i == j || Bit(w, j)
  {
    hide Bit, Mask;
    if i == j {
      SetSame(w, i);
    } else {
      SetOther(w, i, j);
    }
  }

  lemma SetSame(w: bv32, i: nat)
    requires i < 32
    ensures Bit(w | Mask(i), i)
  {
  }

  lemma SetOther(w: bv32, i: nat, j: nat)
    requires i < 32 && j < 32 && i != j
    ensures Bit(w | Mask(i), j) <==> Bit(w, j)
  {
    assert (w | Mask(i)) & Mask(j) == w & Mask(j);
  }

  lemma ClearBit(w: bv32, i: nat, j: nat)
    requires i < 32 && j < 32
    ensures Bit(w & !Mask(i), j) <==> i != j && Bit(w, j)
  {
    hide Bit, Mask;
    if i == j {
      ClearSame(w, i);
    } else {
      ClearOther(w, i, j);
    }
  }

  lemma ClearSame(w: bv32, i: nat)
    requires i < 32
    ensures !Bit(w & !Mask(i), i)
  {
  }

  lemma ClearOther(w: bv32, i: nat, j: nat)
    requires i < 32 && j < 32 && i != j
    ensures Bit(w & !Mask(i), j) <==> Bit(w, j)
  {
    Apart(i, j);
    ClearApart(w, Mask(i), Mask(j));
  }

  lemma Apart(i: nat, j: nat)
    requires i < 32 && j < 32 && i != j
    ensures Mask(i) & Mask(j) == 0
  {
  }

  lemma ClearApart(w: bv32, a: bv32, b: bv32)
    requires a & b == 0
    ensures (w & !a) & b == w & b
  {
  }

  /** `fls32`: the index of the highest bit, by halving. */
  method Fls32(v: bv32) returns (bit: int)
    ensures -1 <= bit < 32 && (v == 0 <==> bit == -1)
    ensures bit == Highest(v)
  {
    hide Highest;
    var val := v;
    bit := 31;
    if val == 0 {
      NoBits(v);
      return -1;
    }
    if val & 0xffff0000 == 0 { val := val << 16; bit := bit - 16; }
    if val & 0xff000000 == 0 { val := val << 8; bit := bit - 8; }
    if val & 0xf0000000 == 0 { val := val << 4; bit := bit - 4; }
    if val & 0xc0000000 == 0 { val := val << 2; bit := bit - 2; }
    if val & 0x80000000 == 0 { bit := bit - 1; }
    assert 0 <= bit < 32 && v >> bit == 1;
    TopBit(v, bit);
  }

  /** `ffs32`: the index of the lowest bit, by halving. */
  method Ffs32(v: bv32) returns (bit: int)
    ensures v == 0 <==> bit == -1
    ensures bit != -1 ==> 0 <= bit < 32 && Bit(v, bit)
    ensures forall j :: 0 <= j < (if bit == -1 then 32 else bit) ==> !Bit(v, j)
  {
    var val := v;
    bit := 0;
    if val == 0 {
      return -1;
    }
    if val & 0x0000ffff == 0 { val := val >> 16; bit := bit + 16; }
    if val & 0x000000ff == 0 { val := val >> 8; bit := bit + 8; }
    if val & 0x0000000f == 0 { val := val >> 4; bit := bit + 4; }
    if val & 0x00000003 == 0 { val := val >> 2; bit := bit + 2; }
    if val & 0x00000001 == 0 { bit := bit + 1; }
    assert 0 <= bit < 32 && v & Mask(bit) != 0 && v & (Mask(bit) - 1) == 0;
    forall j | 0 <= j < bit ensures !Bit(v, j) {
      LowBits(v, bit, j);
    }
  }

  lemma NoBits(v: bv32)
    requires v == 0
    ensures Highest(v) == -1
  {
    HighestIs(v, -1);
  }

  lemma TopBit(v: bv32, r: nat)
    requires r < 32 && v >> r == 1
    ensures Highest(v) == r
  {
    TopSet(v, r);
    NothingAbove(v, r);
    forall j | r < j < 32 ensures !Bit(v, j) {
      HighBits(v, r, j);
    }
    HighestIs(v, r);
  }

  lemma TopSet(v: bv32, r: nat)
    requires r < 32 && v >> r == 1
    ensures v & Mask(r) != 0
  {
  }

  lemma NothingAbove(v: bv32, r: nat)
    requires r < 32 && v >> r == 1
    ensures v & !(Mask(r) | (Mask(r) - 1)) == 0
  {
  }

  lemma HighBits(v: bv32, r: nat, j: nat)
    requires r < j < 32 && v & !(Mask(r) | (Mask(r) - 1)) == 0
    ensures v & Mask(j) == 0
  {
    assert Mask(j) & (Mask(r) | (Mask(r) - 1)) == 0;
  }

  lemma LowBits(v: bv32, r: nat, j: nat)
    requires j < r < 32 && v & (Mask(r) - 1) == 0
    ensures v & Mask(j) == 0
  {
  }

  /** The highest set bit below `n`, or -1. */
  function HighestBelow(v: bv32, n: nat): int
    requires n <= 32
  {
    if n == 0 then -1 else if Bit(v, n - 1) then n - 1 else HighestBelow(v, n - 1)
  }

  function Highest(v: bv32): int { HighestBelow(v, 32) }

  lemma {:induction false} HighestBelowIs(v: bv32, n: nat, r: int)
    requires n <= 32 && -1 <= r < n && (r >= 0 ==> Bit(v, r)) && forall j :: r < j < n ==> !Bit(v, j)
    ensures HighestBelow(v, n) == r
  {
    if n > 0 && r != n - 1 {
      HighestBelowIs(v, n - 1, r);
    }
  }

  lemma HighestIs(v: bv32, r: int)
    requires -1 <= r < 32 && (r >= 0 ==> Bit(v, r)) && forall j :: r < j < 32 ==> !Bit(v, j)
    ensures Highest(v) == r
  {
    HighestBelowIs(v, 32, r);
  }

  lemma {:induction false} HighestBelowBit(v: bv32, n: nat)
    requires n <= 32
    ensures var r := HighestBelow(v, n);
      -1 <= r < n && (r >= 0 ==> Bit(v, r)) && forall j :: r < j < n ==> !Bit(v, j)
  {
    if n > 0 {
      HighestBelowBit(v, n - 1);
    }
  }
}
