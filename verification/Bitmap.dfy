/** Bitmaps over an array of bytes (include/lib/dsa/bitmap.h). */
module Bitmap {
  function Mask(k: nat): bv8
    requires k < 8
  {
    (1 as bv8) << k
  }

  predicate Bit(w: bv8, k: nat)
    requires k < 8
  {
    w & Mask(k) != 0
  }

  /** `BITMAP_TEST` */
  predicate Has(bits: seq<bv8>, bit: nat) {
    bit / 8 < |bits| && Bit(bits[bit / 8], bit % 8)
  }

  lemma Raised(w: bv8, i: nat, j: nat)
    requires i < 8 && j < 8
    ensures Bit(w | Mask(i), j) <==> i == j || Bit(w, j)
  {
  }

  lemma Lowered(w: bv8, i: nat, j: nat)
    requires i < 8 && j < 8
    ensures Bit(w & !Mask(i), j) <==> i != j && Bit(w, j)
  {
  }

  lemma SomeBit(w: bv8)
    ensures w != 0 <==> exists j :: 0 <= j < 8 && Bit(w, j)
  {
    assert w != 0 ==>
      Bit(w, 0) || Bit(w, 1) || Bit(w, 2) || Bit(w, 3) || Bit(w, 4) || Bit(w, 5) || Bit(w, 6) || Bit(w, 7);
  }

  lemma OneByte(bits: seq<bv8>, bit: nat, x: bv8, on: bool)
    requires bit / 8 < |bits|
    requires forall j :: 0 <= j < 8 ==> (Bit(x, j) <==> if j == bit % 8 then on else Bit(bits[bit / 8], j))
    ensures forall b: nat :: Has(bits[bit / 8 := x], b) <==> if b == bit then on else Has(bits, b)
  {
    hide Bit;
    forall b: nat ensures Has(bits[bit / 8 := x], b) <==> if b == bit then on else Has(bits, b) {
      assert b / 8 == bit / 8 && b % 8 == bit % 8 ==> b == bit;
    }
  }

  method WithBit(w: bv8, k: nat, on: bool) returns (x: bv8)
    requires k < 8
    ensures x == if on then w | Mask(k) else w & !Mask(k)
    ensures forall j :: 0 <= j < 8 ==> (Bit(x, j) <==> if j == k then on else Bit(w, j))
  {
    x := if on then w | Mask(k) else w & !Mask(k);
    forall j | 0 <= j < 8 ensures Bit(x, j) <==> if j == k then on else Bit(w, j) {
      Raised(w, k, j);
      Lowered(w, k, j);
    }
  }

  /** `BITMAP_SET` */
  method Set(bits: array<bv8>, bit: nat)
    requires bit / 8 < bits.Length
    modifies bits
    ensures forall b: nat :: Has(bits[..], b) <==> b == bit || Has(old(bits[..]), b)
  {
    hide Bit, Has;
    var x := WithBit(bits[bit / 8], bit % 8, true);
    OneByte(bits[..], bit, x, true);
    bits[bit / 8] := x;
    assert bits[..] == old(bits[..])[bit / 8 := x];
  }

  /** `BITMAP_UNSET` */
  method Unset(bits: array<bv8>, bit: nat)
    requires bit / 8 < bits.Length
    modifies bits
    ensures forall b: nat :: Has(bits[..], b) <==> b != bit && Has(old(bits[..]), b)
  {
    hide Bit, Has;
    var x := WithBit(bits[bit / 8], bit % 8, false);
    OneByte(bits[..], bit, x, false);
    bits[bit / 8] := x;
    assert bits[..] == old(bits[..])[bit / 8 := x];
  }

  /** `bitmapFls`: the highest bit in a range, or -1. */
  method Fls(bits: seq<bv8>, bitCnt: nat, lowBound: nat) returns (i: int)
    requires bitCnt <= 8 * |bits|
    ensures i == -1 || (lowBound <= i < bitCnt && Has(bits, i))
    ensures forall b :: lowBound <= b < bitCnt && Has(bits, b) ==> b <= i
  {
    hide Has;
    if bitCnt == 0 {
      return -1;
    }
    i := bitCnt - 1;
    while i >= lowBound
      invariant lowBound - 1 <= i < bitCnt || i == bitCnt - 1
      invariant forall b :: lowBound <= b < bitCnt && Has(bits, b) ==> b <= i
    {
      if Has(bits, i) {
        return;
      }
      i := i - 1;
    }
    return -1;
  }

  /** `bitmapFfs`: the lowest bit in a range, or -1. */
  method Ffs(bits: seq<bv8>, bitCnt: nat, lowBound: nat) returns (i: int)
    requires bitCnt <= 8 * |bits|
    ensures i == -1 || (lowBound <= i < bitCnt && Has(bits, i))
    ensures i == -1 ==> forall b :: lowBound <= b < bitCnt ==> !Has(bits, b)
    ensures forall b :: lowBound <= b < i ==> !Has(bits, b)
  {
    hide Has;
    if bitCnt == 0 {
      return -1;
    }
    i := lowBound;
    while i < bitCnt
      invariant lowBound <= i
      invariant forall b :: lowBound <= b < i ==> !Has(bits, b)
    {
      if Has(bits, i) {
        return;
      }
      i := i + 1;
    }
    return -1;
  }

  /** `bitmapIsEmpty` looks at whole bytes. */
  method IsEmpty(bits: seq<bv8>, bitCnt: nat) returns (empty: bool)
    requires (bitCnt + 7) / 8 <= |bits|
    ensures empty <==> forall b :: 0 <= b < 8 * ((bitCnt + 7) / 8) ==> !Has(bits, b)
  {
    var size := (bitCnt + 7) / 8;
    var i := 0;
    while i < size
      invariant 0 <= i <= size
      invariant forall b :: 0 <= b < 8 * i ==> !Has(bits, b)
    {
      SomeBit(bits[i]);
      if bits[i] != 0 {
        var j :| 0 <= j < 8 && Bit(bits[i], j);
        assert Has(bits, 8 * i + j);
        return false;
      }
      forall b | 8 * i <= b < 8 * i + 8 ensures !Has(bits, b) {
        assert b / 8 == i;
      }
      i := i + 1;
    }
    return true;
  }
}
