/** Interrupt vectors kept as bits of an array of words, as the IRR and the ISR are. */
module VectorMap {
  import opened Bits

  predicate Has(w: seq<bv32>, v: nat) {
    v / 32 < |w| && Bit(w[v / 32], v % 32)
  }

  ghost function Vectors(w: seq<bv32>): set<nat> {
    set v: nat | v < 32 * |w| && Has(w, v)
  }

  /** A word that differs in one bit at most adds or removes one vector. */
  lemma OneBit(w: seq<bv32>, v: nat, x: bv32, on: bool)
    requires v / 32 < |w|
    requires forall j :: 0 <= j < 32 ==> (Bit(x, j) <==> if j == v % 32 then on else Bit(w[v / 32], j))
    ensures Vectors(w[v / 32 := x]) == if on then Vectors(w) + {v} else Vectors(w) - {v}
  {
    hide Bit;
    var r := w[v / 32 := x];
    forall u: nat | u < 32 * |w| ensures Has(r, u) <==> if u == v then on else Has(w, u) {
      assert u / 32 == v / 32 && u % 32 == v % 32 ==> u == v;
    }
  }

  /** No vector in the words from `n` on, and `r` the highest bit of word `n - 1`. */
  lemma Topmost(w: seq<bv32>, n: nat, v: nat)
    requires n < |w| && Highest(w[n]) >= 0 && v == n * 32 + Highest(w[n])
    requires forall i :: n < i < |w| ==> Highest(w[i]) == -1
    ensures v in Vectors(w) && forall u :: u in Vectors(w) ==> u <= v
  {
    HighestBelowBit(w[n], 32);
    assert v / 32 == n && v % 32 == Highest(w[n]);
    forall u | u in Vectors(w) ensures u <= v {
      HighestBelowBit(w[u / 32], 32);
    }
  }

  lemma NoVector(w: seq<bv32>)
    requires forall i :: 0 <= i < |w| ==> Highest(w[i]) == -1
    ensures Vectors(w) == {}
  {
    forall u | u in Vectors(w) ensures false {
      HighestBelowBit(w[u / 32], 32);
    }
  }

  /** The scan from the last word down that `GetIsrv`, `UnsetIsrv`, `GetIrrPending` and `UnsetIrrPending` make. */
  method Scan(words: array<bv32>) returns (vector: int)
    ensures vector == -1 <==> Vectors(words[..]) == {}
    ensures vector != -1 ==> vector >= 0 && vector in Vectors(words[..])
    ensures forall u :: u in Vectors(words[..]) ==> u <= vector
  {
    hide Highest, Vectors;
    var i := words.Length - 1;
    while i >= 0
      invariant -1 <= i < words.Length
      invariant forall k :: i < k < words.Length ==> Highest(words[k]) == -1
    {
      var idx := Fls32(words[i]);
      if idx >= 0 {
        Topmost(words[..], i, i * 32 + idx);
        return i * 32 + idx;
      }
      i := i - 1;
    }
    NoVector(words[..]);
    return -1;
  }

  method WithBit(w: bv32, k: nat) returns (x: bv32)
    requires k < 32
    ensures x == w | Mask(k)
    ensures forall j :: 0 <= j < 32 ==> (Bit(x, j) <==> if j == k then true else Bit(w, j))
  {
    x := w | Mask(k);
    forall j | 0 <= j < 32 ensures Bit(x, j) <==> j == k || Bit(w, j) {
      SetBit(w, k, j);
    }
  }

  method WithoutBit(w: bv32, k: nat) returns (x: bv32)
    requires k < 32
    ensures x == w & !Mask(k)
    ensures forall j :: 0 <= j < 32 ==> (Bit(x, j) <==> if j == k then false else Bit(w, j))
  {
    x := w & !Mask(k);
    forall j | 0 <= j < 32 ensures Bit(x, j) <==> j != k && Bit(w, j) {
      ClearBit(w, k, j);
    }
  }

  method Raise(words: array<bv32>, v: nat)
    requires v / 32 < words.Length
    modifies words
    ensures Vectors(words[..]) == Vectors(old(words[..])) + {v}
  {
    hide Vectors, Bit;
    var x := WithBit(words[v / 32], v % 32);
    OneBit(words[..], v, x, true);
    words[v / 32] := x;
    assert words[..] == old(words[..])[v / 32 := x];
  }

  method Lower(words: array<bv32>, v: nat)
    requires v / 32 < words.Length
    modifies words
    ensures Vectors(words[..]) == Vectors(old(words[..])) - {v}
  {
    hide Vectors, Bit;
    var x := WithoutBit(words[v / 32], v % 32);
    OneBit(words[..], v, x, false);
    words[v / 32] := x;
    assert words[..] == old(words[..])[v / 32 := x];
  }

  method Wipe(words: array<bv32>)
    modifies words
    ensures Vectors(words[..]) == {}
  {
    var i := 0;
    while i < words.Length
      invariant 0 <= i <= words.Length
      invariant forall k :: 0 <= k < i ==> words[k] == 0
    {
      words[i] := 0;
      i := i + 1;
    }
    NoBitsNoVectors(words[..]);
  }

  lemma NoBitsNoVectors(w: seq<bv32>)
    requires forall k :: 0 <= k < |w| ==> w[k] == 0
    ensures Vectors(w) == {}
  {
  }
}
