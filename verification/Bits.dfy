/** The bitmaps of the program: BIT_SET, BIT_CLR and IS_BIT_SET, and the searches
    utils_frz, utils_ctz and utils_popcount, on natural numbers.  A C bitmap of w
    bits is a number below Pow2(w); BelowWidth says which sets of bits fit. */
module Bits {

  function Pow2(i: nat): (p: nat)
    ensures p > 0
  {
    if i == 0 then 1 else 2 * Pow2(i - 1)
  }

  predicate Bit(u: nat, i: nat)
    decreases i
  {
    if i == 0 then u % 2 == 1 else Bit(u / 2, i - 1)
  }

  function SetBit(u: nat, i: nat): nat
    decreases i
  {
    if i == 0 then u / 2 * 2 + 1 else SetBit(u / 2, i - 1) * 2 + u % 2
  }

  function ClrBit(u: nat, i: nat): nat
    decreases i
  {
    if i == 0 then u / 2 * 2 else ClrBit(u / 2, i - 1) * 2 + u % 2
  }

  function Or(u: nat, v: nat): nat {
    if u == 0 then v else Or(u / 2, v / 2) * 2 + (if u % 2 == 1 || v % 2 == 1 then 1 else 0)
  }

  function And(u: nat, v: nat): nat {
    if u == 0 then 0 else And(u / 2, v / 2) * 2 + (if u % 2 == 1 && v % 2 == 1 then 1 else 0)
  }

  function Xor(u: nat, v: nat): nat {
    if u == 0 then v else Xor(u / 2, v / 2) * 2 + (if u % 2 != v % 2 then 1 else 0)
  }

  function PopCount(u: nat): nat {
    if u == 0 then 0 else PopCount(u / 2) + u % 2
  }

  /** Every set bit lies below n. */
  ghost predicate Within(u: nat, n: nat) {
    forall i: nat :: Bit(u, i) ==> i < n
  }

  /** The first n bits are all set. */
  ghost predicate Full(u: nat, n: nat) {
    forall i: nat :: i < n ==> Bit(u, i)
  }

  lemma {:induction false} ZeroHasNoBits(i: nat)
    ensures !Bit(0, i)
    decreases i
  {
    if i > 0 {
      ZeroHasNoBits(i - 1);
    }
  }

  lemma {:induction false} SetBitBits(u: nat, i: nat, j: nat)
    ensures Bit(SetBit(u, i), j) == (i == j || Bit(u, j))
    decreases i
  {
    if i > 0 && j > 0 {
      SetBitBits(u / 2, i - 1, j - 1);
    }
  }

  lemma {:induction false} ClrBitBits(u: nat, i: nat, j: nat)
    ensures Bit(ClrBit(u, i), j) == (i != j && Bit(u, j))
    decreases i
  {
    if i > 0 && j > 0 {
      ClrBitBits(u / 2, i - 1, j - 1);
    }
  }

  lemma {:induction false} OrBits(u: nat, v: nat, i: nat)
    ensures Bit(Or(u, v), i) == (Bit(u, i) || Bit(v, i))
    decreases i
  {
    if u == 0 {
      ZeroHasNoBits(i);
    } else if i > 0 {
      OrBits(u / 2, v / 2, i - 1);
    }
  }

  lemma {:induction false} AndBits(u: nat, v: nat, i: nat)
    ensures Bit(And(u, v), i) == (Bit(u, i) && Bit(v, i))
    decreases i
  {
    if u == 0 {
      ZeroHasNoBits(i);
    } else if i > 0 {
      AndBits(u / 2, v / 2, i - 1);
    }
  }

  lemma {:induction false} OrZero(u: nat)
    ensures Or(u, 0) == u && Or(0, u) == u
  {
    if u > 0 {
      OrZero(u / 2);
    }
  }

  lemma {:induction false} Pow2Grows(i: nat, j: nat)
    requires i <= j
    ensures Pow2(i) <= Pow2(j)
    decreases j - i
  {
    if i < j {
      Pow2Grows(i + 1, j);
    }
  }

  lemma {:induction false} XorBits(u: nat, v: nat, i: nat)
    ensures Bit(Xor(u, v), i) == (Bit(u, i) != Bit(v, i))
    decreases i
  {
    if u == 0 {
      ZeroHasNoBits(i);
    } else if i > 0 {
      XorBits(u / 2, v / 2, i - 1);
    }
  }

  /** A bitmap is determined by its bits. */
  lemma {:induction false} SameBits(u: nat, v: nat)
    requires forall i: nat :: Bit(u, i) == Bit(v, i)
    ensures u == v
    decreases u + v
  {
    assert Bit(u, 0) == Bit(v, 0);
    if u + v > 0 {
      forall i: nat
        ensures Bit(u / 2, i) == Bit(v / 2, i)
      {
        assert Bit(u, i + 1) == Bit(v, i + 1);
      }
      SameBits(u / 2, v / 2);
    }
  }

  lemma {:induction false} SomeBit(u: nat) returns (i: nat)
    requires u != 0
    ensures Bit(u, i)
  {
    if u % 2 == 1 {
      i := 0;
    } else {
      i := SomeBit(u / 2);
      i := i + 1;
    }
  }

  lemma WithinHalf(u: nat, n: nat)
    requires n > 0
    ensures Within(u, n) <==> Within(u / 2, n - 1)
  {
    if Within(u, n) {
      forall i: nat | Bit(u / 2, i)
        ensures i < n - 1
      {
        assert Bit(u, i + 1);
      }
    }
    if Within(u / 2, n - 1) {
      forall i: nat | Bit(u, i)
        ensures i < n
      {
        assert i == 0 || Bit(u / 2, i - 1);
      }
    }
  }

  lemma FullHalf(u: nat, n: nat)
    requires n > 0
    ensures Full(u, n) <==> u % 2 == 1 && Full(u / 2, n - 1)
  {
    if Full(u, n) {
      assert Bit(u, 0);
      forall i: nat | i < n - 1
        ensures Bit(u / 2, i)
      {
        assert Bit(u, i + 1);
      }
    }
    if u % 2 == 1 && Full(u / 2, n - 1) {
      forall i: nat | i < n
        ensures Bit(u, i)
      {
        assert i == 0 || Bit(u / 2, i - 1);
      }
    }
  }

  /** A number is below 2^w exactly when none of its bits lies at w or above, so the
      w-bit C variable holds it without truncation. */
  lemma {:induction false} BelowWidth(u: nat, w: nat)
    ensures u < Pow2(w) <==> Within(u, w)
    decreases w
  {
    if w > 0 {
      WithinHalf(u, w);
      BelowWidth(u / 2, w - 1);
    } else if u == 0 {
      forall i: nat
        ensures !Bit(u, i)
      {
        ZeroHasNoBits(i);
      }
    } else {
      var i := SomeBit(u);
    }
  }

  lemma {:induction false} ClrBitSmaller(u: nat, i: nat)
    requires Bit(u, i)
    ensures ClrBit(u, i) < u
    ensures PopCount(ClrBit(u, i)) == PopCount(u) - 1
    decreases i
  {
    if i > 0 {
      ClrBitSmaller(u / 2, i - 1);
      var c := ClrBit(u / 2, i - 1) * 2 + u % 2;
      assert c / 2 == ClrBit(u / 2, i - 1) && c % 2 == u % 2;
    } else {
      assert (u / 2 * 2) / 2 == u / 2;
    }
  }

  /** A bitmap confined to the first n bits has at most n bits, and has n only when full. */
  lemma {:induction false} PopCountFull(u: nat, n: nat)
    requires Within(u, n)
    ensures PopCount(u) <= n
    ensures PopCount(u) == n <==> Full(u, n)
    decreases n
  {
    if n > 0 {
      WithinHalf(u, n);
      FullHalf(u, n);
      PopCountFull(u / 2, n - 1);
    } else if u != 0 {
      var i := SomeBit(u);
    }
  }

  /** The number of the lowest clear bit. */
  function LowestZero(u: nat): (i: nat)
    ensures !Bit(u, i)
    ensures forall j: nat :: j < i ==> Bit(u, j)
  {
    if u % 2 == 0 then 0
    else
      var r := LowestZero(u / 2);
      assert forall j: nat {:trigger Bit(u, j)} :: 0 < j < 1 + r ==> Bit(u / 2, j - 1);
      1 + r
  }

  /** A bitmap confined to n bits has a clear bit below n exactly when fewer than n are set. */
  lemma RoomBelow(u: nat, n: nat)
    requires Within(u, n)
    ensures LowestZero(u) <= n
    ensures LowestZero(u) < n <==> PopCount(u) < n
  {
    assert !Bit(u, n);
    PopCountFull(u, n);
  }

  /** utils_frz finds it. */
  method FirstZero(u: nat) returns (i: nat)
    ensures i == LowestZero(u)
  {
    var v := u;
    i := 0;
    while v % 2 == 1
      invariant forall j: nat :: j < i ==> Bit(u, j)
      invariant forall j: nat :: Bit(v, j) == Bit(u, i + j)
      decreases v
    {
      assert Bit(v, 0) == Bit(u, i + 0);
      forall j: nat
        ensures Bit(v / 2, j) == Bit(u, i + 1 + j)
      {
        assert Bit(v, j + 1) == Bit(u, i + (j + 1));
      }
      i := i + 1;
      v := v / 2;
    }
    assert Bit(v, 0) == Bit(u, i + 0);
  }

  /** utils_ctz on a non-zero bitmap: the number of the lowest set bit. */
  function TrailingZeros(u: nat): (i: nat)
    requires u != 0
    ensures Bit(u, i)
    ensures forall j: nat :: j < i ==> !Bit(u, j)
  {
    if u % 2 == 1 then 0
    else
      var r := TrailingZeros(u / 2);
      assert forall j: nat {:trigger Bit(u, j)} :: 0 < j < 1 + r ==> !Bit(u / 2, j - 1);
      1 + r
  }

  /** The bit that alone is set in Pow2(i): ERROR_BIT and BITOF. */
  lemma {:induction false} Pow2Bits(i: nat, j: nat)
    ensures Bit(Pow2(i), j) == (i == j)
    decreases i
  {
    if i == 0 {
      if j > 0 {
        ZeroHasNoBits(j - 1);
      }
    } else if j > 0 {
      Pow2Bits(i - 1, j - 1);
    }
  }

  lemma SetBitOfZero(i: nat)
    ensures SetBit(0, i) == Pow2(i)
  {
  }

  /** A mask of the lowest k bits. */
  lemma {:induction false} OnesBits(k: nat, i: nat)
    ensures Bit(Pow2(k) - 1, i) == (i < k)
    decreases i
  {
    if k == 0 {
      ZeroHasNoBits(i);
    } else {
      assert (Pow2(k) - 1) / 2 == Pow2(k - 1) - 1;
      if i > 0 {
        OnesBits(k - 1, i - 1);
      }
    }
  }
}
