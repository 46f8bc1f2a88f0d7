/** Whole numbers in double arithmetic: the binary64 format of IEEE 754 keeps 53 binary digits
    and rounds to the nearest number it has, to the even one of two. */
module Doubles {
  import opened Bits

  const TWO53 := 0x20_0000_0000_0000
  const TWO64 := 0x1_0000_0000_0000_0000

  /** The distance of the doubles around v. */
  function Ulp(v: nat): (u: nat)
    ensures u > 0
  {
    if v < TWO53 then 1 else 2 * Ulp(v / 2)
  }

  function Round(v: nat): nat {
    var u := Ulp(v);
    var q, r := v / u, v % u;
    if 2 * r < u || (2 * r == u && q % 2 == 0) then q * u else (q + 1) * u
  }

  /** A double holds the number. */
  predicate Representable(v: nat) {
    v % Ulp(v) == 0
  }

  /** Rounding goes at most half the way to the next double. */
  lemma RoundIsNear(v: nat)
    ensures 2 * Round(v) <= 2 * v + Ulp(v) && 2 * v <= 2 * Round(v) + Ulp(v)
  {
    hide Ulp;
  }

  /** Half way between two doubles it goes to the one that is an even multiple of their distance. */
  lemma HalfGoesToEven(v: nat)
    ensures 2 * Round(v) == 2 * v + Ulp(v) || 2 * v == 2 * Round(v) + Ulp(v) ==> Round(v) / Ulp(v) % 2 == 0
  {
    hide Ulp;
    var u, q := Ulp(v), v / Ulp(v);
    DivUnique(q * u, u, q, 0);
    DivUnique((q + 1) * u, u, q + 1, 0);
    assert (q + 1) * u == q * u + u && v == q * u + v % u;
    if Round(v) == q * u {
      assert 2 * (v % u) == u ==> q % 2 == 0;
    } else {
      assert 2 * (v % u) == u ==> q % 2 == 1;
    }
  }

  /** The distance leaves 53 binary digits: from 2^53 on between 2^52 and 2^53 of it make v. */
  lemma {:induction false} UlpExactly(v: nat)
    ensures if v < TWO53 then Ulp(v) == 1 else TWO53 <= 2 * (v / Ulp(v)) && v / Ulp(v) < TWO53
    decreases v
  {
    if v >= TWO53 {
      UlpExactly(v / 2);
      HalfOf(v, Ulp(v / 2));
    }
  }

  lemma HalfOf(v: nat, u: nat)
    requires u > 0
    ensures v / (2 * u) == v / 2 / u
  {
    var q, r := v / 2 / u, v / 2 % u;
    assert v / 2 == q * u + r;
    var s := v - 2 * u * q;
    assert s == 2 * r + v % 2 by {
      assert 2 * u * q == 2 * (q * u);
    }
    assert 0 <= s < 2 * u && v == q * (2 * u) + s;
    DivUnique(v, 2 * u, q, s);
  }

  lemma SmallIsExact(v: nat)
    requires v < TWO53
    ensures Representable(v) && Round(v) == v
  {
  }

  lemma RepresentableStays(v: nat)
    requires Representable(v)
    ensures Round(v) == v
  {
    hide Ulp;
  }

  /** The binary places a number has beyond 53. */
  function Excess(v: nat): (e: nat)
    ensures Ulp(v) == Pow2(e)
  {
    if v < TWO53 then 0 else 1 + Excess(v / 2)
  }

  lemma {:induction false} ExcessGrows(v: nat, w: nat)
    requires v <= w
    ensures Excess(v) <= Excess(w)
    decreases w
  {
    if v >= TWO53 {
      ExcessGrows(v / 2, w / 2);
    }
  }

  lemma {:induction false} PowerParts(a: nat, b: nat)
    requires a <= b
    ensures Pow2(b) == Pow2(a) * Pow2(b - a)
    decreases b
  {
    if a > 0 {
      PowerParts(a - 1, b - 1);
      Regroup(Pow2(a - 1), Pow2(b - a));
    }
  }

  lemma Regroup(x: nat, y: nat)
    ensures 2 * (x * y) == (2 * x) * y
  {
  }

  /** Divisibility, in a form that multiplication keeps. */
  ghost predicate Divides(d: nat, v: nat) {
    exists k: nat :: v == k * d
  }

  lemma DividesIsMod(d: nat, v: nat)
    requires d > 0
    ensures Divides(d, v) <==> v % d == 0
  {
    if v % d == 0 {
      assert v == (v / d) * d;
    }
    if Divides(d, v) {
      var k: nat :| v == k * d;
      MultipleMod(k, d);
    }
  }

  lemma {:induction false} MultipleMod(k: nat, d: nat)
    requires d > 0
    ensures (k * d) % d == 0
    decreases k
  {
    if k > 0 {
      MultipleMod(k - 1, d);
      assert k * d == (k - 1) * d + d;
      StepMod((k - 1) * d, d);
    }
  }

  lemma StepMod(a: nat, d: nat)
    requires d > 0
    ensures (a + d) % d == a % d
  {
    var q, r := a / d, a % d;
    assert a == q * d + r;
    assert a + d == (q + 1) * d + r;
    DivUnique(a + d, d, q + 1, r);
  }

  lemma DivUnique(a: nat, d: nat, q: nat, r: nat)
    requires d > 0 && a == q * d + r && r < d
    ensures a / d == q && a % d == r
  {
    QuotientAtMost(a, d, a / d, q, r);
    QuotientAtMost(a, d, q, a / d, a % d);
  }

  lemma QuotientAtMost(a: nat, d: nat, p: nat, q: nat, r: nat)
    requires p * d <= a == q * d + r && r < d
    ensures p <= q
  {
    if q + 1 <= p {
      Scale(q + 1, p, d);
    }
  }

  lemma Scale(a: nat, b: nat, d: nat)
    requires a <= b
    ensures a * d <= b * d
  {
  }

  lemma DividesDown(a: nat, b: nat, v: nat)
    requires a <= b && Divides(Pow2(b), v)
    ensures Divides(Pow2(a), v)
  {
    PowerParts(a, b);
    var k: nat :| v == k * Pow2(b);
    Assoc(k, Pow2(b - a), Pow2(a));
    MultipleDivides(k * Pow2(b - a), Pow2(a));
  }

  lemma Assoc(a: nat, b: nat, c: nat)
    ensures a * (b * c) == (a * b) * c && b * c == c * b
  {
  }

  lemma MultipleDivides(k: nat, d: nat)
    ensures Divides(d, k * d)
  {
  }

  lemma DividesSum(d: nat, v: nat, w: nat)
    requires Divides(d, v) && Divides(d, w)
    ensures Divides(d, v + w)
  {
    var k: nat, l: nat :| v == k * d && w == l * d;
    MultipleDivides(k + l, d);
  }

  lemma DividesRest(d: nat, v: nat, w: nat)
    requires Divides(d, v) && Divides(d, w) && v >= w && d > 0
    ensures Divides(d, v - w)
  {
    var k: nat, l: nat :| v == k * d && w == l * d;
    QuotientAtMost(v, d, l, k, 0);
    MultipleDivides(k - l, d);
  }

  lemma DividesMultiple(d: nat, k: nat, v: nat)
    requires Divides(d, v)
    ensures Divides(d, k * v)
  {
    var l: nat :| v == l * d;
    Assoc(k, l, d);
    MultipleDivides(k * l, d);
  }

  /** A number is representable exactly when the power of two of its excess divides it. */
  lemma RepresentableIs(v: nat)
    ensures Representable(v) <==> Divides(Pow2(Excess(v)), v)
  {
    DividesIsMod(Ulp(v), v);
  }

  /** The digits kept of a number. */
  lemma {:induction false} LeadingDigits(v: nat)
    ensures v / Ulp(v) < TWO53
    ensures v >= TWO53 ==> v / Ulp(v) >= TWO53 / 2
  {
    if v >= TWO53 {
      LeadingDigits(v / 2);
      HalfDiv(v, Ulp(v / 2));
    }
  }

  lemma HalfDiv(v: nat, u: nat)
    requires u > 0
    ensures v / (2 * u) == v / 2 / u
  {
    var q, r := v / 2 / u, v / 2 % u;
    assert v / 2 == q * u + r;
    var s := 2 * r + v % 2;
    assert v == 2 * (q * u + r) + v % 2;
    assert 2 * (q * u) == q * (2 * u);
    DivUnique(v, 2 * u, q, s);
  }

  lemma {:induction false} ExcessOf(k: nat, e: nat)
    requires TWO53 / 2 <= k < TWO53
    ensures Excess(k * Pow2(e)) == e
    decreases e
  {
    if e > 0 {
      ExcessOf(k, e - 1);
      var w := k * Pow2(e - 1);
      assert k * Pow2(e) == 2 * w by {
        Assoc(k, 2, Pow2(e - 1));
        Assoc(2, k, Pow2(e - 1));
      }
      assert 2 * w >= TWO53 by {
        Scale(1, Pow2(e - 1), k);
      }
    } else {
      assert k * Pow2(0) == k;
    }
  }

  /** At most 53 digits, and zeros behind them. */
  lemma KeptIsRepresentable(k: nat, e: nat)
    requires k <= TWO53 && (e > 0 ==> k >= TWO53 / 2)
    ensures Representable(k * Pow2(e))
  {
    var h := TWO53 / 2;
    RepresentableIs(k * Pow2(e));
    if k == TWO53 {
      ExcessOf(h, e + 1);
      Assoc(h, 2, Pow2(e));
      MultipleDivides(h, Pow2(e + 1));
    } else if e > 0 {
      ExcessOf(k, e);
      MultipleDivides(k, Pow2(e));
    } else {
      MultipleDivides(k, 1);
    }
    hide Divides, Representable, Excess;
  }

  /** Rounding gives a representable number. */
  lemma RoundIsRepresentable(v: nat)
    ensures Representable(Round(v))
  {
    var e, q := Excess(v), v / Ulp(v);
    LeadingDigits(v);
    hide Excess, Pow2, Representable;
    assert Round(v) == (if Round(v) == q * Ulp(v) then q else q + 1) * Pow2(e);
    KeptIsRepresentable(if Round(v) == q * Ulp(v) then q else q + 1, e);
  }

  /** Below 2^64 every multiple of 2048 is representable. */
  lemma CoarseIsRepresentable(v: nat)
    requires v < TWO64 && Divides(2048, v)
    ensures Representable(v)
  {
    ExcessBelow64(v);
    assert Pow2(11) == 2048;
    DividesDown(Excess(v), 11, v);
    RepresentableIs(v);
  }

  lemma ExcessBelow64(v: nat)
    requires v < TWO64
    ensures Excess(v) <= 11
  {
    assert Pow2(11) == 2048;
    ExcessBelow(v, 11);
  }

  lemma {:induction false} ExcessBelow(v: nat, e: nat)
    requires v < TWO53 * Pow2(e)
    ensures Excess(v) <= e
    decreases e
  {
    if v >= TWO53 && e > 0 {
      ExcessBelow(v / 2, e - 1);
    }
  }
}
