/** Numbers as decimal or hexadecimal text and back: uint2str and str2uint. */
module NumText {
  import opened Bits
  import opened Bytes
  import opened Doubles
  import opened HexText

  const BASE_DEC := 0
  const BASE_HEX := 1

  /** Outside stands for a write outside the buffer, Undefined for a double out of the range of
      the number it is converted to. */
  datatype Outcome = Done | TooShort | BadParam | BadFormat | Outside | Undefined

  predicate IsBase(base: nat) {
    base == 10 || base == 16
  }

  predicate IsDigit(c: char, base: nat) {
    if base == 10 then '0' <= c <= '9' else IsHex(c)
  }

  predicate AllDigits(t: seq<char>, base: nat) {
    forall i :: 0 <= i < |t| ==> IsDigit(t[i], base)
  }

  /** The number a text of digits stands for. */
  function Number(t: seq<char>, base: nat): nat
    requires AllDigits(t, base)
  {
    if t == [] then 0 else Number(t[..|t| - 1], base) * base + HexValue(t[|t| - 1])
  }

  /** The digits of a number, none in front that could be left out. */
  function Digits(v: nat, base: nat): (t: seq<char>)
    requires IsBase(base)
    ensures |t| > 0
    decreases v
  {
    if v < base then [HexChar(v)] else Digits(v / base, base) + [HexChar(v % base)]
  }

  lemma {:induction false} DigitsBack(v: nat, base: nat)
    requires IsBase(base)
    ensures AllDigits(Digits(v, base), base)
    ensures Number(Digits(v, base), base) == v
    ensures Digits(v, base)[0] != 'x'
    ensures |Digits(v, base)| >= 2 ==> Digits(v, base)[0] != '0'
    decreases v
  {
    var t := Digits(v, base);
    if v < base {
      HexDigitBack(v);
      assert t[..0] == [];
    } else {
      DigitsBack(v / base, base);
      HexDigitBack(v % base);
      assert t[..|t| - 1] == Digits(v / base, base);
      if |Digits(v / base, base)| == 1 {
        assert v / base < base;
        HexDigitBack(v / base);
      }
    }
  }

  /** The last digit, and the digits before it. */
  lemma DigitsTurn(v: nat, base: nat)
    requires IsBase(base)
    ensures v / base == 0 ==> Digits(v, base) == [HexChar(v % base)]
    ensures v / base != 0 ==> Digits(v, base) == Digits(v / base, base) + [HexChar(v % base)]
  {
  }

  function Power(base: nat, n: nat): nat {
    if n == 0 then 1 else base * Power(base, n - 1)
  }

  lemma Carry(a: nat, b: nat, c: nat, base: nat)
    ensures (a * b + c) * base == a * (base * b) + c * base
  {
  }

  /** The digit in front counts as many times the base as digits follow: the way str2uint adds up. */
  lemma {:induction false} FrontDigit(t: seq<char>, base: nat)
    requires t != [] && AllDigits(t, base)
    ensures Number(t, base) == HexValue(t[0]) * Power(base, |t| - 1) + Number(t[1..], base)
  {
    if |t| == 1 {
      assert t[..0] == [] && t[1..] == [];
    } else {
      var u := t[..|t| - 1];
      FrontDigit(u, base);
      assert t[1..][..|t| - 2] == u[1..];
      assert t[|t| - 1] == t[1..][|t| - 2];
      Carry(HexValue(t[0]), Power(base, |u| - 1), Number(u[1..], base), base);
      hide HexValue, IsDigit;
    }
  }

  /** The width of the variable a result is stored in cuts it off. */
  function Stored(v: nat, retlen: nat): nat {
    if retlen < 2 then v % 0x100
    else if retlen < 3 then v % 0x1_0000
    else if retlen < 5 then v % 0x1_0000_0000
    else v % 0x1_0000_0000_0000_0000
  }

  /** The number is cut to as many bytes as the variable has: 1, 2, 4 or 8. */
  lemma StoredExactly(v: nat, retlen: nat)
    ensures retlen <= 1 ==> Stored(v, retlen) == v % Pow256(1)
    ensures retlen == 2 ==> Stored(v, retlen) == v % Pow256(2)
    ensures 3 <= retlen <= 4 ==> Stored(v, retlen) == v % Pow256(4)
    ensures retlen >= 5 ==> Stored(v, retlen) == v % Pow256(8)
  {
    assert Pow256(4) == 0x1_0000_0000 && Pow256(8) == 0x1_0000_0000 * Pow256(4);
  }

  predicate IsHexText(t: seq<char>) {
    |t| >= 2 && t[..2] == "0x"
  }

  /** What str2uint adds up: a number, or the text holds something else than digits, or a sum
      is no 64-bit number. */
  datatype Sum = Sum(value: nat) | NotDigits | OutOfRange

  /** The greatest exponent for which pow does not give infinity. */
  function LastExponent(base: nat): nat {
    if base == 10 then 308 else 255
  }

  /** The doubles end below 2^1024. */
  lemma LastExponentExactly(base: nat, k: nat)
    requires IsBase(base)
    ensures k <= LastExponent(base) <==> Power(base, k) < Pow2(1024)
  {
    hide Power;
    if base == 16 {
      SixteenIsFour(255);
      SixteenIsFour(256);
      PowerParts(1020, 1024);
      assert Pow2(4) == 2 * Pow2(3);
      GrowsPast(16, k, 255);
    } else {
      TenBelow();
      GrowsPast(10, k, 308);
    }
  }

  lemma GrowsPast(base: nat, k: nat, last: nat)
    requires IsBase(base)
    ensures k <= last ==> Power(base, k) <= Power(base, last)
    ensures k > last ==> Power(base, k) >= Power(base, last + 1)
  {
    if k <= last {
      PowerGrows(base, k, last);
    } else {
      PowerGrows(base, last + 1, k);
    }
  }

  lemma {:induction false} SixteenIsFour(n: nat)
    ensures Power(16, n) == Pow2(4 * n)
  {
    if n > 0 {
      SixteenIsFour(n - 1);
      assert Pow2(4 * n) == 2 * Pow2(4 * n - 1) == 4 * Pow2(4 * n - 2) == 8 * Pow2(4 * n - 3) == 16 * Pow2(4 * n - 4);
    }
  }

  lemma {:induction false} PowerOfSum(base: nat, m: nat, n: nat)
    ensures Power(base, m + n) == Power(base, m) * Power(base, n)
  {
    if m > 0 {
      PowerOfSum(base, m - 1, n);
      ProductOfThree(base, Power(base, m - 1), Power(base, n));
    }
  }

  lemma ProductOfThree(a: nat, b: nat, c: nat)
    ensures a * (b * c) == (a * b) * c
  {
  }

  /** 10^308 has 1024 binary digits and 10^309 more. */
  lemma TenBelow()
    ensures Power(10, 308) < Pow2(1024) <= Power(10, 309)
  {
    hide Power, Pow2;
    var t, p := Power(10, 77), Pow2(256);
    SeventySevenTens();
    EightTimesThirtyTwo();
    PowerOfSum(10, 77, 77);
    PowerOfSum(10, 154, 154);
    PowerOfSum(10, 1, 308);
    assert Power(10, 1) == 10 by {
      TenOnce();
    }
    PowerParts(256, 512);
    PowerParts(512, 1024);
  }

  lemma TenOnce()
    ensures Power(10, 1) == 10
  {
    assert Power(10, 0) == 1;
  }

  lemma SeventySevenTens()
    ensures Power(10, 77) == 1_00000000000_00000000000_00000000000_00000000000_00000000000_00000000000_00000000000
  {
    hide Power;
    ElevenTens();
    PowerOfSum(10, 11, 11);
    PowerOfSum(10, 22, 22);
    PowerOfSum(10, 44, 22);
    PowerOfSum(10, 66, 11);
  }

  lemma ElevenTens()
    ensures Power(10, 11) == 100000000000
  {
    assert Power(10, 5) == 100000;
    assert Power(10, 10) == 10000000000;
  }

  lemma EightTimesThirtyTwo()
    ensures Pow2(256) == 115792089237316195423570985008687907853269984665640564039457584007913129639936
  {
    hide Pow2;
    assert Pow2(16) == 65536 by {
      SixteenTwos();
    }
    PowerParts(16, 32);
    PowerParts(32, 64);
    PowerParts(64, 128);
    PowerParts(128, 256);
  }

  lemma SixteenTwos()
    ensures Pow2(16) == 65536
  {
    assert Pow2(8) == 256;
  }

  /** One turn of the loop, with its product and its sum taken in doubles. */
  function AddDigit(ret: nat, digit: nat, base: nat, k: nat): Sum {
    if k > LastExponent(base) then OutOfRange
    else
      var sum := Round(Round(ret) + Round(digit * Round(Power(base, k))));
      if sum < TWO64 then Sum(sum) else OutOfRange
  }

  /** The loop over a text, from the last digit on. */
  function Summed(t: seq<char>, base: nat): Sum
    requires IsBase(base)
  {
    if t == [] then Sum(0)
    else
      match Summed(t[1..], base)
      case Sum(ret) => if IsDigit(t[0], base) then AddDigit(ret, HexValue(t[0]), base, |t| - 1) else NotDigits
      case other => other
  }

  /** One of the two loops of str2uint: the digits are added up from the last. */
  method SumDigits(t: seq<char>, base: nat) returns (r: Sum)
    requires IsBase(base)
    ensures r == Summed(t, base)
  {
    hide Round, HexValue;
    var ret: nat := 0;
    var i, power := |t|, 1;
    assert t[|t|..] == [] && t[0..] == t;
    while i > 0
      invariant 0 <= i <= |t|
      invariant Summed(t[i..], base) == Sum(ret)
      invariant power == Power(base, |t| - i)
    {
      SummedFront(t, i - 1, base);
      hide Summed;
      i := i - 1;
      if !IsDigit(t[i], base) {
        return NotDigits;
      }
      if |t| - 1 - i > LastExponent(base) {
        return OutOfRange;
      }
      var sum := Round(Round(ret) + Round(HexValue(t[i]) * Round(power)));
      if sum >= TWO64 {
        return OutOfRange;
      }
      ret := sum;
      power := base * power;
    }
    r := Sum(ret);
  }

  /** The loop so far, at any of its turns, decides what it ends with. */
  lemma {:induction false} SummedStops(t: seq<char>, i: nat, base: nat)
    requires IsBase(base) && i <= |t| && !Summed(t[i..], base).Sum?
    ensures Summed(t, base) == Summed(t[i..], base)
    decreases i
  {
    if i == 0 {
      assert t[0..] == t;
    } else {
      assert t[i - 1..][1..] == t[i..];
      SummedStops(t, i - 1, base);
    }
  }

  lemma SummedFront(t: seq<char>, i: nat, base: nat)
    requires IsBase(base) && i < |t| && Summed(t[i + 1..], base).Sum?
    ensures var ret := Summed(t[i + 1..], base).value;
            var next := if IsDigit(t[i], base) then AddDigit(ret, HexValue(t[i]), base, |t| - 1 - i) else NotDigits;
            Summed(t[i..], base) == next && (!next.Sum? ==> Summed(t, base) == next)
  {
    assert t[i..][1..] == t[i + 1..];
    if !Summed(t[i..], base).Sum? {
      SummedStops(t, i, base);
    }
  }

  /** What str2uint makes of a text before it cuts the number to the width asked for. */
  function Read(t: seq<char>): Sum {
    if IsHexText(t) then Summed(t[2..], 16) else Summed(t, 10)
  }

  /** A text behind "0x" is read as hexadecimal digits, any other as decimal ones. */
  lemma ReadExactly(t: seq<char>)
    ensures Read("0x" + t) == Summed(t, 16)
    ensures |t| < 2 || t[0] != '0' || t[1] != 'x' ==> Read(t) == Summed(t, 10)
  {
    assert ("0x" + t)[..2] == "0x" && ("0x" + t)[2..] == t;
    assert |t| >= 2 ==> t[..2][0] == t[0] && t[..2][1] == t[1];
  }

  /** str2uint, on a text given with its length. */
  method StrToUint(input: seq<char>, retlen: nat) returns (e: Outcome, ret: nat)
    ensures (retlen == 0 || input == []) ==> e == BadParam
    ensures retlen > 0 && input != [] ==>
              match Read(input)
              case Sum(v) => e == Done && ret == Stored(v, retlen)
              case NotDigits => e == BadFormat
              case OutOfRange => e == Undefined
  {
    if retlen == 0 || input == [] {
      return BadParam, 0;
    }
    var r;
    if IsHexText(input) {
      r := SumDigits(input[2..], 16);
    } else {
      r := SumDigits(input, 10);
    }
    match r {
      case NotDigits => return BadFormat, 0;
      case OutOfRange => return Undefined, 0;
      case Sum(v) => return Done, Stored(v, retlen);
    }
  }

  /* When the sum is the number */

  lemma {:induction false} NumberBelow(t: seq<char>, base: nat)
    requires IsBase(base) && AllDigits(t, base)
    ensures Number(t, base) < Power(base, |t|)
  {
    if t != [] {
      NumberBelow(t[..|t| - 1], base);
      var n := Number(t[..|t| - 1], base);
      assert HexValue(t[|t| - 1]) < base;
      Scale(n + 1, Power(base, |t| - 1), base);
    }
  }

  lemma {:induction false} PowerGrows(base: nat, k: nat, n: nat)
    requires IsBase(base) && k <= n
    ensures Power(base, k) <= Power(base, n)
    decreases n
  {
    if k < n {
      PowerGrows(base, k, n - 1);
    }
  }

  /** Powers from the eleventh on are multiples of 2048. */
  lemma {:induction false} PowersAreCoarse(base: nat, k: nat)
    requires IsBase(base) && k >= 11
    ensures Divides(2048, Power(base, k))
    decreases k
  {
    if k == 11 {
      assert Power(10, 5) == 100000 && Power(16, 5) == 0x10_0000;
      assert Power(10, 11) == 48828125 * 2048 && Power(16, 11) == 0x2_0000_0000 * 2048;
      MultipleDivides(48828125, 2048);
      MultipleDivides(0x2_0000_0000, 2048);
    } else {
      PowersAreCoarse(base, k - 1);
      DividesMultiple(2048, base, Power(base, k - 1));
    }
  }

  /** In front of the rest of a number that a double holds stands a digit whose product it
      holds, and it holds the rest. */
  lemma CoarseStep(product: nat, power: nat, rest: nat)
    requires product + rest < TWO64 && Representable(product + rest)
    requires power <= product && Divides(2048, power) && Divides(2048, product)
    ensures Representable(power) && Representable(product) && Representable(rest)
  {
    var v := product + rest;
    CoarseIsRepresentable(power);
    CoarseIsRepresentable(product);
    ExcessBelow64(v);
    assert Pow2(11) == 2048;
    DividesDown(Excess(v), 11, product);
    RepresentableIs(v);
    DividesRest(Pow2(Excess(v)), v, product);
    ExcessGrows(rest, v);
    DividesDown(Excess(rest), Excess(v), rest);
    RepresentableIs(rest);
  }

  /** The numbers of one turn are held by doubles. */
  lemma HeldStep(rest: nat, digit: nat, base: nat, k: nat)
    requires IsBase(base) && 0 < digit < base && rest < Power(base, k)
    requires var v := digit * Power(base, k) + rest;
             v < TWO64 && Representable(v)
    ensures Representable(Power(base, k)) && Representable(digit * Power(base, k)) && Representable(rest)
  {
    hide Power, Representable;
    var power := Power(base, k);
    Scale(1, digit, power);
    if k <= 10 {
      PowerGrows(base, k, 10);
      TenthPowers();
      Scale(digit, 15, power);
      SmallIsExact(rest);
      SmallIsExact(power);
      SmallIsExact(digit * power);
    } else {
      PowersAreCoarse(base, k);
      DividesMultiple(2048, digit, power);
      CoarseStep(digit * power, power, rest);
    }
  }

  lemma TenthPowers()
    ensures Power(10, 10) == 100_0000_0000 && Power(16, 10) == 0x100_0000_0000
  {
  }

  /** Then nothing is rounded. */
  lemma ExactStep(rest: nat, digit: nat, base: nat, k: nat)
    requires IsBase(base) && digit < base && k <= LastExponent(base) && rest < Power(base, k)
    requires var v := digit * Power(base, k) + rest;
             v < TWO64 && Representable(v)
    ensures Representable(rest)
    ensures AddDigit(rest, digit, base, k) == Sum(digit * Power(base, k) + rest)
  {
    hide Power, Representable, Round;
    var power := Power(base, k);
    if digit == 0 {
      SmallIsExact(0);
      assert digit * Round(power) == digit * power == 0;
    } else {
      HeldStep(rest, digit, base, k);
      RepresentableStays(power);
      RepresentableStays(digit * power);
    }
    RepresentableStays(rest);
    RepresentableStays(digit * power + rest);
  }

  lemma DigitBelow(c: char, base: nat)
    requires IsBase(base) && IsDigit(c, base)
    ensures HexValue(c) < base
  {
  }

  lemma {:induction false} SumIsExact(t: seq<char>, base: nat)
    requires IsBase(base) && AllDigits(t, base) && |t| <= LastExponent(base) + 1
    requires Number(t, base) < TWO64 && Representable(Number(t, base))
    ensures Summed(t, base) == Sum(Number(t, base))
  {
    if t != [] {
      FrontDigit(t, base);
      hide Number, Representable, Power, AddDigit;
      NumberBelow(t[1..], base);
      DigitBelow(t[0], base);
      hide HexValue, IsDigit, IsBase;
      var rest := Number(t[1..], base);
      ExactStep(rest, HexValue(t[0]), base, |t| - 1);
      RestBelow(HexValue(t[0]), Power(base, |t| - 1), rest);
      SumIsExact(t[1..], base);
    }
  }

  lemma RestBelow(a: nat, b: nat, rest: nat)
    ensures rest <= a * b + rest
  {
  }

  /** str2uint finds the number a text of digits stands for exactly when it has 64 bits and a
      double holds it, and there are not so many digits that a power becomes infinite. */
  lemma SummedExactly(t: seq<char>, base: nat)
    requires IsBase(base) && AllDigits(t, base)
    ensures Summed(t, base) == Sum(Number(t, base)) <==>
              Number(t, base) < TWO64 && Representable(Number(t, base)) && |t| <= LastExponent(base) + 1
  {
    if Number(t, base) < TWO64 && Representable(Number(t, base)) && |t| <= LastExponent(base) + 1 {
      SumIsExact(t, base);
    }
    if t != [] && Summed(t, base).Sum? {
      var ret := Summed(t[1..], base).value;
      RoundIsRepresentable(Round(ret) + Round(HexValue(t[0]) * Round(Power(base, |t| - 1))));
    }
    hide Representable, Round, Power;
  }

  /** Every number below 2^53 is found. */
  lemma BelowTwo53(t: seq<char>, base: nat)
    requires IsBase(base) && AllDigits(t, base) && Number(t, base) < TWO53 && |t| <= LastExponent(base) + 1
    ensures Summed(t, base) == Sum(Number(t, base))
  {
    SmallIsExact(Number(t, base));
    SumIsExact(t, base);
  }

  lemma OneDigitMore(v: nat, d: nat)
    requires v > 0 && d < 10
    ensures Digits(10 * v + d, 10) == Digits(v, 10) + [HexChar(d)]
  {
  }

  lemma FirstDigitsMissed()
    ensures Digits(90071992, 10) == "90071992"
  {
    assert Digits(9, 10) == "9";
    hide Digits;
    OneDigitMore(9, 0);
    OneDigitMore(90, 0);
    OneDigitMore(900, 7);
    OneDigitMore(9007, 1);
    OneDigitMore(90071, 9);
    OneDigitMore(900719, 9);
    OneDigitMore(9007199, 2);
  }

  lemma DigitsMissed()
    ensures Digits(TWO53 + 1, 10) == "9007199254740993"
  {
    hide Digits;
    FirstDigitsMissed();
    OneDigitMore(90071992, 5);
    OneDigitMore(900719925, 4);
    OneDigitMore(9007199254, 7);
    OneDigitMore(90071992547, 4);
    assert Digits(900719925474, 10) == "900719925474";
    OneDigitMore(900719925474, 0);
    OneDigitMore(9007199254740, 9);
    OneDigitMore(90071992547409, 9);
    OneDigitMore(900719925474099, 3);
  }

  /** The least number that is not is read as the one before it. */
  lemma FirstNumberMissed()
    ensures Digits(TWO53 + 1, 10) == "9007199254740993"
    ensures Read("9007199254740993") == Sum(TWO53)
  {
    hide Digits, Number, Power, Summed, HexChar, Round;
    var t: string := "9007199254740993";
    DigitsMissed();
    DigitsBack(TWO53 + 1, 10);
    FrontDigit(t, 10);
    FifteenthPower();
    BelowTwo53(t[1..], 10);
    SummedFront(t, 0, 10);
    assert t[0..] == t && t[0] == '9';
    OneRoundedUp();
  }

  lemma FifteenthPower()
    ensures Power(10, 15) == 1000_0000_0000_0000
  {
    assert Power(10, 8) == 1_0000_0000;
  }

  lemma OneRoundedUp()
    ensures Round(Round(7199254740993) + Round(9 * Round(1000_0000_0000_0000))) == TWO53
  {
    SmallIsExact(7199254740993);
    SmallIsExact(1000_0000_0000_0000);
    SmallIsExact(9000_0000_0000_0000);
    assert Ulp(TWO53 + 1) == 2;
  }

  /** A hexadecimal text for a length of one: one digit, behind "0x", in the third byte. */
  predicate OneDigitFits(input: nat, room: nat) {
    input < 16 && room >= 3
  }

  /** The decimal loop: the digits from the back of the buffer on, and then to its front. */
  method DecimalDigits(input: nat, length: nat, str: array<char>) returns (e: Outcome)
    requires 0 < length <= str.Length
    modifies str
    ensures var d := Digits(input, 10);
            e == (if |d| <= length then Done else TooShort) && (e == Done ==> str[..|d|] == d)
  {
    var ret, remaining, idx := input / 10, input % 10, 0;
    ghost var d, v: nat := Digits(input, 10), input;
    hide Digits, HexChar;
    while true
      invariant 0 <= idx <= length
      invariant ret == v / 10 && remaining == v % 10
      invariant d == Digits(v, 10) + str[length - idx..length]
      decreases length - idx
    {
      if idx == length {
        return TooShort;
      }
      DigitsTurn(v, 10);
      ghost var low := str[length - idx..length];
      str[length - 1 - idx] := HexChar(remaining);
      idx := idx + 1;
      assert str[length - idx..length] == [HexChar(v % 10)] + low;
      if ret == 0 {
        assert d == str[length - idx..length];
        CopyInto(str, 0, str[length - idx..length]);
        return Done;
      }
      v := ret;
      remaining := ret % 10;
      ret := ret / 10;
    }
  }

  /** The hexadecimal loop: the same, behind "0x". */
  method HexDigits(input: nat, length: nat, str: array<char>) returns (e: Outcome)
    requires 1 < length <= str.Length
    modifies str
    ensures var d := Digits(input, 16);
            && e == (if |d| > length - 1 then TooShort
                     else if |d| == length - 1 && str.Length == length then Outside
                     else Done)
            && (e == Done ==>
                  str[0] == '0' && str[2..2 + |d|] == d && str[1] == if |d| <= length - 2 then 'x' else d[0])
  {
    hide Digits, HexChar;
    str[0] := '0';
    str[1] := 'x';
    var ret, remaining, idx := input / 16, input % 16, 0;
    ghost var d, v: nat := Digits(input, 16), input;
    while true
      invariant 0 <= idx < length && str[0] == '0' && (idx <= length - 2 ==> str[1] == 'x')
      invariant ret == v / 16 && remaining == v % 16
      invariant d == Digits(v, 16) + str[length - idx..length]
      decreases length - idx
    {
      if idx > length - 2 {
        return TooShort;
      }
      DigitsTurn(v, 16);
      ghost var low := str[length - idx..length];
      str[length - 1 - idx] := HexChar(remaining);
      idx := idx + 1;
      assert str[length - idx..length] == [HexChar(v % 16)] + low;
      if ret == 0 {
        assert d == str[length - idx..length];
        if 2 + idx > str.Length {
          return Outside;
        }
        CopyInto(str, 2, str[length - idx..length]);
        return Done;
      }
      v := ret;
      remaining := ret % 16;
      ret := ret / 16;
    }
  }

  /** The hexadecimal loop for a length of one: the second turn, and the move behind "0x", may
      leave the buffer. */
  method OneHexDigit(input: nat, str: array<char>) returns (e: Outcome)
    requires str.Length > 0
    modifies str
    ensures e == if OneDigitFits(input, str.Length) then Done else Outside
    ensures e == Done ==> str[..3] == [HexChar(input), 'x', HexChar(input)]
  {
    str[0] := '0';
    if str.Length < 2 {
      return Outside;
    }
    str[1] := 'x';
    str[0] := HexChar(input % 16);
    if input / 16 != 0 || str.Length < 3 {
      return Outside;
    }
    str[2] := str[0];
    return Done;
  }

  /** uint2str into a buffer of at least the length given: the text goes to its front and is
      not terminated.  A decimal text stays inside.  A hexadecimal text of length - 1 digits
      takes one byte more than the length; a length of one needs three bytes and one digit. */
  method UintToStr(input: nat, baseType: nat, length: nat, str: array<char>) returns (e: Outcome)
    requires length <= str.Length
    modifies str
    ensures length == 0 || baseType > BASE_HEX ==> e == BadParam
    ensures length > 0 && baseType == BASE_DEC ==>
              var d := Digits(input, 10);
              e == (if |d| <= length then Done else TooShort) && (e == Done ==> str[..|d|] == d)
    ensures length > 1 && baseType == BASE_HEX ==>
              var d := Digits(input, 16);
              && e == (if |d| > length - 1 then TooShort
                       else if |d| == length - 1 && str.Length == length then Outside
                       else Done)
              && (e == Done ==>
                    str[0] == '0' && str[2..2 + |d|] == d && str[1] == if |d| <= length - 2 then 'x' else d[0])
    ensures length == 1 && baseType == BASE_HEX ==>
              && e == (if OneDigitFits(input, str.Length) then Done else Outside)
              && (e == Done ==> str[..3] == [HexChar(input), 'x', HexChar(input)])
  {
    if length == 0 || baseType > BASE_HEX {
      return BadParam;
    }
    if baseType == BASE_DEC {
      e := DecimalDigits(input, length, str);
    } else if length == 1 {
      e := OneHexDigit(input, str);
    } else {
      e := HexDigits(input, length, str);
    }
  }

  lemma {:induction false} DigitsLength(v: nat, base: nat, n: nat)
    requires IsBase(base) && n > 0 && v < Power(base, n)
    ensures |Digits(v, base)| <= n
    decreases n
  {
    if v >= base && n > 1 {
      DigitsLength(v / base, base, n - 1);
    }
  }

  lemma DigitsOf64(v: nat)
    requires v < TWO64
    ensures |Digits(v, 10)| <= 20 && |Digits(v, 16)| <= 16
  {
    assert Power(10, 10) == 100_0000_0000 && Power(16, 8) == 0x1_0000_0000;
    assert Power(10, 20) == 1_0000_0000_0000_0000_0000 && Power(16, 16) == TWO64;
    DigitsLength(v, 10, 20);
    DigitsLength(v, 16, 16);
  }

  /** What uint2str writes str2uint reads back, in both bases, exactly for the numbers a double
      holds; the hexadecimal text only when it fits with its "0x". */
  lemma NumberRoundTrip(v: nat)
    requires v < TWO64
    ensures Read(Digits(v, 10)) == Sum(v) <==> Representable(v)
    ensures var d := Digits(v, 16);
            && (Read("0x" + d) == Sum(v) <==> Representable(v))
            && forall t: seq<char> :: |t| >= 2 && t[0] == '0' && t[1] == d[0] ==> !IsHexText(t)
  {
    hide Digits, Number, Summed, Representable, AllDigits, Power;
    DigitsBack(v, 10);
    DigitsBack(v, 16);
    DigitsOf64(v);
    var d, t := Digits(v, 16), Digits(v, 10);
    assert ("0x" + d)[..2] == "0x" && ("0x" + d)[2..] == d;
    assert |t| >= 2 ==> t[..2][0] == t[0];
    assert !IsHexText(t);
    SummedExactly(t, 10);
    SummedExactly(d, 16);
  }
}
