/** FitsNumeric: the digit-string test for "can be stored exactly in NUMERIC(p, s)". */
module Numeric {
  import opened Powers
  import opened Digits
  import opened Decimals

  // Go's int32 arithmetic wraps around.
  function Wrap32(x: int): (y: Int32)
    ensures MIN_INT32 <= x <= MAX_INT32 ==> y == x
  {
    (x + 0x8000_0000) % 0x1_0000_0000 - 0x8000_0000
  }

  // Strip trailing zeros while the exponent is negative.
  function Strip(d: Decimal): (r: Decimal)
    decreases if d.exp < 0 then -(d.exp as int) else 0
  {
    if Abs(d.value) >= 10 && d.exp < 0 && d.value % 10 == 0
    then Strip(Decimal(d.value / 10, d.exp + 1))
    else d
  }

  // What the code answers, stated on the stripped decimal.
  predicate Fits(d: Decimal, precision: Int32, scale: Int32) {
    if precision <= 0 || scale < 0 || scale > precision then false
    else if d.value == 0 then true
    else
      var r := Strip(d);
      var fractionalDigits := if r.exp < 0 then Wrap32(-(r.exp as int)) else 0;
      var integerDigits := Wrap32(Wrap32(|NatString(Abs(r.value))|) + r.exp);
      fractionalDigits <= scale && (if integerDigits < 0 then 0 else integerDigits) <= precision - scale
  }

  method FitsNumeric(d: Decimal, precision: Int32, scale: Int32) returns (fits: bool)
    ensures fits == Fits(d, precision, scale)
  {
    if precision <= 0 || scale < 0 || scale > precision {
      return false;
    }
    if Sign(d.value) == 0 {
      return true;
    }
    var digits := NatString(Abs(d.value));
    var exp := d.exp;
    ghost var rest := d;
    while |digits| > 1 && exp < 0 && digits[|digits| - 1] == '0'
      invariant rest.value != 0 && rest.exp == exp
      invariant digits == NatString(Abs(rest.value))
      invariant Strip(rest) == Strip(d)
      decreases |digits|
    {
      LastDigit(Abs(rest.value));
      assert Abs(rest.value) >= 10 && rest.value % 10 == 0;
      digits := digits[..|digits| - 1];
      assert Abs(rest.value / 10) == Abs(rest.value) / 10;
      rest := Decimal(rest.value / 10, rest.exp + 1);
      exp := exp + 1;
    }
    LastDigit(Abs(rest.value));
    assert Strip(rest) == rest;
    var fractionalDigits: Int32 := 0;
    if exp < 0 {
      fractionalDigits := Wrap32(-(exp as int));
    }
    var integerDigits := Wrap32(Wrap32(|digits|) + exp);
    if integerDigits < 0 {
      integerDigits := 0;
    }
    return fractionalDigits <= scale && integerDigits <= precision - scale;
  }

  // d is n units of 10^-scale for an integer n of at most `precision` digits.
  ghost predicate Representable(d: Decimal, precision: nat, scale: nat) {
    exists n: int :: IsUnits(d, n, scale) && Abs(n) < Pow10(precision)
  }

  ghost predicate IsUnits(d: Decimal, n: int, scale: nat) {
    Val(d) == Times(n, -(scale as int))
  }

  lemma {:induction false} StripKeepsValue(d: Decimal)
    ensures Val(Strip(d)) == Val(d)
    ensures d.value != 0 ==> Strip(d).value != 0
    ensures Strip(d).exp < 0 && d.value != 0 ==> Strip(d).value % 10 != 0
    decreases if d.exp < 0 then -(d.exp as int) else 0
  {
    hide Times;
    if Abs(d.value) >= 10 && d.exp < 0 && d.value % 10 == 0 {
      var next := Decimal(d.value / 10, d.exp + 1);
      TenthSameValue(d, next);
      StripKeepsValue(next);
    }
  }

  lemma TenthSameValue(d: Decimal, next: Decimal)
    requires d.value == 10 * next.value && next.exp == d.exp + 1
    ensures Val(next) == Val(d)
  {
    hide Times;
    assert Pow10(1) == 10;
    ScaleShift(next.value, 1, d.exp);
  }

  lemma {:induction false} StripShrinks(d: Decimal)
    ensures d.exp >= 0 || d.value % 10 != 0 ==> Strip(d) == d
    ensures d.exp < 0 ==> d.exp <= Strip(d).exp <= 0
    ensures d.exp < 0 && d.value % 10 == 0 && d.value != 0 ==> d.exp < Strip(d).exp
    ensures |NatString(Abs(Strip(d).value))| <= |NatString(Abs(d.value))|
    decreases if d.exp < 0 then -(d.exp as int) else 0
  {
    if Abs(d.value) >= 10 && d.exp < 0 && d.value % 10 == 0 {
      var next := Decimal(d.value / 10, d.exp + 1);
      StripShrinks(next);
      assert Abs(next.value) == Abs(d.value) / 10;
    }
  }

  // The branch on which int32 arithmetic goes wrong: -exp or digits + exp does not fit.
  predicate Overflows(d: Decimal) {
    d.value != 0 &&
    ((d.exp == MIN_INT32 && d.value % 10 != 0) || |NatString(Abs(d.value))| + d.exp > MAX_INT32)
  }

  // v * 10^e, with v not divisible by ten when e is negative, is a whole number of units of
  // 10^-scale only when e >= -scale; the units are then v * 10^(e + scale).
  lemma UnitsOf(v: int, e: Int32, n: int, scale: nat)
    requires v != 0 && (e < 0 ==> v % 10 != 0)
    ensures IsUnits(Decimal(v, e), n, scale) <==> e + scale >= 0 && n == v * Pow10(e + scale)
  {
    hide Times;
    if e + scale >= 0 {
      var k := e + scale;
      ScaleShift(v, k, -(scale as int));
      TimesOrder(v * Pow10(k), n, -(scale as int));
    } else {
      NotUnits(v, e, n, scale);
    }
  }

  lemma NotUnits(v: int, e: Int32, n: int, scale: nat)
    requires v % 10 != 0 && e + scale < 0
    ensures !IsUnits(Decimal(v, e), n, scale)
  {
    hide Times;
    var k := -(scale as int) - e;
    ScaleShift(n, k, e);
    TimesOrder(v, n * Pow10(k), e);
    MultipleOfTen(n, k);
  }

  lemma MultipleOfTen(n: int, k: nat)
    requires k > 0
    ensures (n * Pow10(k)) % 10 == 0
  {
    MoveFactor(n, Pow10(k - 1));
    TenDivides(n * Pow10(k - 1));
  }

  lemma MoveFactor(n: int, p: nat)
    ensures n * (10 * p) == 10 * (n * p)
  {
  }

  lemma TenDivides(q: int)
    ensures (10 * q) % 10 == 0
  {
  }

  lemma ProductSize(v: nat, k: nat)
    requires v > 0
    ensures var len := |NatString(v)|; Pow10(len - 1 + k) <= v * Pow10(k) < Pow10(len + k)
  {
    var len := |NatString(v)|;
    NatStringSize(v);
    Pow10Add(len - 1, k);
    Pow10Add(len, k);
    Between(Pow10(len - 1), v, Pow10(len), Pow10(k));
  }

  lemma ProductBelowPower(v: nat, k: nat, p: nat)
    requires v > 0
    ensures v * Pow10(k) < Pow10(p) <==> |NatString(v)| + k <= p
  {
    hide NatString, Pow10;
    var len := |NatString(v)|;
    ProductSize(v, k);
    if len + k <= p {
      Pow10Monotone(len + k, p);
    } else {
      Pow10Monotone(p, len - 1 + k);
    }
  }

  lemma Between(lo: nat, v: nat, hi: nat, m: nat)
    requires lo <= v < hi && m > 0
    ensures lo * m <= v * m < hi * m
  {
  }

  lemma AbsProduct(v: int, p: nat)
    ensures Abs(v * p) == Abs(v) * p
  {
    if v < 0 {
      assert v * p <= 0;
    } else {
      assert v * p >= 0;
    }
  }

  // The meaning of the digit counts, with unbounded integers.
  lemma RepresentableByDigits(d: Decimal, precision: nat, scale: nat)
    requires d.value != 0
    ensures var r := Strip(d);
      Representable(d, precision, scale) <==>
      r.exp + scale >= 0 && |NatString(Abs(r.value))| + r.exp + scale <= precision
  {
    hide Times;
    StripKeepsValue(d);
    var r := Strip(d);
    if r.exp + scale >= 0 {
      var k := r.exp + scale;
      var n := r.value * Pow10(k);
      UnitsOf(r.value, r.exp, n, scale);
      AbsProduct(r.value, Pow10(k));
      ProductBelowPower(Abs(r.value), k, precision);
      assert IsUnits(d, n, scale);
    }
    forall n | IsUnits(d, n, scale)
      ensures r.exp + scale >= 0 && n == r.value * Pow10(r.exp + scale)
    {
      assert IsUnits(r, n, scale);
      UnitsOf(r.value, r.exp, n, scale);
    }
  }

  // The wrapped digit counts give the unwrapped answer unless they overflow, and then they
  // answer yes to a decimal with too many digits.
  lemma DigitCountsWrap(d: Decimal, precision: Int32, scale: Int32)
    requires 0 < precision && 0 <= scale <= precision && d.value != 0
    requires |NatString(Abs(d.value))| <= MAX_INT32
    ensures var r := Strip(d);
      var exact := r.exp + scale >= 0 && |NatString(Abs(r.value))| + r.exp + scale <= precision;
      if Overflows(d) then Fits(d, precision, scale) && !exact else Fits(d, precision, scale) == exact
  {
    StripShrinks(d);
    var r := Strip(d);
    var len := |NatString(Abs(r.value))|;
    if d.exp == MIN_INT32 && d.value % 10 != 0 {
      assert r == d && Wrap32(-(r.exp as int)) == MIN_INT32;
    } else {
      assert MIN_INT32 < r.exp;
      if len + r.exp > MAX_INT32 {
        assert d.exp >= 0 && r == d;
        assert Wrap32(len + r.exp) == len + r.exp - 0x1_0000_0000;
      } else {
        assert Wrap32(len + r.exp) == len + r.exp;
      }
    }
  }

  // FitsNumeric refuses a precision that is not positive and a scale outside 0 to precision; for all
  // others it agrees with exact representability on every decimal whose int32 counts do not
  // overflow, and on no other.
  lemma FitsIffRepresentable(d: Decimal, precision: Int32, scale: Int32)
    requires |NatString(Abs(d.value))| <= MAX_INT32
    ensures !(0 < precision && 0 <= scale <= precision) ==> !Fits(d, precision, scale)
    ensures 0 < precision && 0 <= scale <= precision ==>
      ((Fits(d, precision, scale) <==> Representable(d, precision, scale)) <==> !Overflows(d))
  {
    hide Times;
    if !(0 < precision && 0 <= scale <= precision) {
    } else if d.value == 0 {
      ZeroTimes(d.exp, -(scale as int));
      assert IsUnits(d, 0, scale);
    } else {
      StripKeepsValue(d);
      StripShrinks(d);
      RepresentableByDigits(d, precision, scale);
      DigitCountsWrap(d, precision, scale);
    }
  }

  // Every decimal the parser can produce is within the range where the test is right.
  lemma FitsParsed(d: Decimal, precision: Int32, scale: Int32)
    requires -1000 <= d.exp <= 1000 && |NatString(Abs(d.value))| <= MAX_INT32 - 1000
    ensures Fits(d, precision, scale) <==>
      0 < precision && 0 <= scale <= precision && Representable(d, precision, scale)
  {
    FitsIffRepresentable(d, precision, scale);
  }

  // 10^MIN_INT32 passes the test for NUMERIC(36, 18) although no NUMERIC(36, 18) equals it.
  lemma FitsMinExponent()
    ensures var d := Decimal(1, MIN_INT32); Fits(d, 36, 18) && !Representable(d, 36, 18)
  {
    var d := Decimal(1, MIN_INT32);
    assert Strip(d) == d && Wrap32(-MIN_INT32) == MIN_INT32;
    RepresentableByDigits(d, 36, 18);
  }

  // The number of units of 10^-scale, for a decimal that fits.
  function Units(d: Decimal, scale: nat): int {
    var r := Strip(d);
    if r.exp + scale >= 0 then r.value * Pow10(r.exp + scale) else 0
  }

  // A decimal that fits converts to NUMERIC(precision, scale) with no rounding.
  lemma UnitsExact(d: Decimal, precision: Int32, scale: Int32)
    requires 0 < precision && 0 <= scale <= precision
    requires Fits(d, precision, scale) && !Overflows(d)
    requires |NatString(Abs(d.value))| <= MAX_INT32
    ensures IsUnits(d, Units(d, scale), scale) && Abs(Units(d, scale)) < Pow10(precision)
    ensures IsPositive(d) <==> Units(d, scale) > 0
  {
    hide Times;
    StripKeepsValue(d);
    StripKeepsSign(d);
    var r := Strip(d);
    if d.value == 0 {
      assert Units(d, scale) == 0;
      ZeroTimes(d.exp, -(scale as int));
    } else {
      FitsIffRepresentable(d, precision, scale);
      RepresentableByDigits(d, precision, scale);
      UnitsOfStripped(r, precision, scale);
    }
  }

  lemma {:induction false} StripKeepsSign(d: Decimal)
    ensures Strip(d).value > 0 <==> d.value > 0
    ensures d.value == 0 ==> Strip(d) == d
    decreases if d.exp < 0 then -(d.exp as int) else 0
  {
    if Abs(d.value) >= 10 && d.exp < 0 && d.value % 10 == 0 {
      StripKeepsSign(Decimal(d.value / 10, d.exp + 1));
    }
  }

  lemma UnitsOfStripped(r: Decimal, precision: nat, scale: nat)
    requires r.value != 0 && (r.exp < 0 ==> r.value % 10 != 0)
    requires r.exp + scale >= 0 && |NatString(Abs(r.value))| + r.exp + scale <= precision
    ensures var n := r.value * Pow10(r.exp + scale);
      IsUnits(r, n, scale) && Abs(n) < Pow10(precision) && (r.value > 0 <==> n > 0)
  {
    hide Times;
    var k := r.exp + scale;
    UnitsOf(r.value, r.exp, r.value * Pow10(k), scale);
    AbsProduct(r.value, Pow10(k));
    ProductBelowPower(Abs(r.value), k, precision);
    Between(0, Abs(r.value), Abs(r.value) + 1, Pow10(k));
  }
}
