/** The arithmetic of internal/decimal/decimal.go: value * 10^exp with an unbounded value.
    A nil value field reads as zero there (getValue), so zero stands for both. */
module Decimals {
  import opened Powers

  const MIN_INT32: int := -0x8000_0000
  const MAX_INT32: int := 0x7fff_ffff
  type Int32 = x: int | MIN_INT32 <= x <= MAX_INT32

  datatype Decimal = Decimal(value: int, exp: Int32)

  function Abs(x: int): nat {
    if x < 0 then -x else x
  }

  // The number a decimal denotes.
  ghost function Val(d: Decimal): real {
    Times(d.value, d.exp)
  }

  // x * 10^e
  ghost function Times(x: int, e: int): real {
    x as real * Scale(e)
  }

  // big.Int.Quo: division that truncates toward zero.
  function Quo(a: int, b: int): int
    requires b > 0
  {
    if a >= 0 then a / b else -((-a) / b)
  }

  function Rescale(d: Decimal, exp: Int32): Decimal {
    if d.exp == exp then d
    else if exp > d.exp then Decimal(Quo(d.value, Pow10(exp - d.exp)), exp)
    else Decimal(d.value * Pow10(d.exp - exp), exp)
  }

  function RescalePair(d1: Decimal, d2: Decimal): (Decimal, Decimal) {
    if d1.exp < d2.exp then (d1, Rescale(d2, d1.exp))
    else if d1.exp > d2.exp then (Rescale(d1, d2.exp), d2)
    else (d1, d2)
  }

  function Add(d: Decimal, d2: Decimal): Decimal {
    var (rd, rd2) := RescalePair(d, d2);
    Decimal(rd.value + rd2.value, rd.exp)
  }

  function Sub(d: Decimal, d2: Decimal): Decimal {
    var (rd, rd2) := RescalePair(d, d2);
    Decimal(rd.value - rd2.value, rd.exp)
  }

  function Sign(x: int): int {
    if x < 0 then -1 else if x == 0 then 0 else 1
  }

  function Cmp(d: Decimal, d2: Decimal): int {
    if d.exp == d2.exp then Sign(d.value - d2.value)
    else
      var (rd, rd2) := RescalePair(d, d2);
      Sign(rd.value - rd2.value)
  }

  predicate IsPositive(d: Decimal) {
    Sign(d.value) == 1
  }

  lemma ScaleProduct(x: int, p: nat, r: real)
    ensures (x * p) as real * r == x as real * (p as real * r)
  {
    assert (x * p) as real == x as real * p as real;
  }

  lemma TimesLinear(x: int, y: int, e: int)
    ensures Times(x + y, e) == Times(x, e) + Times(y, e)
    ensures Times(x - y, e) == Times(x, e) - Times(y, e)
  {
  }

  lemma ZeroTimes(e: int, f: int)
    ensures Times(0, e) == Times(0, f)
  {
  }

  // Multiplying by a power of ten keeps the order.
  lemma TimesOrder(x: int, y: int, e: int)
    ensures x < y <==> Times(x, e) < Times(y, e)
    ensures x == y <==> Times(x, e) == Times(y, e)
  {
    var r := Scale(e);
    if x < y {
      assert (y as real - x as real) * r > 0.0;
    } else if y < x {
      assert (x as real - y as real) * r > 0.0;
    }
  }

  // Moving k decimal places between the value and the exponent.
  lemma ScaleShift(x: int, k: nat, e: int)
    ensures Times(x * Pow10(k), e) == Times(x, e + k)
  {
    ScaleAdd(e, k);
    ScaleProduct(x, Pow10(k), Scale(e));
  }

  // Rescaling to a smaller exponent multiplies and loses nothing.
  lemma RescaleDown(d: Decimal, exp: Int32)
    requires exp <= d.exp
    ensures Rescale(d, exp).exp == exp
    ensures Val(Rescale(d, exp)) == Val(d)
  {
    hide Times;
    ScaleShift(d.value, d.exp - exp, exp);
  }

  // Rescaling to a larger exponent drops digits: what is left is the quotient, cut toward zero.
  lemma RescaleUp(d: Decimal, exp: Int32)
    requires exp > d.exp
    ensures var r, p := Rescale(d, exp), Pow10(exp - d.exp);
      var rest := d.value - r.value * p;
      r.exp == exp && Abs(rest) < p && (rest > 0 ==> d.value > 0) && (rest < 0 ==> d.value < 0)
  {
    QuoCuts(d.value, Pow10(exp - d.exp));
    hide Pow10, Quo;
  }

  lemma QuoCuts(a: int, b: nat)
    requires b > 0
    ensures var rest := a - Quo(a, b) * b;
      Abs(rest) < b && (rest > 0 ==> a > 0) && (rest < 0 ==> a < 0)
  {
    var q := Abs(a) / b;
    DivisionRest(Abs(a), b);
    NegatedProduct(q, b);
  }

  lemma DivisionRest(a: nat, b: nat)
    requires b > 0
    ensures 0 <= a - a / b * b < b
  {
  }

  lemma NegatedProduct(q: int, b: int)
    ensures (-q) * b == -(q * b)
  {
  }

  // The truncating branch of Rescale is out of reach of RescalePair: both results have the
  // smaller exponent and denote the numbers they came from.
  lemma RescalePairExact(d1: Decimal, d2: Decimal)
    ensures var (r1, r2) := RescalePair(d1, d2);
      r1.exp == r2.exp && r1.exp <= d1.exp && r1.exp <= d2.exp && r1.exp in {d1.exp, d2.exp} &&
      Val(r1) == Val(d1) && Val(r2) == Val(d2)
  {
    hide Times;
    if d1.exp < d2.exp {
      RescaleDown(d2, d1.exp);
    } else if d1.exp > d2.exp {
      RescaleDown(d1, d2.exp);
    }
  }

  // Add and Sub are the rational sum and difference, with no rounding.
  lemma AddSubExact(a: Decimal, b: Decimal)
    ensures Val(Add(a, b)) == Val(a) + Val(b)
    ensures Val(Sub(a, b)) == Val(a) - Val(b)
  {
    hide Times;
    RescalePairExact(a, b);
    var (ra, rb) := RescalePair(a, b);
    TimesLinear(ra.value, rb.value, ra.exp);
  }

  // Cmp is the order of the rationals.
  lemma CmpIsOrder(a: Decimal, b: Decimal)
    ensures Cmp(a, b) == -1 <==> Val(a) < Val(b)
    ensures Cmp(a, b) == 0 <==> Val(a) == Val(b)
    ensures Cmp(a, b) == 1 <==> Val(a) > Val(b)
  {
    hide Times;
    RescalePairExact(a, b);
    var (ra, rb) := RescalePair(a, b);
    TimesOrder(ra.value, rb.value, ra.exp);
  }

  // Adding and then subtracting the same decimal gives back an equal one.
  lemma SubUndoesAdd(a: Decimal, b: Decimal)
    ensures Cmp(Sub(Add(a, b), b), a) == 0
  {
    hide Times;
    AddSubExact(a, b);
    AddSubExact(Add(a, b), b);
    CmpIsOrder(Sub(Add(a, b), b), a);
  }

  // Adding the same decimal to both sides changes no comparison.
  lemma CmpTranslates(a: Decimal, b: Decimal, c: Decimal)
    ensures Cmp(Add(a, c), Add(b, c)) == Cmp(a, b)
  {
    hide Times;
    AddSubExact(a, c);
    AddSubExact(b, c);
    CmpIsOrder(a, b);
    CmpIsOrder(Add(a, c), Add(b, c));
  }
}
