/** String is canonical: equal numbers print alike, different numbers print differently. */
module Canonical {
  import opened Powers
  import opened Digits
  import opened Decimals
  import Numeric
  import opened Printer
  import P = Parser

  // The same number with no positive exponent and no trailing fraction zero.
  ghost function Normal(d: Decimal): Decimal
    decreases if d.exp < 0 then -(d.exp as int) else 0
  {
    if d.value == 0 then Decimal(0, 0)
    else if d.exp > 0 then Decimal(d.value * Pow10(d.exp), 0)
    else if d.exp < 0 && d.value % 10 == 0 then Normal(Decimal(d.value / 10, d.exp + 1))
    else d
  }

  ghost predicate IsNormal(d: Decimal) {
    d.exp <= 0 && (d.exp < 0 ==> d.value % 10 != 0)
  }

  lemma {:induction false} NormalIsNormal(d: Decimal)
    ensures IsNormal(Normal(d))
    ensures Val(Normal(d)) == Val(d)
    decreases if d.exp < 0 then -(d.exp as int) else 0
  {
    hide Times;
    if d.value == 0 {
      ZeroTimes(0, d.exp);
    } else if d.exp > 0 {
      ScaleShift(d.value, d.exp, 0);
    } else if d.exp < 0 && d.value % 10 == 0 {
      var next := Decimal(d.value / 10, d.exp + 1);
      NormalIsNormal(next);
      assert Pow10(1) == 10;
      ScaleShift(next.value, 1, d.exp);
    }
  }

  // Two normal decimals that denote the same number are the same decimal.
  lemma NormalUnique(a: Decimal, b: Decimal)
    requires IsNormal(a) && IsNormal(b) && Val(a) == Val(b)
    ensures a == b
  {
    hide Times;
    if a.exp < b.exp {
      NormalNotFiner(a, b);
    } else if b.exp < a.exp {
      NormalNotFiner(b, a);
    } else {
      TimesOrder(a.value, b.value, a.exp);
    }
  }

  lemma NormalNotFiner(a: Decimal, b: Decimal)
    requires IsNormal(a) && IsNormal(b) && a.exp < b.exp
    ensures Val(a) != Val(b)
  {
    hide Times;
    var k := b.exp - a.exp;
    ScaleShift(b.value, k, a.exp);
    TimesOrder(a.value, b.value * Pow10(k), a.exp);
    Numeric.MultipleOfTen(b.value, k);
  }

  // ------------------------------------------------------------------ printing the normal form

  lemma TrimAppendZero(s: string)
    ensures TrimRight(s + "0") == TrimRight(s)
  {
    assert (s + "0")[..|s|] == s;
  }

  lemma {:induction false} TrimAllZeros(k: nat)
    ensures TrimRight(Zeros(k)) == ""
  {
    if k > 0 {
      TrimAllZeros(k - 1);
      assert Zeros(k)[..k - 1] == Zeros(k - 1);
    }
  }

  // Dropping a final zero digit and one decimal place prints the same text.
  lemma PartsOfTenth(str: string, k: nat)
    requires k > 1
    ensures WholePart(str + "0", k) == WholePart(str, k - 1)
    ensures FractionPart(str + "0", k) == FractionPart(str, k - 1) + "0"
  {
    var str0 := str + "0";
    if |str| > k - 1 {
      assert str0[..|str0| - k] == str[..|str| - (k - 1)];
      assert str0[|str0| - k..] == str[|str| - (k - 1)..] + "0";
    } else {
      assert Zeros(k - |str0|) + str0 == (Zeros(k - 1 - |str|) + str) + "0";
    }
  }

  lemma PrintTenth(d: Decimal)
    requires d.exp < 0 && d.value != 0 && d.value % 10 == 0
    ensures Print(d) == Print(Decimal(d.value / 10, d.exp + 1))
  {
    var next := Decimal(d.value / 10, d.exp + 1);
    var str := NatString(Abs(next.value));
    var k := -(d.exp as int);
    assert Abs(d.value) == 10 * Abs(next.value);
    TimesTen(Abs(next.value));
    if k > 1 {
      PartsOfTenth(str, k);
      TrimAppendZero(FractionPart(str, k - 1));
    } else {
      assert FractionPart(str + "0", 1) == "0";
      assert WholePart(str + "0", 1) == str;
      assert TrimRight("0") == "" by { TrimAllZeros(1); assert Zeros(1) == "0"; }
      assert str + "" == str;
    }
  }

  lemma PrintZero(d: Decimal)
    requires d.value == 0
    ensures Print(d) == "0"
  {
    NoLeadingZero(0);
    if d.exp < 0 {
      var k := -(d.exp as int);
      assert FractionPart("0", k) == Zeros(k);
      TrimAllZeros(k);
    }
  }

  lemma PrintWhole(d: Decimal)
    requires d.exp > 0
    ensures Print(d) == Print(Decimal(d.value * Pow10(d.exp), 0))
  {
    RescaleSign(d);
  }

  lemma {:induction false} PrintNormal(d: Decimal)
    ensures Print(d) == Print(Normal(d))
    decreases if d.exp < 0 then -(d.exp as int) else 0
  {
    hide Print;
    if d.value == 0 {
      PrintZero(d);
      PrintZero(Decimal(0, 0));
    } else if d.exp > 0 {
      PrintWhole(d);
    } else if d.exp < 0 && d.value % 10 == 0 {
      PrintTenth(d);
      PrintNormal(Decimal(d.value / 10, d.exp + 1));
    }
  }

  // Cmp answers zero exactly when the two decimals print the same text.
  lemma PrintIsCanonical(a: Decimal, b: Decimal)
    ensures Cmp(a, b) == 0 <==> Print(a) == Print(b)
  {
    hide Times;
    hide Print, Normal, IsNormal, Cmp;
    CmpIsOrder(a, b);
    if Cmp(a, b) == 0 {
      NormalIsNormal(a);
      NormalIsNormal(b);
      NormalUnique(Normal(a), Normal(b));
      PrintNormal(a);
      PrintNormal(b);
    } else if Print(a) == Print(b) {
      SameTextSameValue(a, b);
    }
  }

  // A text denotes one number, so decimals with the same text are equal.
  lemma SameTextSameValue(a: Decimal, b: Decimal)
    requires Print(a) == Print(b)
    ensures Val(a) == Val(b)
  {
    hide Times, Print, Printed, Val;
    PrintedIsText(a);
    PrintedIsText(b);
    PrintedValue(a);
    PrintedValue(b);
    NumeralOfText(Printed(a), Printed(b));
  }

  // A text without exponent determines its numeral's sign, digits and number of decimals.
  lemma NumeralOfText(m: P.Numeral, n: P.Numeral)
    requires P.ValidNumeral(m) && P.ValidNumeral(n) && m.tail == n.tail == P.NoTail
    requires P.Text(m) == P.Text(n)
    ensures m.sign == n.sign && m.whole + m.fraction == n.whole + n.fraction
    ensures |m.fraction| == |n.fraction|
  {
    assert P.MantissaText(m) + "" == P.MantissaText(m);
    assert P.MantissaText(n) + "" == P.MantissaText(n);
    P.ScanNumeral(m);
    P.ScanNumeral(n);
    P.WithoutDot(m);
    P.WithoutDot(n);
    SignOfText(m.sign, m.whole + m.fraction, n.sign, n.whole + n.fraction);
  }

  lemma SignOfText(s: string, digits: string, s': string, digits': string)
    requires P.ValidSign(s) && P.ValidSign(s') && AllDigits(digits) && AllDigits(digits')
    requires digits != "" && digits' != "" && s + digits == s' + digits'
    ensures s == s' && digits == digits'
  {
    assert (s + digits)[0] == (s' + digits')[0];
    assert (s + digits)[|s|..] == digits;
    assert (s' + digits')[|s'|..] == digits';
  }

  // String never writes a negative zero.
  lemma NeverNegativeZero(d: Decimal)
    ensures Print(d) != "" && (Print(d)[0] == '-' <==> d.value < 0)
    ensures Print(d) == "0" <==> d.value == 0
  {
    PrintedIsText(d);
    var n := Printed(d);
    var text := n.whole + (if n.dot then "." + n.fraction else "");
    assert P.Text(n) == n.sign + text;
    assert n.whole != "" && text[0] == n.whole[0];
    if d.value == 0 {
      PrintZero(d);
    } else if Print(d) == "0" {
      PrintZero(Decimal(0, 0));
      SameTextSameValue(d, Decimal(0, 0));
      TimesOrder(d.value, 0, d.exp);
      ZeroTimes(0, d.exp);
    }
  }
}
