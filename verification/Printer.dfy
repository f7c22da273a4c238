/** String and ScientificNotationString, and the two round trips through the parser. */
module Printer {
  import opened Wrappers
  import opened Powers
  import opened Digits
  import opened Decimals
  import P = Parser

  // big.Int.String and strconv.Itoa
  function IntString(v: int): string {
    if v < 0 then "-" + NatString(-v) else NatString(v)
  }

  // The digits of the absolute value split k places from the right, padded with zeros.
  function WholePart(str: string, k: nat): string {
    if |str| > k then str[..|str| - k] else "0"
  }

  function FractionPart(str: string, k: nat): string {
    if |str| > k then str[|str| - k..] else Zeros(k - |str|) + str
  }

  function Scientific(d: Decimal): string {
    var intStr := NatString(Abs(d.value));
    if intStr == "0" then intStr
    else
      var remaining := if |intStr| > 1 then "." + intStr[1..] else "";
      var exp := d.exp + |intStr| - 1;
      var number := [intStr[0]] + remaining + "E" + IntString(exp);
      if d.value < 0 then "-" + number else number
  }

  function Format(d: Decimal, trim: bool, scientific: bool): string {
    if d.exp == 0 then IntString(Rescale(d, 0).value)
    else if d.exp >= 0 then
      if scientific then Scientific(d) else IntString(Rescale(d, 0).value)
    else
      var str := NatString(Abs(d.value));
      var k := -(d.exp as int);
      var fraction := if trim then TrimRight(FractionPart(str, k)) else FractionPart(str, k);
      var number := WholePart(str, k) + (if fraction != "" then "." + fraction else "");
      if d.value < 0 then "-" + number else number
  }

  // String()
  function Print(d: Decimal): string {
    Format(d, true, false)
  }

  // The loop that drops trailing zeros.
  method TrimZeros(fractionalPart: string) returns (trimmed: string)
    ensures trimmed == TrimRight(fractionalPart)
  {
    var i := |fractionalPart| - 1;
    assert fractionalPart[..i + 1] == fractionalPart;
    while i >= 0
      invariant -1 <= i < |fractionalPart|
      invariant TrimRight(fractionalPart[..i + 1]) == TrimRight(fractionalPart)
    {
      if fractionalPart[i] != '0' {
        break;
      }
      assert fractionalPart[..i + 1][..i] == fractionalPart[..i];
      i := i - 1;
    }
    return fractionalPart[..i + 1];
  }

  method FormatString(d: Decimal, trim: bool, scientific: bool) returns (s: string)
    ensures s == Format(d, trim, scientific)
  {
    if d.exp == 0 {
      return IntString(Rescale(d, 0).value);
    }
    if d.exp >= 0 {
      if scientific {
        return Scientific(d);
      } else {
        return IntString(Rescale(d, 0).value);
      }
    }
    var str := NatString(Abs(d.value));
    var dExpInt: int := d.exp;
    var intPart, fractionalPart;
    if |str| > -dExpInt {
      intPart := str[..|str| + dExpInt];
      fractionalPart := str[|str| + dExpInt..];
    } else {
      intPart := "0";
      var num0s := -dExpInt - |str|;
      fractionalPart := Zeros(num0s) + str;
    }
    assert fractionalPart == FractionPart(str, -dExpInt);
    if trim {
      fractionalPart := TrimZeros(fractionalPart);
    }
    var number := intPart;
    if |fractionalPart| > 0 {
      number := number + ("." + fractionalPart);
    }
    if Sign(d.value) < 0 {
      return "-" + number;
    }
    return number;
  }

  // ------------------------------------------------------------------ print, then parse

  // Splitting the digits moves none of them: read together, the two parts are the number.
  lemma PartsRead(str: string, k: nat)
    requires AllDigits(str)
    ensures var w, f := WholePart(str, k), FractionPart(str, k);
      AllDigits(w) && AllDigits(f) && |f| == k && AllDigits(w + f) && ReadNat(w + f) == ReadNat(str)
  {
    var w, f := WholePart(str, k), FractionPart(str, k);
    if |str| > k {
      assert w + f == str;
    } else {
      assert w + f == Zeros(1) + f;
      ReadLeadingZeros(k - |str|, str);
      ReadLeadingZeros(1, f);
    }
  }

  // The numeral that String writes.
  function Printed(d: Decimal): P.Numeral {
    var sign := if d.value < 0 then "-" else "";
    if d.exp >= 0 then P.Numeral(sign, NatString(Abs(Rescale(d, 0).value)), false, "", P.NoTail)
    else
      var str := NatString(Abs(d.value));
      var k := -(d.exp as int);
      var fraction := TrimRight(FractionPart(str, k));
      P.Numeral(sign, WholePart(str, k), fraction != "", fraction, P.NoTail)
  }

  lemma RescaleSign(d: Decimal)
    requires d.exp >= 0
    ensures Rescale(d, 0).value == d.value * Pow10(d.exp)
    ensures Rescale(d, 0).value < 0 <==> d.value < 0
  {
  }

  lemma Regroup(sign: string, a: string, b: string, c: string)
    ensures sign + a + b + c == sign + (a + b + c)
    ensures sign == "" ==> sign + (a + b + c) == a + b + c
    ensures a + b + "" == a + b && a + "" == a
  {
  }

  lemma PrintedValid(d: Decimal)
    ensures P.ValidNumeral(Printed(d))
  {
    if d.exp < 0 {
      PartsRead(NatString(Abs(d.value)), -(d.exp as int));
      assert WholePart(NatString(Abs(d.value)), -(d.exp as int)) != "";
    }
  }

  lemma PrintedIsText(d: Decimal)
    ensures P.ValidNumeral(Printed(d)) && P.Text(Printed(d)) == Print(d)
    ensures Printed(d).tail == P.NoTail
  {
    PrintedValid(d);
    var n := Printed(d);
    var rest := if n.dot then "." + n.fraction else "";
    Regroup(n.sign, n.whole, rest, "");
    if d.exp >= 0 {
      RescaleSign(d);
      assert Print(d) == IntString(Rescale(d, 0).value);
    } else {
      assert Print(d) == if d.value < 0 then "-" + (n.whole + rest) else n.whole + rest;
    }
  }

  // What String writes denotes the decimal it was given.
  lemma PrintedValue(d: Decimal)
    ensures var n := Printed(d);
      AllDigits(n.whole + n.fraction) &&
      Times(P.SignedValue(n.sign, ReadNat(n.whole + n.fraction)), -|n.fraction|) == Val(d)
  {
    hide Times;
    var n := Printed(d);
    if d.exp >= 0 {
      WholeValue(d);
      assert n.whole + n.fraction == n.whole;
    } else {
      PrintedFractionValue(d);
    }
  }

  lemma PrintedFractionValue(d: Decimal)
    requires d.exp < 0
    ensures var n := Printed(d);
      AllDigits(n.whole + n.fraction) &&
      Times(P.SignedValue(n.sign, ReadNat(n.whole + n.fraction)), -|n.fraction|) == Val(d)
  {
    hide Times, NatString, FractionPart, WholePart, TrimRight, ReadNat, Pow10, Val;
    var str := NatString(Abs(d.value));
    var k := -(d.exp as int);
    var w, f := WholePart(str, k), TrimRight(FractionPart(str, k));
    assert Printed(d).whole == w && Printed(d).fraction == f;
    TrimmedReads(str, k);
    ReadNatString(Abs(d.value));
    FractionValue(d, ReadNat(w + f), |f|);
  }

  lemma WholeValue(d: Decimal)
    requires d.exp >= 0
    ensures var v := Rescale(d, 0).value;
      Times(P.SignedValue(if d.value < 0 then "-" else "", ReadNat(NatString(Abs(v)))), 0) == Val(d)
  {
    hide Times;
    RescaleSign(d);
    RescaleDown(d, 0);
    ReadNatString(Abs(Rescale(d, 0).value));
  }

  lemma FractionValue(d: Decimal, m: nat, places: nat)
    requires d.exp < 0 && places <= -(d.exp as int)
    requires Abs(d.value) == m * Pow10(-(d.exp as int) - places)
    ensures Times(P.SignedValue(if d.value < 0 then "-" else "", m), 0 - places) == Val(d)
  {
    hide Times;
    var j := -(d.exp as int) - places;
    SignedProduct(d.value, m, Pow10(j));
    ScaleShift(P.SignedValue(if d.value < 0 then "-" else "", m), j, d.exp);
  }

  // Trimming zeros off the fraction divides by the power of ten they stood for.
  lemma TrimmedReads(str: string, k: nat)
    requires AllDigits(str)
    ensures var w, f := WholePart(str, k), TrimRight(FractionPart(str, k));
      |f| <= k && AllDigits(w + f) && ReadNat(str) == ReadNat(w + f) * Pow10(k - |f|)
  {
    var w, full := WholePart(str, k), FractionPart(str, k);
    PartsRead(str, k);
    TrimSplits(full);
    var f := TrimRight(full);
    assert w + full == (w + f) + Zeros(k - |f|);
    assert forall i :: 0 <= i < |w + f| ==> (w + f)[i] == (w + full)[i];
    ReadNatConcat(w + f, Zeros(k - |f|));
    ReadZeros(k - |f|);
  }

  lemma SignedProduct(v: int, m: nat, p: nat)
    requires Abs(v) == m * p
    ensures v == P.SignedValue(if v < 0 then "-" else "", m) * p
  {
    if v < 0 {
      assert (0 - m) * p == 0 - m * p;
    }
  }

  // Printing and parsing again succeeds exactly when at most 1000 fraction digits are left
  // after trimming, and gives back an equal decimal.
  lemma PrintParse(d: Decimal)
    ensures P.Parse(Print(d)).Ok? <==> |Printed(d).fraction| <= 1000
    ensures P.Parse(Print(d)).Ok? ==> Cmp(P.Parse(Print(d)).value, d) == 0
    ensures -1000 <= d.exp ==> P.Parse(Print(d)).Ok?
  {
    hide Times;
    hide P.Parse;
    PrintedIsText(d);
    var n := Printed(d);
    P.ParseMeaning(n);
    PrintedValue(d);
    if P.Parse(Print(d)).Ok? {
      CmpIsOrder(P.Parse(Print(d)).value, d);
    }
  }

  // The numeral that ScientificNotationString writes.
  function ScientificNumeral(d: Decimal): P.Numeral {
    var intStr := NatString(Abs(d.value));
    var exp := d.exp + |intStr| - 1;
    P.Numeral(if d.value < 0 then "-" else "", intStr[..1], |intStr| > 1, intStr[1..],
      P.Tail('E', if exp < 0 then "-" else "", NatString(Abs(exp))))
  }

  lemma ScientificText(d: Decimal)
    requires d.value != 0
    ensures P.ValidNumeral(ScientificNumeral(d)) && P.Text(ScientificNumeral(d)) == Scientific(d)
  {
    hide NatString;
    var intStr := NatString(Abs(d.value));
    NoLeadingZero(Abs(d.value));
    var exp := d.exp + |intStr| - 1;
    var n := ScientificNumeral(d);
    ScientificRegroup(n.sign, intStr[0], if n.dot then "." + n.fraction else "", IntString(exp));
    assert n.whole == [intStr[0]];
    assert P.TailText(n.tail) == "E" + IntString(exp);
  }

  lemma ScientificRegroup(sign: string, first: char, rest: string, exp: string)
    ensures (sign + [first] + rest) + ("E" + exp) == sign + ([first] + rest + "E" + exp)
    ensures sign == "" ==> sign + ([first] + rest + "E" + exp) == [first] + rest + "E" + exp
  {
  }

  lemma ScientificValue(d: Decimal)
    requires d.value != 0
    ensures var n := ScientificNumeral(d);
      AllDigits(n.whole + n.fraction) && AllDigits(n.tail.digits) &&
      P.SignedValue(n.sign, ReadNat(n.whole + n.fraction)) == d.value &&
      P.TailValue(n.tail) == d.exp + |n.fraction| &&
      |n.fraction| == |NatString(Abs(d.value))| - 1
  {
    var intStr := NatString(Abs(d.value));
    assert intStr[..1] + intStr[1..] == intStr;
    ReadNatString(Abs(d.value));
    ReadNatString(Abs(d.exp + |intStr| - 1));
  }

  // Scientific notation keeps the value and the exponent, unless the exponent is beyond 1000
  // or the written exponent leaves the int32 range; then it does not parse.
  lemma ScientificParse(d: Decimal)
    requires d.value != 0
    ensures P.Parse(Scientific(d)) == Ok(d) <==>
      -1000 <= d.exp <= 1000 && d.exp + |NatString(Abs(d.value))| - 1 <= 0x7fff_ffff
    ensures P.Parse(Scientific(d)) == Ok(d) || P.Parse(Scientific(d)).Err?
  {
    hide P.Parse, ScientificNumeral, Scientific, P.Text;
    ScientificText(d);
    P.ParseMeaning(ScientificNumeral(d));
    ScientificValue(d);
  }

  // The shape of what String writes: a minus sign for negative values only, a whole part without
  // needless zeros in front, and a dot only before a fraction that does not end in zero.
  lemma PrintedShape(d: Decimal)
    ensures var n := Printed(d);
      && n.sign == (if d.value < 0 then "-" else "")
      && n.whole != "" && (n.whole[0] == '0' ==> n.whole == "0")
      && n.dot == (n.fraction != "")
      && (n.fraction != "" ==> n.fraction[|n.fraction| - 1] != '0')
  {
    NoLeadingZero(Abs(d.value));
    if d.exp >= 0 {
      NoLeadingZero(Abs(Rescale(d, 0).value));
    } else {
      TrimSplits(FractionPart(NatString(Abs(d.value)), -(d.exp as int)));
    }
  }

  // Without trimming every decimal place is written, so that reading the text back gives the very
  // decimal, exponent included, unless it has more than 1000 places.
  lemma UntrimmedParse(d: Decimal, scientific: bool)
    requires d.exp < 0
    ensures P.Parse(Format(d, false, scientific)) == if d.exp < -1000 then Err(P.ExponentExceeds) else Ok(d)
  {
    hide P.Parse, NatString, ReadNat;
    var str, k := NatString(Abs(d.value)), -(d.exp as int);
    var w, f := WholePart(str, k), FractionPart(str, k);
    ReadNatString(Abs(d.value));
    PartsRead(str, k);
    var n := P.Numeral(if d.value < 0 then "-" else "", w, true, f, P.NoTail);
    Regroup(n.sign, w, "." + f, "");
    assert P.Text(n) == Format(d, false, scientific);
    P.ParseMeaning(n);
  }

  // Scientific notation is written for positive exponents only.
  lemma ScientificWhen(d: Decimal)
    ensures Format(d, true, true) == if d.exp > 0 then Scientific(d) else Print(d)
  {
    hide Scientific, NatString, IntString, Rescale, FractionPart, WholePart;
  }

  // One digit that is not zero, a dot before the other digits if there are any, the letter E, and the
  // exponent of the first digit. Zero is written as zero.
  lemma ScientificShape(d: Decimal)
    ensures d.value == 0 ==> Scientific(d) == "0"
    ensures d.value > 0 ==>
      var s, n := Scientific(d), |NatString(d.value)|;
      var e := if n == 1 then 1 else n + 1;
      && e < |s| && '1' <= s[0] <= '9' && (n > 1 ==> s[1] == '.') && s[e] == 'E'
      && s[e + 1..] == IntString(d.exp + n - 1)
    ensures d.value < 0 ==> Scientific(d) == "-" + Scientific(d.(value := -d.value))
  {
    NoLeadingZero(Abs(d.value));
    var intStr := NatString(Abs(d.value));
    assert IsDigit(intStr[0]);
    hide NatString, IntString;
    if d.value > 0 {
      ScientificPositive(d, intStr);
      hide Scientific;
    }
  }

  lemma ScientificPositive(d: Decimal, intStr: string)
    requires d.value > 0 && intStr == NatString(d.value) && intStr != "0"
    ensures var s, n := Scientific(d), |intStr|;
      var e := if n == 1 then 1 else n + 1;
      e < |s| && s[0] == intStr[0] && (n > 1 ==> s[1] == '.') && s[e] == 'E' && s[e + 1..] == IntString(d.exp + n - 1)
  {
    hide NatString, IntString;
  }
}
