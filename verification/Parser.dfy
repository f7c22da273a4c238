/** NewFromString: the hand-written decimal parser, and the integer readers it calls. */
module Parser {
  import opened Wrappers
  import opened Powers
  import opened Digits
  import opened Decimals

  const MAX_ABS_EXPONENT := 1000
  const FAST_LENGTH := 18

  datatype IntError = Syntax | Range
  datatype ParseError =
    MultipleE | TooManyDots | ExponentNotNumeric | FractionTooLong | NotNumeric | ExponentExceeds

  // ------------------------------------------------------------------ integer readers

  // strconv.ParseUint in base ten: the first offending character or overflow decides the error.
  function ScanUint(s: string, n: nat, max: nat): Result<nat, IntError> {
    if s == [] then Ok(n)
    else if !IsDigit(s[0]) then Err(Syntax)
    else
      var n' := 10 * n + DigitOf(s[0]);
      if n' > max then Err(Range) else ScanUint(s[1..], n', max)
  }

  predicate IsSign(c: char) {
    c == '+' || c == '-'
  }

  predicate Signed(s: string) {
    s != [] && IsSign(s[0])
  }

  function Unsigned(s: string): string {
    if Signed(s) then s[1..] else s
  }

  predicate Negative(s: string) {
    s != [] && s[0] == '-'
  }

  // strconv.ParseInt(s, 10, bits)
  function ParseInt(s: string, half: nat): Result<int, IntError>
    requires half > 0
  {
    var digits := Unsigned(s);
    if digits == [] then Err(Syntax)
    else match ScanUint(digits, 0, 2 * half - 1)
      case Err(e) => Err(e)
      case Ok(n) =>
        if Negative(s) then (if n > half then Err(Range) else Ok(0 - n))
        else (if n >= half then Err(Range) else Ok(n))
  }

  const HALF_32: nat := 0x8000_0000
  const HALF_64: nat := 0x8000_0000_0000_0000

  // big.Int.SetString(s, 10)
  function SetString(s: string): Option<int> {
    var digits := Unsigned(s);
    if digits == [] || !AllDigits(digits) then None
    else Some(if Negative(s) then 0 - ReadNat(digits) else ReadNat(digits))
  }

  lemma {:induction false} ScanUintReads(s: string, n: nat, max: nat)
    requires n <= max
    ensures !AllDigits(s) ==> ScanUint(s, n, max).Err?
    ensures AllDigits(s) ==>
      ScanUint(s, n, max) ==
      if n * Pow10(|s|) + ReadNat(s) <= max then Ok(n * Pow10(|s|) + ReadNat(s)) else Err(Range)
  {
    if s == [] {
    } else if IsDigit(s[0]) {
      var n' := 10 * n + DigitOf(s[0]);
      var rest := s[1..];
      if AllDigits(rest) {
        assert s == [s[0]] + rest;
        assert AllDigits([s[0]]);
        ReadNatConcat([s[0]], rest);
        assert ReadNat([s[0]]) == DigitOf(s[0]) by { assert [s[0]][..0] == []; }
        ShiftDigits(n, DigitOf(s[0]), Pow10(|rest|));
        if n' > max {
          GrowsBeyond(n', Pow10(|rest|), ReadNat(rest), max);
        }
      } else {
        var k :| 0 <= k < |rest| && !IsDigit(rest[k]);
        assert !IsDigit(s[k + 1]);
      }
      if n' <= max {
        ScanUintReads(rest, n', max);
      }
    }
  }

  lemma ShiftDigits(n: nat, d: nat, p: nat)
    ensures (10 * n + d) * p == n * (10 * p) + d * p
  {
  }

  lemma GrowsBeyond(n: nat, p: nat, r: nat, max: nat)
    requires n > max && p >= 1
    ensures n * p + r > max
  {
  }

  // A signed digit string is read as its value, or refused for being out of range.
  lemma ParseIntReads(s: string, half: nat)
    requires half > 0
    ensures ParseInt(s, half).Ok? ==> SetString(s) == Some(ParseInt(s, half).value)
    ensures SetString(s).Some? ==>
      ParseInt(s, half) == if 0 - half <= SetString(s).value < half then Ok(SetString(s).value) else Err(Range)
  {
    var digits := Unsigned(s);
    if digits != [] {
      ScanUintReads(digits, 0, 2 * half - 1);
    }
  }

  // The int64 shortcut for at most 18 characters answers what big.Int would answer.
  lemma ShortcutAgrees(s: string)
    requires |s| <= FAST_LENGTH
    ensures ParseInt(s, HALF_64).Ok? <==> SetString(s).Some?
    ensures SetString(s).Some? ==> ParseInt(s, HALF_64) == Ok(SetString(s).value)
  {
    ParseIntReads(s, HALF_64);
    if SetString(s).Some? {
      var digits := Unsigned(s);
      ReadNatBound(digits);
      Pow10Monotone(|digits|, 18);
      assert Pow10(18) == 1_000_000_000_000_000_000 by {
        assert Pow10(6) == 1_000_000;
        Pow10Add(6, 6);
        Pow10Add(12, 6);
      }
    }
  }

  // ------------------------------------------------------------------ the parser

  predicate IsE(c: char) {
    c == 'E' || c == 'e'
  }

  // Where the exponent letter and the dot are (-1 for absent), scanning from position i.
  function Scan(s: string, i: nat, eIndex: int, pIndex: int): Result<(int, int), ParseError>
    requires i <= |s|
    decreases |s| - i
  {
    if i == |s| then Ok((eIndex, pIndex))
    else if IsE(s[i]) then
      if eIndex > -1 then Err(MultipleE) else Scan(s, i + 1, i, pIndex)
    else if s[i] == '.' then
      if pIndex > -1 then Err(TooManyDots) else Scan(s, i + 1, eIndex, i)
    else Scan(s, i + 1, eIndex, pIndex)
  }

  // Every index Scan reports points at what it was looking for.
  lemma {:induction false} ScanFinds(s: string, i: nat, eIndex: int, pIndex: int)
    requires i <= |s|
    requires -1 <= eIndex < |s| && -1 <= pIndex < |s|
    requires eIndex > -1 ==> IsE(s[eIndex])
    requires pIndex > -1 ==> s[pIndex] == '.'
    ensures Scan(s, i, eIndex, pIndex).Ok? ==>
      var (e, p) := Scan(s, i, eIndex, pIndex).value;
      -1 <= e < |s| && -1 <= p < |s| && (e > -1 ==> IsE(s[e])) && (p > -1 ==> s[p] == '.')
    decreases |s| - i
  {
    if i < |s| {
      if IsE(s[i]) {
        ScanFinds(s, i + 1, i, pIndex);
      } else if s[i] == '.' {
        ScanFinds(s, i + 1, eIndex, i);
      } else {
        ScanFinds(s, i + 1, eIndex, pIndex);
      }
    }
  }

  lemma DotIsNoInteger(t: string, k: nat)
    requires k < |t| && t[k] == '.'
    ensures SetString(t).None?
  {
    if Signed(t) {
      assert Unsigned(t)[k - 1] == '.';
    } else {
      assert Unsigned(t)[k] == '.';
    }
  }

  // The exponent text is an integer only if the dot comes before the exponent letter.
  lemma DotBeforeE(s: string, e: int, p: int)
    requires 0 <= e < |s| && 0 <= p < |s| && s[p] == '.' && IsE(s[e])
    ensures ParseInt(s[e + 1..], HALF_32).Ok? ==> p < e
  {
    ParseIntReads(s[e + 1..], HALF_32);
    if p > e {
      DotIsNoInteger(s[e + 1..], p - e - 1);
    }
  }

  // Assembling the result from the coefficient text and the exponent.
  function Assemble(intString: string, exp: int): Result<Decimal, ParseError> {
    match SetString(intString)
    case None => Err(NotNumeric)
    case Some(v) =>
      if exp < MIN_INT32 || exp > MAX_INT32 then Err(FractionTooLong)
      else if exp < -MAX_ABS_EXPONENT || exp > MAX_ABS_EXPONENT then Err(ExponentExceeds)
      else Ok(Decimal(v, exp))
  }

  function Exponent(s: string, e: int): Result<int, ParseError>
    requires -1 <= e < |s|
  {
    if e == -1 then Ok(0)
    else match ParseInt(s[e + 1..], HALF_32)
      case Err(Range) => Err(FractionTooLong)
      case Err(Syntax) => Err(ExponentNotNumeric)
      case Ok(x) => Ok(x)
  }

  function Parse(s: string): Result<Decimal, ParseError> {
    match Scan(s, 0, -1, -1)
    case Err(error) => Err(error)
    case Ok((e, p)) =>
      ScanFinds(s, 0, -1, -1);
      match Exponent(s, e)
      case Err(error) => Err(error)
      case Ok(x) =>
        if e != -1 && p != -1 then
          DotBeforeE(s, e, p);
          FromParts(s[..e], p, x)
        else FromParts(if e == -1 then s else s[..e], p, x)
  }

  function FromParts(mantissa: string, p: int, x: int): Result<Decimal, ParseError>
    requires -1 <= p < |mantissa|
  {
    Assemble(Spliced(mantissa, p), x - FractionLength(mantissa, p))
  }

  // The mantissa without its dot.
  function Spliced(mantissa: string, p: int): string
    requires -1 <= p < |mantissa|
  {
    if p == -1 then mantissa else mantissa[..p] + mantissa[p + 1..]
  }

  function FractionLength(mantissa: string, p: int): nat
    requires -1 <= p < |mantissa|
  {
    if p == -1 then 0 else |mantissa| - (p + 1)
  }

  // The first loop of NewFromString.
  method FindMarkers(value: string) returns (r: Result<(int, int), ParseError>)
    ensures r == Scan(value, 0, -1, -1)
  {
    var eIndex, pIndex := -1, -1;
    var i := 0;
    while i < |value|
      invariant 0 <= i <= |value|
      invariant Scan(value, i, eIndex, pIndex) == Scan(value, 0, -1, -1)
    {
      if value[i] == 'E' || value[i] == 'e' {
        if eIndex > -1 {
          return Err(MultipleE);
        }
        eIndex := i;
      } else if value[i] == '.' {
        if pIndex > -1 {
          return Err(TooManyDots);
        }
        pIndex := i;
      }
      i := i + 1;
    }
    return Ok((eIndex, pIndex));
  }

  // The coefficient, through int64 for short texts and through big.Int for the rest.
  method Coefficient(intString: string) returns (r: Option<int>)
    ensures r == SetString(intString)
  {
    if |intString| <= FAST_LENGTH {
      var parsed64 := ParseInt(intString, HALF_64);
      ShortcutAgrees(intString);
      return if parsed64.Err? then None else Some(parsed64.value);
    }
    return SetString(intString);
  }

  // Parse, step by step: the markers, the exponent, the parts.
  lemma ParseSteps(s: string)
    ensures Scan(s, 0, -1, -1).Err? ==> Parse(s) == Err(Scan(s, 0, -1, -1).error)
    ensures Scan(s, 0, -1, -1).Ok? ==>
      var (e, p) := Scan(s, 0, -1, -1).value;
      -1 <= e < |s| && -1 <= p < |s| &&
      (Exponent(s, e).Err? ==> Parse(s) == Err(Exponent(s, e).error)) &&
      (Exponent(s, e).Ok? ==>
         var mantissa := if e == -1 then s else s[..e];
         p < |mantissa| && Parse(s) == FromParts(mantissa, p, Exponent(s, e).value))
  {
    hide Scan, ParseInt, FromParts;
    if Scan(s, 0, -1, -1).Ok? {
      ScanFinds(s, 0, -1, -1);
      var (e, p) := Scan(s, 0, -1, -1).value;
      if e != -1 && p != -1 && ParseInt(s[e + 1..], HALF_32).Ok? {
        DotBeforeE(s, e, p);
      }
    }
  }

  // The exponent behind the letter at e, or zero.
  method ReadExponent(s: string, e: int) returns (r: Result<int, ParseError>)
    requires -1 <= e < |s|
    ensures r == Exponent(s, e)
  {
    hide ParseInt;
    if e == -1 {
      return Ok(0);
    }
    var expInt := ParseInt(s[e + 1..], HALF_32);
    if expInt.Err? {
      return Err(if expInt.error == Range then FractionTooLong else ExponentNotNumeric);
    }
    return Ok(expInt.value);
  }

  method NewFromString(input: string) returns (r: Result<Decimal, ParseError>)
    ensures r == Parse(input)
  {
    hide Scan, ParseInt, SetString, Parse, Exponent;
    ParseSteps(input);
    var markers := FindMarkers(input);
    if markers.Err? {
      return Err(markers.error);
    }
    var (eIndex, pIndex) := markers.value;
    var read := ReadExponent(input, eIndex);
    if read.Err? {
      return Err(read.error);
    }
    var value, exp := input, read.value;
    if eIndex != -1 {
      value := input[..eIndex];
    }

    var intString := value;
    if pIndex != -1 {
      if pIndex + 1 < |value| {
        intString := value[..pIndex] + value[pIndex + 1..];
      } else {
        intString := value[..pIndex];
        assert value[pIndex + 1..] == "";
      }
      exp := exp - |value[pIndex + 1..]|;
    }
    assert intString == Spliced(value, pIndex) && exp == read.value - FractionLength(value, pIndex);
    hide Spliced, FractionLength;

    var dValue := Coefficient(intString);
    if dValue.None? {
      return Err(NotNumeric);
    }
    if exp < MIN_INT32 || exp > MAX_INT32 {
      return Err(FractionTooLong);
    }
    if exp < -MAX_ABS_EXPONENT || exp > MAX_ABS_EXPONENT {
      return Err(ExponentExceeds);
    }
    return Ok(Decimal(dValue.value, exp));
  }

  // ------------------------------------------------------------------ what numerals mean

  // [sign] digits with at most one dot and an optional integer exponent.
  datatype Numeral = Numeral(sign: string, whole: string, dot: bool, fraction: string, tail: Tail)
  datatype Tail = NoTail | Tail(letter: char, sign: string, digits: string)

  predicate ValidSign(s: string) {
    s == "" || s == "+" || s == "-"
  }

  predicate ValidNumeral(n: Numeral) {
    && ValidSign(n.sign)
    && AllDigits(n.whole) && AllDigits(n.fraction) && |n.whole| + |n.fraction| > 0
    && (n.fraction != "" ==> n.dot)
    && (n.tail.Tail? ==>
      IsE(n.tail.letter) && ValidSign(n.tail.sign) && AllDigits(n.tail.digits) && n.tail.digits != "")
  }

  function MantissaText(n: Numeral): string {
    n.sign + n.whole + (if n.dot then "." + n.fraction else "")
  }

  function TailText(t: Tail): string {
    if t.NoTail? then "" else [t.letter] + (t.sign + t.digits)
  }

  function Text(n: Numeral): string {
    MantissaText(n) + TailText(n.tail)
  }

  function SignedValue(sign: string, magnitude: nat): int {
    if sign == "-" then 0 - magnitude else magnitude
  }

  function TailValue(t: Tail): int
    requires t.Tail? ==> AllDigits(t.digits)
  {
    if t.NoTail? then 0 else SignedValue(t.sign, ReadNat(t.digits))
  }

  lemma ReadSigned(sign: string, digits: string)
    requires ValidSign(sign) && AllDigits(digits) && digits != ""
    ensures SetString(sign + digits) == Some(SignedValue(sign, ReadNat(digits)))
  {
    var s := sign + digits;
    if sign == "" {
      assert s == digits;
    } else {
      assert s[1..] == digits;
    }
  }

  predicate Plain(s: string) {
    forall i :: 0 <= i < |s| ==> !IsE(s[i]) && s[i] != '.'
  }

  // Characters that are neither an exponent letter nor a dot are skipped.
  lemma {:induction false} ScanSkips(s: string, i: nat, j: nat, e: int, p: int)
    requires i <= j <= |s| && Plain(s[i..j])
    ensures Scan(s, i, e, p) == Scan(s, j, e, p)
    decreases j - i
  {
    if i < j {
      assert s[i] == s[i..j][0];
      assert s[i + 1..j] == s[i..j][1..];
      ScanSkips(s, i + 1, j, e, p);
    }
  }

  // The mantissa part of a numeral ends with the dot found, if it has one.
  lemma ScanMantissa(n: Numeral, s: string)
    requires ValidNumeral(n) && MantissaText(n) <= s
    ensures Scan(s, 0, -1, -1) == Scan(s, |MantissaText(n)|, -1, DotIndex(n))
  {
    var w := |n.sign + n.whole|;
    var m := |MantissaText(n)|;
    MantissaSlices(n, s);
    NumeralPlain(n);
    hide Plain, MantissaText;
    ScanSkips(s, 0, w, -1, -1);
    if n.dot {
      ScanDot(s, w);
      hide Scan;
      ScanSkips(s, w + 1, m, -1, w);
    }
  }

  lemma NumeralPlain(n: Numeral)
    requires ValidNumeral(n)
    ensures Plain(n.sign + n.whole) && Plain(n.fraction)
  {
  }

  lemma ScanDot(s: string, w: nat)
    requires w < |s| && s[w] == '.'
    ensures Scan(s, w, -1, -1) == Scan(s, w + 1, -1, w)
  {
  }

  lemma MantissaSlices(n: Numeral, s: string)
    requires MantissaText(n) <= s
    ensures var w, m := |n.sign + n.whole|, |MantissaText(n)|;
      w <= m <= |s| && s[0..w] == n.sign + n.whole &&
      (if n.dot then w < m && s[w] == '.' && s[w + 1..m] == n.fraction else w == m)
  {
    var front := n.sign + n.whole;
    if n.dot {
      assert MantissaText(n) == front + ("." + n.fraction);
    } else {
      assert MantissaText(n) == front;
    }
  }

  function DotIndex(n: Numeral): int {
    if n.dot then |n.sign + n.whole| else -1
  }

  lemma ScanTail(t: Tail, s: string, m: nat, p: int)
    requires t.Tail? ==> IsE(t.letter) && ValidSign(t.sign) && AllDigits(t.digits)
    requires m <= |s| && s[m..] == TailText(t)
    ensures Scan(s, m, -1, p) == Ok((if t.Tail? then m else -1, p))
  {
    if t.Tail? {
      assert s[m] == s[m..][0] == t.letter;
      assert s[m + 1..|s|] == s[m..][1..] == t.sign + t.digits;
      assert Plain(t.sign + t.digits);
      ScanSkips(s, m + 1, |s|, m, p);
    }
  }

  // What is left of the mantissa once the dot is taken out.
  lemma WithoutDot(n: Numeral)
    requires ValidNumeral(n)
    ensures var mantissa := MantissaText(n);
      var p := DotIndex(n);
      p < |mantissa| &&
      Spliced(mantissa, p) == n.sign + (n.whole + n.fraction) &&
      FractionLength(mantissa, p) == |n.fraction|
  {
    var front := n.sign + n.whole;
    assert n.sign + (n.whole + n.fraction) == front + n.fraction;
    if n.dot {
      SpliceDot(front, n.fraction);
      assert MantissaText(n) == front + ("." + n.fraction);
    } else {
      assert MantissaText(n) == front;
    }
  }

  lemma SpliceDot(front: string, rest: string)
    ensures var t := front + ("." + rest);
      t[|front|] == '.' && Spliced(t, |front|) == front + rest && FractionLength(t, |front|) == |rest|
  {
    var t := front + ("." + rest);
    assert t[..|front|] == front;
    assert t[|front| + 1..] == rest;
  }

  lemma TailReads(t: Tail)
    requires t.Tail? && ValidSign(t.sign) && AllDigits(t.digits) && t.digits != ""
    ensures ParseInt(t.sign + t.digits, HALF_32) ==
      if MIN_INT32 <= TailValue(t) <= MAX_INT32 then Ok(TailValue(t)) else Err(Range)
  {
    ReadSigned(t.sign, t.digits);
    ParseIntReads(t.sign + t.digits, HALF_32);
  }

  lemma ScanNumeral(n: Numeral)
    requires ValidNumeral(n)
    ensures Scan(Text(n), 0, -1, -1) == Ok((ExponentIndex(n), DotIndex(n)))
  {
    var s := Text(n);
    ScanMantissa(n, s);
    assert s[|MantissaText(n)|..] == TailText(n.tail);
    ScanTail(n.tail, s, |MantissaText(n)|, DotIndex(n));
  }

  function ExponentIndex(n: Numeral): int {
    if n.tail.Tail? then |MantissaText(n)| else -1
  }

  lemma ExponentReads(n: Numeral)
    requires ValidNumeral(n)
    ensures var s, e := Text(n), ExponentIndex(n);
      e < |s| && MantissaText(n) == (if e == -1 then s else s[..e]) &&
      Exponent(s, e) == (if MIN_INT32 <= TailValue(n.tail) <= MAX_INT32
        then Ok(TailValue(n.tail)) else Err(FractionTooLong))
  {
    hide ParseInt;
    var mantissa := MantissaText(n);
    if n.tail.Tail? {
      var digits := n.tail.sign + n.tail.digits;
      SpliceTail(mantissa, n.tail.letter, digits);
      TailReads(n.tail);
    } else {
      assert mantissa + "" == mantissa;
    }
  }

  lemma SpliceTail(front: string, letter: char, rest: string)
    ensures var t := front + ([letter] + rest); t[..|front|] == front && t[|front| + 1..] == rest
  {
    var t := front + ([letter] + rest);
    assert t[|front| + 1..] == rest;
  }

  // Every well-formed numeral denotes its place-value reading, and is refused exactly when an
  // exponent leaves the int32 range or, with its own error, the final one exceeds 1000 in magnitude.
  lemma ParseMeaning(n: Numeral)
    requires ValidNumeral(n)
    ensures AllDigits(n.whole + n.fraction)
    ensures var x := TailValue(n.tail);
      var exp := x - |n.fraction|;
      var value := SignedValue(n.sign, ReadNat(n.whole + n.fraction));
      if x < -0x8000_0000 || x > 0x7fff_ffff || exp < -0x8000_0000 || exp > 0x7fff_ffff
      then Parse(Text(n)) == Err(FractionTooLong)
      else if exp < -1000 || exp > 1000 then Parse(Text(n)) == Err(ExponentExceeds)
      else Parse(Text(n)) == Ok(Decimal(value, exp))
  {
    hide Scan, Exponent, SetString, Text, MantissaText, DotIndex, ExponentIndex, Spliced, FractionLength;
    ScanNumeral(n);
    ExponentReads(n);
    WithoutDot(n);
    ReadSigned(n.sign, n.whole + n.fraction);
  }
}
