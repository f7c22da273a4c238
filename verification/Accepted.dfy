/** The converse of Parser.ParseMeaning: which texts the parser accepts at all. */
module Accepted {
  import opened Wrappers
  import opened Digits
  import opened Decimals
  import opened Parser

  // The splicing drops a dot that stands before the sign, so such a text is accepted too.
  predicate DotBeforeSign(s: string) {
    |s| > 1 && s[0] == '.' && IsSign(s[1])
  }

  lemma SignedDigits(s: string) returns (sign: string, digits: string)
    requires SetString(s).Some?
    ensures ValidSign(sign) && AllDigits(digits) && digits != "" && s == sign + digits
    ensures sign != "" <==> Signed(s)
  {
    if Signed(s) {
      sign, digits := s[..1], s[1..];
      assert sign == [s[0]];
    } else {
      sign, digits := "", s;
    }
  }

  lemma LeadingDot(m: string, p: int)
    requires 0 <= p < |m| && m[p] == '.' && !DotBeforeSign(m)
    ensures p == 0 ==> !Signed(Spliced(m, p))
  {
  }

  // The sign, the whole part and the fraction around a dot at p.
  lemma MantissaParts(m: string, p: int) returns (sign: string, whole: string, fraction: string)
    requires -1 <= p < |m| && (p >= 0 ==> m[p] == '.') && SetString(Spliced(m, p)).Some? && !DotBeforeSign(m)
    ensures ValidSign(sign) && AllDigits(whole) && AllDigits(fraction) && |whole| + |fraction| > 0
    ensures p == -1 ==> fraction == ""
    ensures m == sign + whole + (if p >= 0 then "." + fraction else "")
  {
    hide SetString, Signed, DotBeforeSign;
    var digits;
    sign, digits := SignedDigits(Spliced(m, p));
    if p == -1 {
      whole, fraction := digits, "";
    } else {
      LeadingDot(m, p);
      var front := m[..p];
      fraction := m[p + 1..];
      whole := SplitDigits(front, fraction, sign, digits);
      assert m == front + ("." + fraction);
    }
  }

  lemma SplitDigits(front: string, fraction: string, sign: string, digits: string) returns (whole: string)
    requires front + fraction == sign + digits && |sign| <= |front| && AllDigits(digits)
    ensures front == sign + whole && digits == whole + fraction && AllDigits(whole) && AllDigits(fraction)
  {
    whole := front[|sign|..];
    var all := front + fraction;
    assert all[..|sign|] == sign && all[|sign|..] == digits;
    assert front[..|sign|] == sign;
    assert digits == whole + fraction;
    forall i | 0 <= i < |fraction| ensures IsDigit(fraction[i]) {
      assert digits[|whole| + i] == fraction[i];
    }
    forall i | 0 <= i < |whole| ensures IsDigit(whole[i]) {
      assert digits[i] == whole[i];
    }
  }

  lemma TailParts(t: string) returns (sign: string, digits: string)
    requires ParseInt(t, HALF_32).Ok?
    ensures ValidSign(sign) && AllDigits(digits) && digits != "" && t == sign + digits
  {
    ParseIntReads(t, HALF_32);
    sign, digits := SignedDigits(t);
  }

  predicate ValidTail(t: Tail) {
    t.Tail? ==> IsE(t.letter) && ValidSign(t.sign) && AllDigits(t.digits) && t.digits != ""
  }

  lemma TailOf(s: string, e: nat) returns (tail: Tail)
    requires e < |s| && IsE(s[e]) && ParseInt(s[e + 1..], HALF_32).Ok?
    ensures ValidTail(tail) && s == s[..e] + TailText(tail)
  {
    hide ParseInt;
    var sign, digits := TailParts(s[e + 1..]);
    tail := Tail(s[e], sign, digits);
    assert s == s[..e] + ([s[e]] + s[e + 1..]);
  }

  // What has to hold of the indices found for the parser to accept.
  lemma ParseIndices(s: string)
    requires Parse(s).Ok?
    ensures Scan(s, 0, -1, -1).Ok?
    ensures var (e, p) := Scan(s, 0, -1, -1).value;
      -1 <= e < |s| && (e != -1 ==> ParseInt(s[e + 1..], HALF_32).Ok?) &&
      var mantissa := if e == -1 then s else s[..e];
      -1 <= p < |mantissa| && SetString(Spliced(mantissa, p)).Some?
  {
    hide Scan, ParseInt, SetString, Spliced;
    ScanFinds(s, 0, -1, -1);
    var (e, p) := Scan(s, 0, -1, -1).value;
    if e != -1 && p != -1 && ParseInt(s[e + 1..], HALF_32).Ok? {
      DotBeforeE(s, e, p);
    }
  }

  lemma ScanFirstDot(s: string)
    requires s != "" && s[0] == '.'
    ensures Scan(s, 0, -1, -1) == Scan(s, 1, -1, 0)
  {
  }

  lemma {:induction false} ScanKeepsDot(s: string, i: nat, e: int, p: int)
    requires i <= |s| && p > -1 && Scan(s, i, e, p).Ok?
    ensures Scan(s, i, e, p).value.1 == p
    decreases |s| - i
  {
    if i < |s| {
      ScanKeepsDot(s, i + 1, if IsE(s[i]) then i else e, p);
    }
  }

  lemma LeadingDotFound(s: string)
    requires s != "" && s[0] == '.' && Scan(s, 0, -1, -1).Ok?
    ensures Scan(s, 0, -1, -1).value.1 == 0
  {
    ScanFirstDot(s);
    ScanKeepsDot(s, 1, -1, 0);
  }

  lemma EmptyTail(s: string)
    ensures ValidTail(NoTail) && s == s + TailText(NoTail)
  {
  }

  // An accepted text is a mantissa, in which dropping the dot leaves an integer, and a tail.
  lemma ParseParts(s: string) returns (mantissa: string, p: int, tail: Tail)
    requires Parse(s).Ok?
    ensures s == mantissa + TailText(tail) && ValidTail(tail)
    ensures -1 <= p < |mantissa| && SetString(Spliced(mantissa, p)).Some?
    ensures p >= 0 ==> mantissa[p] == '.'
    ensures s != "" && s[0] == '.' ==> p == 0
  {
    hide Scan, ParseInt, SetString, Spliced, Parse, TailText, ValidTail, IsE;
    ParseIndices(s);
    ScanFinds(s, 0, -1, -1);
    if s != "" && s[0] == '.' {
      LeadingDotFound(s);
    }
    var found := Scan(s, 0, -1, -1).value;
    p := found.1;
    if found.0 == -1 {
      mantissa, tail := s, NoTail;
      EmptyTail(s);
    } else {
      mantissa := s[..found.0];
      tail := TailOf(s, found.0);
    }
  }

  lemma SameStart(mantissa: string, rest: string)
    ensures DotBeforeSign(mantissa) ==> DotBeforeSign(mantissa + rest)
    ensures |mantissa| > 1 && DotBeforeSign(mantissa + rest) ==> DotBeforeSign(mantissa)
  {
  }

  // Every accepted text is a well-formed numeral, unless its dot stands before its sign.
  lemma OnlyNumeralsParse(s: string) returns (n: Numeral)
    requires Parse(s).Ok? && !DotBeforeSign(s)
    ensures ValidNumeral(n) && Text(n) == s
  {
    hide Parse, SetString, Spliced, TailText, DotBeforeSign;
    var mantissa, p, tail := ParseParts(s);
    SameStart(mantissa, TailText(tail));
    var sign, whole, fraction := MantissaParts(mantissa, p);
    n := Numeral(sign, whole, p != -1, fraction, tail);
  }

  predicate InRange(n: Numeral)
    requires ValidNumeral(n)
  {
    -0x8000_0000 <= TailValue(n.tail) <= 0x7fff_ffff && -1000 <= TailValue(n.tail) - |n.fraction| <= 1000
  }

  ghost predicate IsNumeral(s: string) {
    exists n :: ValidNumeral(n) && InRange(n) && Text(n) == s
  }

  // ------------------------------------------------------------------ a dot before the sign

  // The other texts the parser accepts: a dot, a sign, digits and perhaps an exponent.
  datatype DotSigned = DotSigned(sign: string, digits: string, tail: Tail)

  predicate ValidDotSigned(d: DotSigned) {
    && (d.sign == "+" || d.sign == "-") && AllDigits(d.digits) && d.digits != ""
    && ValidTail(d.tail)
  }

  function DotSignedText(d: DotSigned): string {
    "." + (d.sign + d.digits) + TailText(d.tail)
  }

  // The sign counts as one more decimal place.
  function DotSignedExponent(d: DotSigned): int
    requires ValidDotSigned(d)
  {
    TailValue(d.tail) - |d.digits| - 1
  }

  predicate DotSignedInRange(d: DotSigned)
    requires ValidDotSigned(d)
  {
    -0x8000_0000 <= TailValue(d.tail) <= 0x7fff_ffff && -1000 <= DotSignedExponent(d) <= 1000
  }

  ghost predicate IsDotSigned(s: string) {
    exists d :: ValidDotSigned(d) && DotSignedInRange(d) && DotSignedText(d) == s
  }

  function DotSignedIndex(d: DotSigned): int {
    if d.tail.Tail? then |d.digits| + 2 else -1
  }

  lemma ScanDotSigned(d: DotSigned)
    requires ValidDotSigned(d)
    ensures Scan(DotSignedText(d), 0, -1, -1) == Ok((DotSignedIndex(d), 0))
  {
    hide Scan;
    var s, m := DotSignedText(d), |d.digits| + 2;
    assert s[1..m] == d.sign + d.digits && s[m..] == TailText(d.tail);
    ScanFirstDot(s);
    assert Plain(s[1..m]);
    ScanSkips(s, 1, m, -1, 0);
    ScanTail(d.tail, s, m, 0);
  }

  lemma DotSignedParts(d: DotSigned)
    requires ValidDotSigned(d)
    ensures var s, m := DotSignedText(d), "." + (d.sign + d.digits);
      && Spliced(m, 0) == d.sign + d.digits && FractionLength(m, 0) == |d.digits| + 1
      && (if d.tail.NoTail? then m == s
          else |m| < |s| && s[..|m|] == m && s[|m| + 1..] == d.tail.sign + d.tail.digits)
  {
    var m := "." + (d.sign + d.digits);
    assert m[1..] == d.sign + d.digits;
    if d.tail.Tail? {
      SpliceTail(m, d.tail.letter, d.tail.sign + d.tail.digits);
    }
  }

  lemma DotSignedExponentReads(d: DotSigned)
    requires ValidDotSigned(d)
    ensures var s, e := DotSignedText(d), DotSignedIndex(d);
      e < |s| && "." + (d.sign + d.digits) == (if e == -1 then s else s[..e]) &&
      Exponent(s, e) == (if MIN_INT32 <= TailValue(d.tail) <= MAX_INT32
        then Ok(TailValue(d.tail)) else Err(FractionTooLong))
  {
    hide ParseInt;
    DotSignedParts(d);
    if d.tail.Tail? {
      TailReads(d.tail);
    }
  }

  // Such a text reads as its signed digits, the sign taking one decimal place: ".-5" is -0.05. It
  // is refused exactly when an exponent is out of range.
  lemma DotSignedReads(d: DotSigned)
    requires ValidDotSigned(d)
    ensures if DotSignedInRange(d)
      then Parse(DotSignedText(d)) == Ok(Decimal(SignedValue(d.sign, ReadNat(d.digits)), DotSignedExponent(d)))
      else Parse(DotSignedText(d)).Err?
  {
    hide Scan, SetString, Exponent, DotSignedText, Spliced, FractionLength;
    ScanDotSigned(d);
    DotSignedExponentReads(d);
    DotSignedParts(d);
    ReadSigned(d.sign, d.digits);
  }

  lemma OnlyDotSignedParse(s: string) returns (d: DotSigned)
    requires Parse(s).Ok? && DotBeforeSign(s)
    ensures ValidDotSigned(d) && DotSignedText(d) == s
  {
    hide Parse, SetString, TailText;
    var mantissa, p, tail := ParseParts(s);
    var rest := mantissa[1..];
    assert Spliced(mantissa, 0) == rest;
    var sign, digits := SignedDigits(rest);
    assert mantissa == "." + rest;
    assert rest[0] == s[1];
    d := DotSigned(sign, digits, tail);
  }

  // The parser accepts exactly the numerals within the exponent limits, and the texts with a dot
  // before the sign.
  lemma AcceptsExactly(s: string)
    ensures Parse(s).Ok? <==> IsNumeral(s) || IsDotSigned(s)
  {
    hide Parse, Text, DotSignedText, DotBeforeSign;
    if Parse(s).Ok? {
      if DotBeforeSign(s) {
        var d := OnlyDotSignedParse(s);
        DotSignedReads(d);
      } else {
        var n := OnlyNumeralsParse(s);
        ParseMeaning(n);
      }
    }
    if n :| ValidNumeral(n) && InRange(n) && Text(n) == s {
      ParseMeaning(n);
    }
    if d :| ValidDotSigned(d) && DotSignedInRange(d) && DotSignedText(d) == s {
      DotSignedReads(d);
    }
  }

  // No text is of both kinds: the dot stands before the sign in one kind only.
  lemma KindsApart(s: string)
    ensures IsNumeral(s) ==> !DotBeforeSign(s)
    ensures IsDotSigned(s) ==> DotBeforeSign(s)
  {
    if n :| ValidNumeral(n) && InRange(n) && Text(n) == s {
      NoSignBehindDot(n);
    }
  }

  lemma NoSignBehindDot(n: Numeral)
    requires ValidNumeral(n)
    ensures !DotBeforeSign(Text(n))
  {
  }

  // ------------------------------------------------------------------ the errors of the markers

  predicate SameMarker(a: char, b: char) {
    (a == '.' && b == '.') || (IsE(a) && IsE(b))
  }

  // The second dot, or the second exponent letter, stands at k.
  predicate Repeats(s: string, k: int) {
    0 <= k < |s| && exists j :: 0 <= j < k && SameMarker(s[j], s[k])
  }

  // The scan up to i, with no marker repeated so far.
  predicate Seen(s: string, i: nat, e: int, p: int)
    requires i <= |s|
  {
    && -1 <= e < i && -1 <= p < i
    && (e > -1 ==> IsE(s[e])) && (p > -1 ==> s[p] == '.')
    && (forall j :: 0 <= j < i ==> (IsE(s[j]) ==> j == e) && (s[j] == '.' ==> j == p))
  }

  lemma {:induction false} ScanErrs(s: string, i: nat, e: int, p: int, k: nat)
    requires i <= k < |s| && Seen(s, i, e, p) && Repeats(s, k) && forall j :: 0 <= j < k ==> !Repeats(s, j)
    ensures Scan(s, i, e, p) == Err(if s[k] == '.' then TooManyDots else MultipleE)
    decreases k - i
  {
    var j :| 0 <= j < k && SameMarker(s[j], s[k]);
    if i < k {
      var e', p' := if IsE(s[i]) then i else e, if s[i] == '.' then i else p;
      assert !Repeats(s, i);
      if IsE(s[i]) && e > -1 {
        assert SameMarker(s[e], s[i]);
      }
      if s[i] == '.' && p > -1 {
        assert SameMarker(s[p], s[i]);
      }
      ScanErrs(s, i + 1, e', p', k);
    }
  }

  // The first marker that stands twice decides the error, whatever else is wrong with the text.
  lemma FirstRepeatDecides(s: string, k: nat)
    requires Repeats(s, k) && forall j :: 0 <= j < k ==> !Repeats(s, j)
    ensures Parse(s) == Err(if s[k] == '.' then TooManyDots else MultipleE)
  {
    ScanErrs(s, 0, -1, -1, k);
  }

  lemma {:induction false} PlainScan(s: string, i: nat)
    requires i <= |s| && Plain(s)
    ensures Scan(s, i, -1, -1) == Ok((-1, -1))
    decreases |s| - i
  {
    if i < |s| {
      PlainScan(s, i + 1);
    }
  }

  // A text without a marker is its signed digits, or not a number at all.
  lemma PlainTextReads(s: string)
    requires Plain(s)
    ensures var digits := if s != "" && (s[0] == '+' || s[0] == '-') then s[1..] else s;
      Parse(s) ==
      if digits == "" || !AllDigits(digits) then Err(NotNumeric)
      else Ok(Decimal(if s[0] == '-' then 0 - ReadNat(digits) else ReadNat(digits), 0))
  {
    PlainScan(s, 0);
    hide Scan;
    assert FractionLength(s, -1) == 0;
  }
}
