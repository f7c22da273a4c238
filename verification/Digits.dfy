/** Strings of decimal digits: reading them, writing them, and how the two fit together. */
module Digits {
  import opened Powers

  predicate IsDigit(c: char) {
    '0' <= c <= '9'
  }

  predicate AllDigits(s: string) {
    forall i :: 0 <= i < |s| ==> IsDigit(s[i])
  }

  function DigitOf(c: char): nat
    requires IsDigit(c)
  {
    c as int - '0' as int
  }

  function CharOf(n: nat): (c: char)
    requires n < 10
    ensures IsDigit(c) && DigitOf(c) == n
  {
    (n + '0' as int) as char
  }

  // The place-value reading of a digit string; the empty string reads as zero.
  function ReadNat(s: string): nat
    requires AllDigits(s)
  {
    if s == [] then 0 else 10 * ReadNat(s[..|s| - 1]) + DigitOf(s[|s| - 1])
  }

  // The digits of a natural number, as big.Int.String writes them.
  function NatString(n: nat): (s: string)
    ensures |s| >= 1 && AllDigits(s)
  {
    if n < 10 then [CharOf(n)] else NatString(n / 10) + [CharOf(n % 10)]
  }

  function Zeros(k: nat): (s: string)
    ensures |s| == k && AllDigits(s)
  {
    seq(k, _ => '0')
  }

  lemma {:induction false} ReadNatString(n: nat)
    ensures ReadNat(NatString(n)) == n
  {
    if n >= 10 {
      ReadNatString(n / 10);
      assert NatString(n)[..|NatString(n)| - 1] == NatString(n / 10);
    }
  }

  // Only zero is written with a leading '0'.
  lemma {:induction false} NoLeadingZero(n: nat)
    ensures n > 0 ==> NatString(n)[0] != '0'
    ensures n == 0 ==> NatString(n) == "0"
  {
    if n >= 10 {
      NoLeadingZero(n / 10);
    }
  }

  // A number of k digits lies between the powers of ten k - 1 and k.
  lemma {:induction false} NatStringSize(n: nat)
    ensures n < Pow10(|NatString(n)|)
    ensures n > 0 ==> Pow10(|NatString(n)| - 1) <= n
  {
    if n >= 10 {
      NatStringSize(n / 10);
    }
  }

  lemma {:induction false} ReadNatConcat(s: string, t: string)
    requires AllDigits(s) && AllDigits(t)
    ensures AllDigits(s + t)
    ensures ReadNat(s + t) == ReadNat(s) * Pow10(|t|) + ReadNat(t)
  {
    if t == [] {
      assert s + t == s;
    } else {
      var front := t[..|t| - 1];
      ReadNatConcat(s, front);
      assert (s + t)[..|s + t| - 1] == s + front;
      assert Pow10(|t|) == 10 * Pow10(|front|);
      assert ReadNat(s) * Pow10(|t|) == 10 * (ReadNat(s) * Pow10(|front|));
    }
  }

  lemma {:induction false} ReadZeros(k: nat)
    ensures ReadNat(Zeros(k)) == 0
  {
    if k > 0 {
      ReadZeros(k - 1);
      assert Zeros(k)[..k - 1] == Zeros(k - 1);
    }
  }

  // Leading zeros add nothing.
  lemma ReadLeadingZeros(k: nat, s: string)
    requires AllDigits(s)
    ensures AllDigits(Zeros(k) + s)
    ensures ReadNat(Zeros(k) + s) == ReadNat(s)
  {
    ReadNatConcat(Zeros(k), s);
    ReadZeros(k);
  }

  lemma {:induction false} ReadNatBound(s: string)
    requires AllDigits(s)
    ensures ReadNat(s) < Pow10(|s|)
  {
    if s != [] {
      ReadNatBound(s[..|s| - 1]);
    }
  }

  // Writing a multiple of ten appends a zero to the digits of the tenth part.
  lemma TimesTen(m: nat)
    requires m > 0
    ensures NatString(10 * m) == NatString(m) + "0"
  {
    assert (10 * m) / 10 == m && (10 * m) % 10 == 0;
    assert [CharOf(0)] == "0";
  }

  lemma LastDigit(n: nat)
    ensures DigitOf(NatString(n)[|NatString(n)| - 1]) == n % 10
    ensures NatString(n)[|NatString(n)| - 1] == '0' <==> n % 10 == 0
  {
  }

  // The string without its trailing zeros.
  function TrimRight(s: string): (t: string)
    ensures t <= s
  {
    if s != [] && s[|s| - 1] == '0' then TrimRight(s[..|s| - 1]) else s
  }

  lemma {:induction false} TrimSplits(s: string)
    ensures s == TrimRight(s) + Zeros(|s| - |TrimRight(s)|)
    ensures TrimRight(s) == [] || TrimRight(s)[|TrimRight(s)| - 1] != '0'
  {
    if s != [] && s[|s| - 1] == '0' {
      var front := s[..|s| - 1];
      TrimSplits(front);
      assert s == front + "0";
      assert TrimRight(s) == TrimRight(front);
      assert Zeros(|s| - |TrimRight(s)|) == Zeros(|front| - |TrimRight(front)|) + "0";
    } else {
      assert Zeros(0) == [];
    }
  }
}
