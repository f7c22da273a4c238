/** Powers of ten, over the naturals and over the rationals. */
module Powers {
  function Pow10(n: nat): (p: nat)
    ensures p >= 1
  {
    if n == 0 then 1 else 10 * Pow10(n - 1)
  }

  lemma {:induction false} Pow10Add(m: nat, n: nat)
    ensures Pow10(m + n) == Pow10(m) * Pow10(n)
  {
    if m == 0 {
    } else {
      Pow10Add(m - 1, n);
    }
  }

  lemma {:induction false} Pow10Monotone(m: nat, n: nat)
    requires m <= n
    ensures Pow10(m) <= Pow10(n)
    ensures m < n ==> 10 * Pow10(m) <= Pow10(n)
  {
    if m < n {
      Pow10Monotone(m, n - 1);
    }
  }

  // Ten to any integer power, as a rational.
  ghost function Scale(e: int): (r: real)
    ensures r > 0.0
    decreases if e < 0 then -e else e
  {
    if e == 0 then 1.0 else if e > 0 then 10.0 * Scale(e - 1) else Scale(e + 1) / 10.0
  }

  lemma ScaleNext(e: int)
    ensures Scale(e + 1) == 10.0 * Scale(e)
  {
  }

  lemma TenTimes(p: nat, r: real)
    ensures (10 * p) as real * r == 10.0 * (p as real * r)
  {
    assert (10 * p) as real == 10.0 * p as real;
  }

  lemma {:induction false} ScaleAdd(e: int, k: nat)
    ensures Scale(e + k) == Pow10(k) as real * Scale(e)
    decreases k
  {
    if k == 0 {
    } else {
      ScaleAdd(e, k - 1);
      ScaleNext(e + k - 1);
      TenTimes(Pow10(k - 1), Scale(e));
    }
  }
}
