/** Small arithmetic that several modules share. */
module Numbers {

  function Abs(x: int): nat { if x < 0 then -x else x }

  function Min(x: int, y: int): int { if x < y then x else y }

  function Power(base: nat, n: nat): nat { if n == 0 then 1 else base * Power(base, n - 1) }

  function Pow10(k: nat): (p: nat)
    ensures p >= 1
    ensures k >= 1 ==> p >= 10
  {
    PowerPositive(10, k);
    PowerPositive(10, if k == 0 then 0 else k - 1);
    Power(10, k)
  }

  lemma {:induction false} PowerPositive(base: nat, n: nat)
    requires base >= 1
    ensures Power(base, n) >= 1
  {
    if n > 0 {
      PowerPositive(base, n - 1);
    }
  }

  lemma {:induction false} PowerAdds(base: nat, a: nat, b: nat)
    ensures Power(base, a + b) == Power(base, a) * Power(base, b)
  {
    if a > 0 {
      PowerAdds(base, a - 1, b);
      assert base * (Power(base, a - 1) * Power(base, b)) == (base * Power(base, a - 1)) * Power(base, b);
    }
  }

  lemma QuotientIsNatural(n: nat, d: nat)
    requires d > 0
    ensures n / d >= 0
  {
  }
}
