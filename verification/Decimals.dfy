/** Finite decimals: an integer coefficient and a power of ten, as Python's `Decimal` keeps them. */
module Decimals {

  /** 10^e for any integer e. */
  function Ten(e: int): (p: real)
    ensures p > 0.0
    decreases if e < 0 then -e else e
  {
    if e == 0 then 1.0
    else if e > 0 then 10.0 * Ten(e - 1)
    else Ten(e + 1) / 10.0
  }

  lemma TenStep(e: int)
    ensures Ten(e + 1) == 10.0 * Ten(e)
  {
  }

  /** 10^n for a natural n, as an integer. */
  function Pow10(n: nat): (p: nat)
    ensures p > 0
  {
    if n == 0 then 1 else 10 * Pow10(n - 1)
  }

  lemma TimesTen(a: real, p: real)
    ensures a * (10.0 * p) == 10.0 * (a * p) == (10.0 * a) * p
  {
  }

  lemma {:induction false} TenSplit(e: int, n: nat)
    ensures Ten(e + n) == Pow10(n) as real * Ten(e)
  {
    if n > 0 {
      TenSplit(e, n - 1);
      TenStep(e + n - 1);
      hide Ten;
      TimesTen(Pow10(n - 1) as real, Ten(e));
    }
  }

  datatype Dec = Dec(coeff: int, exp: int)

  function Value(d: Dec): real {
    d.coeff as real * Ten(d.exp)
  }

  const ZERO := Dec(0, 0)

  predicate Positive(d: Dec) {
    d.coeff > 0
  }

  lemma PositiveValue(d: Dec)
    ensures Positive(d) <==> Value(d) > 0.0
    ensures d.coeff >= 0 <==> Value(d) >= 0.0
  {
  }
}
