/** Arithmetic under Python's default decimal context: 28 significant digits, half-even.

    `Round28` rounds a positive quantity to 28 significant digits.  The definition scales the
    quantity by powers of ten into the window where those digits are exactly the integer part. */
module Context28 {
  import opened Decimals

  const LOW := 1_000_000_000_000_000_000_000_000_000.0     // 10^27
  const HIGH := 10_000_000_000_000_000_000_000_000_000.0   // 10^28

  /** Nearest integer, ties to even. */
  function HalfEven(x: real): int {
    var n := x.Floor;
    var rest := x - n as real;
    if rest < 0.5 || (rest == 0.5 && n % 2 == 0) then n else n + 1
  }

  lemma TenthShrinks(x: real)
    requires 0.0 < x < LOW
    ensures (LOW / (10.0 * x)).Floor < (LOW / x).Floor
  {
    var a := LOW / x;
    assert a * x == LOW;
    assert (a - 1.0) * x > 0.0;
    assert LOW / (10.0 * x) == a / 10.0;
  }

  function Round28(x: real): real
    requires x > 0.0
    decreases if LOW <= x < HIGH then 0 else 1, if x < LOW then (LOW / x).Floor else x.Floor
  {
    if x >= HIGH then 10.0 * Round28(x / 10.0)
    else if x < LOW then
      TenthShrinks(x);
      Round28(10.0 * x) / 10.0
    else HalfEven(x) as real
  }

  /** The rounding commutes with moving the decimal point. */
  lemma Round28Shift(x: real)
    requires x > 0.0
    ensures Round28(x / 10.0) == Round28(x) / 10.0
  {
    if x < HIGH {
      assert 10.0 * (x / 10.0) == x;
    }
  }

  /** Half a unit in the 28th digit, as a relative error. */
  lemma {:induction false} Round28Error(x: real)
    requires x > 0.0
    ensures -x <= (Round28(x) - x) * (2.0 * LOW) <= x
    decreases if LOW <= x < HIGH then 0 else 1, if x < LOW then (LOW / x).Floor else x.Floor
  {
    if x >= HIGH {
      Round28Error(x / 10.0);
    } else if x < LOW {
      TenthShrinks(x);
      Round28Error(10.0 * x);
    }
  }

  /** Integers below 10^28 are representable. */
  lemma {:induction false} Round28Integer(m: nat)
    requires 0 < m && m as real < HIGH
    ensures Round28(m as real) == m as real
    decreases HIGH.Floor - m
  {
    if m as real < LOW {
      Round28Integer(10 * m);
      assert (10 * m) as real == 10.0 * m as real;
    }
  }

  /** ... and so are they at any power of ten. */
  lemma {:induction false} Round28Scaled(m: nat, e: int, x: real)
    requires 0 < m && m as real < HIGH && x == m as real * Ten(e) > 0.0
    ensures Round28(x) == x
    decreases if e < 0 then -e else e
  {
    if e == 0 {
      Round28Integer(m);
    } else if e > 0 {
      TimesTen(m as real, Ten(e - 1));
      Round28Scaled(m, e - 1, x / 10.0);
      Round28Shift(x);
    } else {
      TimesTen(m as real, Ten(e));
      Round28Scaled(m, e + 1, 10.0 * x);
      Round28Shift(10.0 * x);
    }
  }

  function Ceiling(x: real): int {
    -(-x).Floor
  }

  /** `steps * step` in the context. */
  function Steps28(steps: int, step: real): real {
    var amount := steps as real * step;
    if amount <= 0.0 then amount else Round28(amount)
  }

  /** `(value / step).to_integral_value(ROUND_FLOOR) * step`, every operation in the context. */
  function FloorStep28(value: real, step: real): real
    requires value > 0.0 && step > 0.0
  {
    Steps28(Round28(value / step).Floor, step)
  }

  /** The same with ROUND_CEILING. */
  function CeilingStep28(value: real, step: real): real
    requires value > 0.0 && step > 0.0
  {
    Steps28(Ceiling(Round28(value / step)), step)
  }

  lemma ScaleBounds(s: real, e: real, q: real)
    requires s > 0.0 && -q <= e * (2.0 * LOW) <= q
    ensures -(s * q) <= (s * e) * (2.0 * LOW) <= s * q
  {
    var f := e * (2.0 * LOW);
    assert s * (q - f) >= 0.0 && s * (q + f) >= 0.0;
    assert s * f == (s * e) * (2.0 * LOW);
  }

  /** The error of a rounded quotient, in units of `1 / step`, is less than a half. */
  lemma QuotientError(v: real, s: real)
    requires 0.0 < v < LOW && 0.0 < s
    ensures v / s > 0.0
    ensures -1.0 < 2.0 * (s * (Round28(v / s) - v / s)) < 1.0
  {
    hide Round28;
    var q := v / s;
    assert q * s == v;
    Round28Error(q);
    ScaleBounds(s, Round28(q) - q, q);
  }

  lemma DivideUp(value: nat, step: nat)
    requires 0 < step
    ensures (value + step - 1) / step == value / step + (if value % step == 0 then 0 else 1)
  {
    var n, rest := value / step, value % step;
    var m := if rest == 0 then n else n + 1;
    var left := value + step - 1 - m * step;
    assert value == n * step + rest;
    assert m * step == n * step + (m - n) * step;
    assert 0 <= left < step;
    var a := value + step - 1;
    UniqueQuotient(step, a / step, a % step, m, left);
  }

  lemma UniqueQuotient(step: int, n: int, rest: int, m: int, left: int)
    requires 0 <= rest < step && 0 <= left < step
    requires n * step + rest == m * step + left
    ensures n == m
  {
    var d := n - m;
    assert d * step == n * step - m * step;
    assert (d - 1) * step == d * step - step;
    assert (d + 1) * step == d * step + step;
    assert d >= 1 ==> (d - 1) * step >= 0;
    assert d <= -1 ==> (d + 1) * step <= 0;
  }

  lemma PositiveFactor(s: real, x: real, product: real)
    requires s > 0.0 && s * x == product > 0.0
    ensures x > 0.0
  {
  }

  /** A value within half of `1 / s` of a fraction strictly between neighbouring integers. */
  lemma StaysBetween(n: int, s: real, rest: real, q: real, r: real)
    requires 1.0 <= rest <= s - 1.0
    requires s * q == s * n as real + rest
    requires -1.0 < 2.0 * (s * (r - q)) < 1.0
    ensures n as real < r < n as real + 1.0
  {
    var m := n as real;
    var off := s * (r - q);
    PositiveFactor(s, r - m, off + rest);
    PositiveFactor(s, m + 1.0 - r, s - (off + rest));
  }

  /** Rounding a quotient of integers below 10^27 moves neither its floor nor its ceiling. */
  lemma QuotientRounding(value: nat, step: nat)
    requires 0 < value && 0 < step && value as real < LOW
    ensures value as real / step as real > 0.0
    ensures Round28(value as real / step as real).Floor == value / step
    ensures Ceiling(Round28(value as real / step as real)) == (value + step - 1) / step
  {
    hide Round28;
    var n, rest := value / step, value % step;
    assert value as real == n as real * step as real + rest as real by {
      assert value == n * step + rest;
    }
    RoundedQuotient(value as real, step as real, n, rest);
    DivideUp(value, step);
  }

  lemma WholeQuotient(v: real, s: real, n: nat)
    requires 0.0 < v < LOW && 1.0 <= s && v == n as real * s
    ensures v / s == n as real && 0 < n && n as real < LOW
  {
    assert s * (v / s - n as real) == 0.0;
    assert n as real * s - n as real == n as real * (s - 1.0) >= 0.0;
  }

  lemma RoundedQuotient(v: real, s: real, n: nat, rest: nat)
    requires 0.0 < v < LOW && 0.0 < s && rest as real <= s - 1.0
    requires v == n as real * s + rest as real
    ensures v / s > 0.0
    ensures rest == 0 ==> Round28(v / s) == n as real
    ensures rest != 0 ==> n as real < Round28(v / s) < n as real + 1.0
  {
    hide Round28;
    QuotientError(v, s);
    if rest == 0 {
      WholeQuotient(v, s, n);
      Round28Integer(n);
    } else {
      StaysBetween(n, s, rest as real, v / s, Round28(v / s));
    }
  }

  lemma FloorMultiple(value: nat, step: nat)
    requires 0 < step
    ensures value / step * step <= value
    ensures 0 < value / step ==> 0 < value / step * step
  {
    assert value == value / step * step + value % step;
    if 0 < value / step {
      assert value / step * step >= step;
    }
  }

  lemma CeilingMultiple(value: nat, step: nat)
    requires 0 < value && 0 < step
    ensures 0 < (value + step - 1) / step * step <= value + step - 1
  {
    FloorMultiple(value + step - 1, step);
    DivideUp(value, step);
    assert value == value / step * step + value % step;
  }

  /** Multiplying a whole number of steps back is exact. */
  lemma WholeSteps(m: nat, step: real, k: nat, e: int, amount: real)
    requires k as real < HIGH && m as real * step == amount == k as real * Ten(e)
    ensures Steps28(m, step) == amount
  {
    if 0 < k {
      Round28Scaled(k, e, amount);
    }
  }

  lemma ScaledProduct(m: nat, s: nat, k: nat, u: real, step: real)
    requires m * s == k && step == s as real * u
    ensures m as real * step == k as real * u
  {
    assert (m * s) as real == m as real * s as real;
    assert m as real * (s as real * u) == (m as real * s as real) * u;
  }

  lemma ScaledQuotient(v: real, s: real, u: real, value: real, step: real)
    requires 0.0 < v && 0.0 < s && 0.0 < u && value == v * u && step == s * u
    ensures value > 0.0 && step > 0.0 && value / step == v / s
  {
    var q := v / s;
    assert q * s == v;
    assert q * (s * u) == v * u;
  }

  /** Normalizing in the context is exact: for positive amounts that are integers below 10^27
      over a common power of ten, rounding down to a step gives the true floor multiple. */
  lemma FloorStepExact(v: nat, s: nat, e: int, value: real, step: real)
    requires 0 < v && 0 < s && v as real < LOW && s as real < LOW
    requires value == v as real * Ten(e) && step == s as real * Ten(e)
    ensures value > 0.0 && step > 0.0
    ensures FloorStep28(value, step) == (v / s * s) as real * Ten(e)
  {
    hide Round28, Ten, Steps28;
    ScaledQuotient(v as real, s as real, Ten(e), value, step);
    QuotientRounding(v, s);
    FloorMultiple(v, s);
    StepsScaled(v / s, s, v / s * s, e, step);
  }

  lemma StepsScaled(m: nat, s: nat, k: nat, e: int, step: real)
    requires m * s == k && k as real < HIGH && step == s as real * Ten(e)
    ensures Steps28(m, step) == k as real * Ten(e)
  {
    hide Round28, Ten;
    ScaledProduct(m, s, k, Ten(e), step);
    WholeSteps(m, step, k, e, k as real * Ten(e));
  }

  /** ... and rounding up gives the true ceiling multiple. */
  lemma CeilingStepExact(v: nat, s: nat, e: int, value: real, step: real)
    requires 0 < v && 0 < s && v as real < LOW && s as real < LOW
    requires value == v as real * Ten(e) && step == s as real * Ten(e)
    ensures value > 0.0 && step > 0.0
    ensures CeilingStep28(value, step) == ((v + s - 1) / s * s) as real * Ten(e)
  {
    hide Round28, Ten, Steps28;
    ScaledQuotient(v as real, s as real, Ten(e), value, step);
    QuotientRounding(v, s);
    CeilingMultiple(v, s);
    StepsScaled((v + s - 1) / s, s, (v + s - 1) / s * s, e, step);
  }

  /** The bound matters: at 29 digits, rounding *down* to whole lots can round up. */
  lemma FloorStepBeyondContext()
    ensures FloorStep28(9_999_999_999_999_999_999_999_999_999.9, 1.0) > 9_999_999_999_999_999_999_999_999_999.9
  {
    var x := 9_999_999_999_999_999_999_999_999_999.9;
    assert x / 1.0 == x && x.Floor == 9_999_999_999_999_999_999_999_999_999;
    assert Round28(x) == HIGH && Round28(LOW) == LOW && Round28(HIGH) == HIGH;
  }
}
