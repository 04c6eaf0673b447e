/** Rounding an amount to a multiple of an exchange step (tick or lot), in exact arithmetic. */
module Grid {
  import opened Decimals
  import Context28

  /** `steps` times the step, as a decimal. */
  function Times(steps: int, step: Dec): Dec {
    Dec(steps * step.coeff, step.exp)
  }

  /** `k` steps of size `t`. */
  function Multiple(k: int, t: real): real {
    k as real * t
  }

  lemma MultipleSteps(k: int, t: real)
    ensures Multiple(k + 1, t) == Multiple(k, t) + t
    ensures Multiple(-k, t) == -Multiple(k, t)
  {
  }

  lemma MultipleOrder(a: int, b: int, t: real)
    requires t > 0.0
    ensures a <= b <==> Multiple(a, t) <= Multiple(b, t)
  {
    assert Multiple(b, t) - Multiple(a, t) == (b - a) as real * t;
  }

  lemma TimesValue(steps: int, step: Dec)
    ensures Value(Times(steps, step)) == Multiple(steps, Value(step))
  {
    hide Ten;
    assert (steps * step.coeff) as real == steps as real * step.coeff as real;
    Associate(steps as real, step.coeff as real, Ten(step.exp));
  }

  lemma Associate(a: real, b: real, c: real)
    ensures (a * b) * c == a * (b * c)
  {
  }

  /** How many whole steps fit. */
  function StepsBelow(x: real, t: real): int
    requires t > 0.0
  {
    (x / t).Floor
  }

  function StepsAbove(x: real, t: real): int
    requires t > 0.0
  {
    -StepsBelow(-x, t)
  }

  lemma ProductSign(a: real, t: real, product: real)
    requires t > 0.0 && a * t == product
    ensures a >= 0.0 <==> product >= 0.0
    ensures a > 0.0 <==> product > 0.0
  {
  }

  lemma StepsBelowBounds(x: real, t: real)
    requires t > 0.0
    ensures Multiple(StepsBelow(x, t), t) <= x < Multiple(StepsBelow(x, t) + 1, t)
  {
    var q := x / t;
    assert q * t == x;
    var m := q.Floor as real;
    MultipleSteps(q.Floor, t);
    ProductSign(q - m, t, x - Multiple(q.Floor, t));
    ProductSign(m + 1.0 - q, t, Multiple(q.Floor, t) + t - x);
  }

  /** No larger multiple of the step fits. */
  lemma StepsBelowGreatest(k: int, x: real, t: real)
    requires t > 0.0 && Multiple(k, t) <= x
    ensures k <= StepsBelow(x, t) && Multiple(k, t) <= Multiple(StepsBelow(x, t), t)
  {
    hide Multiple, StepsBelow;
    StepsBelowBounds(x, t);
    MultipleOrder(StepsBelow(x, t) + 1, k, t);
    MultipleOrder(k, StepsBelow(x, t), t);
  }

  /** `_round_down_to_step`, and `_round_to_tick` for a buy. */
  function RoundDown(x: real, step: Dec): Dec
    requires Positive(step)
  {
    PositiveValue(step);
    Times(StepsBelow(x, Value(step)), step)
  }

  /** `_round_to_tick` for a sell. */
  function RoundUp(x: real, step: Dec): Dec
    requires Positive(step)
  {
    PositiveValue(step);
    Times(StepsAbove(x, Value(step)), step)
  }

  ghost predicate OnGrid(x: real, t: real) {
    exists k: int :: x == Multiple(k, t)
  }

  /** Rounding down yields the greatest multiple of the step not above the amount. */
  lemma RoundDownGreatest(x: real, step: Dec)
    requires Positive(step)
    ensures var r := Value(RoundDown(x, step));
            && OnGrid(r, Value(step))
            && r <= x < r + Value(step)
            && (forall y | OnGrid(y, Value(step)) && y <= x :: y <= r)
  {
    hide Multiple, StepsBelow;
    PositiveValue(step);
    var t := Value(step);
    var m := StepsBelow(x, t);
    TimesValue(m, step);
    StepsBelowBounds(x, t);
    MultipleSteps(m, t);
    forall y | OnGrid(y, t) && y <= x ensures y <= Multiple(m, t) {
      var k: int :| y == Multiple(k, t);
      StepsBelowGreatest(k, x, t);
    }
  }

  /** Rounding up yields the least multiple of the step not below the amount. */
  lemma RoundUpLeast(x: real, step: Dec)
    requires Positive(step)
    ensures var r := Value(RoundUp(x, step));
            && OnGrid(r, Value(step))
            && r - Value(step) < x <= r
            && (forall y | OnGrid(y, Value(step)) && x <= y :: r <= y)
  {
    hide Multiple, StepsBelow, Value;
    PositiveValue(step);
    var t := Value(step);
    var m := StepsBelow(-x, t);
    TimesValue(-m, step);
    StepsBelowBounds(-x, t);
    MultipleSteps(m, t);
    forall y | OnGrid(y, t) && x <= y ensures Multiple(-m, t) <= y {
      var k: int :| y == Multiple(k, t);
      MultipleSteps(k, t);
      StepsBelowGreatest(-k, -x, t);
    }
  }

  /** Zero and one step are on the grid, and nothing in between. */
  lemma FirstTicks(tick: real)
    ensures OnGrid(0.0, tick) && OnGrid(tick, tick)
    ensures tick > 0.0 ==> forall y | OnGrid(y, tick) && y > 0.0 :: y >= tick
  {
    assert Multiple(0, tick) == 0.0 && Multiple(1, tick) == tick;
    hide Multiple;
    if tick > 0.0 {
      forall y | OnGrid(y, tick) && y > 0.0 ensures y >= tick {
        var k: int :| y == Multiple(k, tick);
        MultipleOrder(k, 0, tick);
        MultipleOrder(1, k, tick);
      }
    }
  }

  /** An amount on the grid is left alone. */
  lemma RoundingKeepsGrid(x: real, step: Dec)
    requires Positive(step) && OnGrid(x, Value(step))
    ensures Value(RoundDown(x, step)) == x == Value(RoundUp(x, step))
  {
    RoundDownGreatest(x, step);
    RoundUpLeast(x, step);
  }

  /** The exact arithmetic used from here on is what the 28-digit context computes, for amounts
      and steps that are integers below 10^27 at a common power of ten. */
  lemma ContextAgreesDown(v: nat, s: nat, e: int)
    requires 0 < v && 0 < s && v as real < Context28.LOW && s as real < Context28.LOW
    ensures Value(Dec(v, e)) > 0.0 && Value(Dec(s, e)) > 0.0
    ensures Context28.FloorStep28(Value(Dec(v, e)), Value(Dec(s, e)))
         == Value(RoundDown(Value(Dec(v, e)), Dec(s, e)))
  {
    hide Ten, Context28.FloorStep28, StepsBelow;
    Context28.FloorStepExact(v, s, e, Value(Dec(v, e)), Value(Dec(s, e)));
    ExactSteps(v, s, e);
  }

  lemma ContextAgreesUp(v: nat, s: nat, e: int)
    requires 0 < v && 0 < s && v as real < Context28.LOW && s as real < Context28.LOW
    ensures Value(Dec(v, e)) > 0.0 && Value(Dec(s, e)) > 0.0
    ensures Context28.CeilingStep28(Value(Dec(v, e)), Value(Dec(s, e)))
         == Value(RoundUp(Value(Dec(v, e)), Dec(s, e)))
  {
    hide Ten, Context28.CeilingStep28, StepsAbove;
    Context28.CeilingStepExact(v, s, e, Value(Dec(v, e)), Value(Dec(s, e)));
    ExactSteps(v, s, e);
  }

  lemma ExactSteps(v: nat, s: nat, e: int)
    requires 0 < s
    ensures Value(Dec(s, e)) > 0.0
    ensures StepsBelow(Value(Dec(v, e)), Value(Dec(s, e))) == v / s
    ensures StepsAbove(Value(Dec(v, e)), Value(Dec(s, e))) == (v + s - 1) / s
  {
    hide Ten, StepsBelow, StepsAbove;
    PositiveValue(Dec(s, e));
    Context28.DivideUp(v, s);
    IntegerSteps(v, s, v / s, v % s, Ten(e), Value(Dec(v, e)), Value(Dec(s, e)));
  }

  lemma IntegerSteps(v: nat, s: nat, n: nat, rest: nat, u: real, x: real, t: real)
    requires 0 < s && u > 0.0 && v == n * s + rest && rest < s
    requires x == v as real * u && t == s as real * u > 0.0
    ensures StepsBelow(x, t) == n
    ensures StepsAbove(x, t) == if rest == 0 then n else n + 1
  {
    hide StepsBelow;
    var r := rest as real * u;
    assert x == Multiple(n, t) + r by {
      assert (n * s) as real == n as real * s as real;
      Associate(n as real, s as real, u);
    }
    assert 0.0 <= r < t by {
      assert (s as real - rest as real) * u > 0.0;
    }
    FloorIs(x, t, n, r);
    var m: int := if rest == 0 then n else n + 1;
    MultipleSteps(n, t);
    MultipleSteps(m, t);
    FloorIs(-x, t, -m, if rest == 0 then 0.0 else t - r);
  }

  lemma FloorIs(x: real, t: real, m: int, rest: real)
    requires t > 0.0 && 0.0 <= rest < t && x == Multiple(m, t) + rest
    ensures StepsBelow(x, t) == m
  {
    hide Multiple, StepsBelow;
    StepsBelowGreatest(m, x, t);
    StepsBelowBounds(x, t);
    MultipleSteps(m, t);
    MultipleOrder(m + 1, StepsBelow(x, t), t);
  }
}
