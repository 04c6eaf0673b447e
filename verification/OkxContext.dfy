/** Sizing and pricing an order in Python's 28-digit decimal context: within stated digit bounds, every
    rounded intermediate result leads to the very size and price of exact arithmetic. */
module OkxContext {
  import opened Wrappers
  import opened Decimals
  import opened Context28
  import opened Grid
  import opened OrderRequests
  import opened OkxOrders
  import opened OkxBracket

  // ----- two quotients in a row -----------------------------------------------------------

  lemma ScaleError(d: real, lot: real, q: real, c: real, e: real)
    requires lot > 0.0 && q * lot == c && d * lot == e && -c <= e * (2.0 * LOW) <= c
    ensures -q <= d * (2.0 * LOW) <= q
  {
    var k := d * (2.0 * LOW);
    assert k * lot == e * (2.0 * LOW);
    assert (q - k) * lot >= 0.0 && (q + k) * lot >= 0.0;
  }

  /** Rounding a quotient, dividing again and rounding again is off by at most three half units in
      the 28th digit. */
  lemma TwoQuotients(c: real, lot: real)
    requires c > 0.0 && lot > 0.0
    ensures c / lot > 0.0 && Round28(c) > 0.0 && Round28(c) / lot > 0.0
    ensures -3.0 * (c / lot) <= (Round28(Round28(c) / lot) - c / lot) * (2.0 * LOW) <= 3.0 * (c / lot)
  {
    hide Round28;
    Round28Error(c);
    var q, e := c / lot, Round28(c) - c;
    assert q * lot == c;
    PositiveFactor(lot, q, c);
    var p := Round28(c) / lot;
    assert p * lot == Round28(c);
    assert (p - q) * lot == e;
    ScaleError(p - q, lot, q, c, e);
    assert p > 0.0;
    Round28Error(p);
  }

  /** ... so it stays between the same integers, if the exact quotient is a fraction `A / B` with a
      numerator of at most 27 digits that is no integer. */
  lemma FractionStays(a: nat, b: nat, q: real, r: real)
    requires 0 < a && 0 < b && 3 * a < LOW.Floor && a % b != 0
    requires q * b as real == a as real
    requires -3.0 * q <= (r - q) * (2.0 * LOW) <= 3.0 * q
    ensures r.Floor == a / b
  {
    var n, rest := a / b, a % b;
    assert a == n * b + rest;
    assert a as real == n as real * b as real + rest as real;
    var s := b as real;
    assert s * q == s * n as real + rest as real;
    ScaledBound(s, q, r, a as real);
    StaysBetween(n, s, rest as real, q, r);
  }

  lemma ScaledBound(s: real, q: real, r: real, a: real)
    requires s > 0.0 && q * s == a && 0.0 < a && 3.0 * a < LOW
    requires -3.0 * q <= (r - q) * (2.0 * LOW) <= 3.0 * q
    ensures -1.0 < 2.0 * (s * (r - q)) < 1.0
  {
    var x := s * (r - q);
    assert (s * (r - q)) * (2.0 * LOW) == s * ((r - q) * (2.0 * LOW));
    var y := (r - q) * (2.0 * LOW);
    assert s * (3.0 * q - y) >= 0.0 && s * (3.0 * q + y) >= 0.0;
    assert s * (3.0 * q) == 3.0 * a;
    assert -3.0 * a <= x * (2.0 * LOW) <= 3.0 * a;
  }

  /** The steps of `lot` that fit into the amount `c`, both quotients rounded, are the exact ones. */
  lemma TwoStepFloor(a: nat, b: nat, l: nat, e: int, c: real, lot: real)
    requires 0 < a && 0 < b && 0 < l && c > 0.0 && lot == l as real * Ten(e) > 0.0
    requires c / lot * b as real == a as real
    requires 3 * a < LOW.Floor && (a / b * l) as real < HIGH
    ensures Round28(c) > 0.0 && Round28(c) / lot > 0.0
    ensures Round28(Round28(c) / lot).Floor == a / b
  {
    hide Round28, Ten;
    TwoQuotients(c, lot);
    if a % b != 0 {
      FractionStays(a, b, c / lot, Round28(Round28(c) / lot));
    } else {
      var m := a / b;
      assert a == m * b;
      WholeLots(a, b, m, c / lot);
      assert c == m as real * lot;
      ScaledProduct(m, l, m * l, Ten(e), lot);
      Round28Scaled(m * l, e, c);
      Round28Integer(m);
    }
  }

  lemma WholeLots(a: nat, b: nat, m: nat, q: real)
    requires 0 < a && 0 < b && a == m * b && q * b as real == a as real && 3 * a < LOW.Floor
    ensures q == m as real && 0 < m && m as real < HIGH
  {
    assert a as real == m as real * b as real;
    assert (q - m as real) * b as real == 0.0;
    assert m <= a by {
      assert m * (b - 1) >= 0;
    }
  }

  // ----- powers of ten --------------------------------------------------------------------

  lemma TenZero()
    ensures Ten(0) == 1.0
  {
  }

  lemma TenAdd(e: int, f: int)
    ensures Ten(e + f) == Ten(e) * Ten(f)
  {
    hide Ten, Pow10;
    TenZero();
    if f >= 0 {
      TenSplit(e, f);
      TenSplit(0, f);
      assert 0 + f == f;
      Commute(Pow10(f) as real, Ten(e));
    } else {
      TenSplit(e + f, -f);
      TenSplit(f, -f);
      assert e + f + -f == e && f + -f == 0;
      CancelInverse(Pow10(-f) as real, Ten(e + f), Ten(f));
    }
  }

  lemma Commute(a: real, b: real)
    ensures a * b == b * a && a * 1.0 == a
  {
  }

  lemma CancelInverse(p: real, x: real, y: real)
    requires p * y == 1.0
    ensures (p * x) * y == x
  {
    assert (p * x) * y == x * (p * y);
  }

  /** The product of two decimals. */
  function Product(a: Dec, b: Dec): Dec {
    Dec(a.coeff * b.coeff, a.exp + b.exp)
  }

  lemma ProductValue(a: Dec, b: Dec)
    ensures Value(Product(a, b)) == Value(a) * Value(b)
  {
    TenAdd(a.exp, b.exp);
    hide Ten;
    Regroup(a.coeff as real, Ten(a.exp), b.coeff as real, Ten(b.exp));
    assert (a.coeff * b.coeff) as real == a.coeff as real * b.coeff as real;
  }

  lemma Regroup(a: real, s: real, b: real, t: real)
    ensures (a * s) * (b * t) == (a * b) * (s * t)
  {
    Associate(a, s, b * t);
    Associate(s, b, t);
    assert s * (b * t) == b * (s * t);
    Associate(a, b, s * t);
  }

  /** The coefficient of the same value at a lower exponent. */
  function At(d: Dec, e: int): int
    requires e <= d.exp
  {
    d.coeff * Pow10(d.exp - e)
  }

  lemma AtValue(d: Dec, e: int)
    requires e <= d.exp
    ensures Value(Dec(At(d, e), e)) == Value(d)
    ensures d.coeff > 0 ==> At(d, e) > 0
  {
    TenSplit(e, d.exp - e);
    hide Ten;
    var p := Pow10(d.exp - e);
    assert (d.coeff * p) as real == d.coeff as real * p as real;
    Associate(d.coeff as real, p as real, Ten(e));
    assert d.coeff > 0 ==> d.coeff * p > 0;
  }

  // ----- rounding to a step ---------------------------------------------------------------

  function Lower(a: Dec, b: Dec): int {
    if a.exp < b.exp then a.exp else b.exp
  }

  /** Amount and step have at most 27 digits at their common exponent. */
  predicate Fit27(x: Dec, step: Dec) {
    && x.coeff > 0 && step.coeff > 0
    && At(x, Lower(x, step)) < LOW.Floor && At(step, Lower(x, step)) < LOW.Floor
  }

  lemma SameStep(x: real, s: Dec, t: Dec)
    requires Positive(s) && Positive(t) && Value(s) == Value(t)
    ensures Value(RoundDown(x, s)) == Value(RoundDown(x, t)) && Value(RoundUp(x, s)) == Value(RoundUp(x, t))
  {
    hide Value, StepsBelow, StepsAbove;
    PositiveValue(s);
    TimesValue(StepsBelow(x, Value(s)), s);
    TimesValue(StepsBelow(x, Value(s)), t);
    TimesValue(StepsAbove(x, Value(s)), s);
    TimesValue(StepsAbove(x, Value(s)), t);
  }

  /** Rounding a decimal to a step in the context is exact, whatever their exponents. */
  lemma StepInContext(x: Dec, step: Dec)
    requires Fit27(x, step)
    ensures Value(x) > 0.0 && Value(step) > 0.0
    ensures FloorStep28(Value(x), Value(step)) == Value(RoundDown(Value(x), step))
    ensures CeilingStep28(Value(x), Value(step)) == Value(RoundUp(Value(x), step))
  {
    hide Value, RoundDown, RoundUp, FloorStep28, CeilingStep28;
    var e := Lower(x, step);
    AtValue(x, e);
    AtValue(step, e);
    var v, s := At(x, e), At(step, e);
    ContextAgreesDown(v, s, e);
    ContextAgreesUp(v, s, e);
    SameStep(Value(x), Dec(s, e), step);
  }

  // ----- the size of an order -------------------------------------------------------------

  /** `_contracts_from_notional`, every operation in the context. */
  function Contracts28(notional: real, price: real, contractValue: real): real
    requires notional > 0.0 && price > 0.0 && contractValue > 0.0
    ensures Contracts28(notional, price, contractValue) > 0.0
  {
    hide Round28;
    var unit := price * contractValue;
    assert unit > 0.0;
    PositiveRounding(unit);
    var q := notional / Round28(unit);
    assert q * Round28(unit) == notional;
    PositiveFactor(Round28(unit), q, notional);
    PositiveRounding(q);
    Round28(q)
  }

  lemma PositiveRounding(x: real)
    requires x > 0.0
    ensures Round28(x) > 0.0
  {
    hide Round28;
    Round28Error(x);
  }

  /** `_normalized_size` of a notional, every operation in the context. */
  function Size28(notional: real, price: real, contractValue: real, lot: real): real
    requires notional > 0.0 && price > 0.0 && contractValue > 0.0 && lot > 0.0
  {
    FloorStep28(Contracts28(notional, price, contractValue), lot)
  }

  /** The exact number of lots as a fraction of integers. */
  function Shift(notional: Dec, price: Dec, contractValue: Dec, lot: Dec): int {
    notional.exp - (price.exp + contractValue.exp + lot.exp)
  }

  function Over(notional: Dec, price: Dec, contractValue: Dec, lot: Dec): int {
    var k := Shift(notional, price, contractValue, lot);
    if k >= 0 then notional.coeff * Pow10(k) else notional.coeff
  }

  function Under(notional: Dec, price: Dec, contractValue: Dec, lot: Dec): int {
    var k := Shift(notional, price, contractValue, lot);
    var coeff := price.coeff * contractValue.coeff * lot.coeff;
    if k >= 0 then coeff else coeff * Pow10(-k)
  }

  predicate AllPositive(notional: Dec, price: Dec, contractValue: Dec, lot: Dec) {
    notional.coeff > 0 && price.coeff > 0 && contractValue.coeff > 0 && lot.coeff > 0
  }

  lemma UnderPositive(notional: Dec, price: Dec, contractValue: Dec, lot: Dec)
    requires AllPositive(notional, price, contractValue, lot)
    ensures Over(notional, price, contractValue, lot) > 0 && Under(notional, price, contractValue, lot) > 0
  {
    var unit := price.coeff * contractValue.coeff;
    assert unit > 0;
    var coeff := unit * lot.coeff;
    assert coeff > 0;
    var k := Shift(notional, price, contractValue, lot);
    if k >= 0 {
      assert notional.coeff * Pow10(k) > 0;
    } else {
      assert coeff * Pow10(-k) > 0;
    }
  }

  /** The digits that are needed: the value of a contract has at most 28, three times the numerator
      of the number of lots at most 27, and the size at most 28. */
  predicate SizeFits(notional: Dec, price: Dec, contractValue: Dec, lot: Dec) {
    && AllPositive(notional, price, contractValue, lot)
    && price.coeff * contractValue.coeff < HIGH.Floor
    && Under(notional, price, contractValue, lot) > 0
    && 3 * Over(notional, price, contractValue, lot) < LOW.Floor
    && Over(notional, price, contractValue, lot) / Under(notional, price, contractValue, lot) * lot.coeff < HIGH.Floor
  }

  /** The fraction is the number of lots. */
  lemma LotsFraction(notional: Dec, price: Dec, contractValue: Dec, lot: Dec, q: real)
    requires AllPositive(notional, price, contractValue, lot)
    requires q * Value(lot) * (Value(price) * Value(contractValue)) == Value(notional)
    ensures q * Under(notional, price, contractValue, lot) as real == Over(notional, price, contractValue, lot) as real
  {
    hide Value, Ten;
    var unit := Product(price, contractValue);
    var all := Product(unit, lot);
    ProductValue(price, contractValue);
    ProductValue(unit, lot);
    assert q * Value(all) == Value(notional) by {
      Associate(q, Value(lot), Value(unit));
    }
    FractionOf(q, notional, all);
  }

  lemma FractionOf(q: real, n: Dec, d: Dec)
    requires q * Value(d) == Value(n)
    ensures n.exp >= d.exp ==> q * d.coeff as real == (n.coeff * Pow10(n.exp - d.exp)) as real
    ensures n.exp < d.exp ==> q * (d.coeff * Pow10(d.exp - n.exp)) as real == n.coeff as real
  {
    if n.exp >= d.exp {
      AtValue(n, d.exp);
      hide Ten;
      Associate(q, d.coeff as real, Ten(d.exp));
      Cancel(q * d.coeff as real, At(n, d.exp) as real, Ten(d.exp));
    } else {
      AtValue(d, n.exp);
      hide Ten;
      Associate(q, At(d, n.exp) as real, Ten(n.exp));
      Cancel(q * At(d, n.exp) as real, n.coeff as real, Ten(n.exp));
    }
  }

  lemma Cancel(x: real, y: real, u: real)
    requires u > 0.0 && x * u == y * u
    ensures x == y
  {
    assert (x - y) * u == 0.0;
  }

  lemma FloorOfFraction(a: nat, b: nat, q: real)
    requires b > 0 && q * b as real == a as real
    ensures q.Floor == a / b
  {
    var n, rest := a / b, a % b;
    assert a == n * b + rest;
    assert a as real == n as real * b as real + rest as real;
    ProductSign(q - n as real, b as real, rest as real);
    assert (n as real + 1.0 - q) * b as real == b as real - rest as real;
    ProductSign(n as real + 1.0 - q, b as real, b as real - rest as real);
  }

  /** The size of a notional computed in the context is the exact size: the greatest number of whole
      lots the notional buys. */
  lemma SizeInContext(notional: Dec, price: Dec, contractValue: Dec, lot: Dec, contracts: real)
    requires SizeFits(notional, price, contractValue, lot)
    requires contracts * (Value(price) * Value(contractValue)) == Value(notional)
    ensures Value(notional) > 0.0 && Value(price) > 0.0 && Value(contractValue) > 0.0 && Value(lot) > 0.0
    ensures Size28(Value(notional), Value(price), Value(contractValue), Value(lot)) == Value(RoundDown(contracts, lot))
  {
    hide Value, Ten, Round28, Over, Under;
    PositiveValue(notional);
    PositiveValue(price);
    PositiveValue(contractValue);
    PositiveValue(lot);
    PositiveProduct(price, contractValue);
    ProductValue(price, contractValue);
    UnderPositive(notional, price, contractValue, lot);
    var unit := Product(price, contractValue);
    ExactDecimal(unit);
    var c := Value(notional) / Value(unit);
    assert c * Value(unit) == Value(notional);
    PositiveFactor(Value(unit), c, Value(notional));
    Cancel(c, contracts, Value(unit));
    var q := c / Value(lot);
    assert q * Value(lot) == c;
    LotsFraction(notional, price, contractValue, lot, q);
    var a, b := Over(notional, price, contractValue, lot), Under(notional, price, contractValue, lot);
    ValueOf(lot);
    TwoStepFloor(a, b, lot.coeff, lot.exp, c, Value(lot));
    FloorOfFraction(a, b, q);
    TimesValue(a / b, lot);
    StepsExact(a / b, lot);
  }

  lemma ValueOf(d: Dec)
    ensures Value(d) == d.coeff as real * Ten(d.exp)
  {
  }

  lemma ExactDecimal(d: Dec)
    requires 0 < d.coeff < HIGH.Floor && Value(d) > 0.0
    ensures Round28(Value(d)) == Value(d)
  {
    hide Round28, Ten;
    Round28Scaled(d.coeff, d.exp, Value(d));
  }

  lemma StepsExact(m: nat, lot: Dec)
    requires Positive(lot) && m * lot.coeff < HIGH.Floor
    ensures Steps28(m, Value(lot)) == Multiple(m, Value(lot))
  {
    hide Round28, Ten;
    ScaledProduct(m, lot.coeff, m * lot.coeff, Ten(lot.exp), Value(lot));
    WholeSteps(m, Value(lot), m * lot.coeff, lot.exp, Multiple(m, Value(lot)));
  }

  // ----- the price of an order ------------------------------------------------------------

  /** Rounding to the context, for either sign. */
  function Signed28(x: real): real {
    if x > 0.0 then Round28(x) else if x < 0.0 then -Round28(-x) else 0.0
  }

  lemma SignedExact(d: Dec)
    requires -HIGH.Floor < d.coeff < HIGH.Floor
    ensures Signed28(Value(d)) == Value(d)
  {
    hide Ten, Round28;
    PositiveValue(d);
    var minus := Dec(-d.coeff, d.exp);
    assert Value(minus) == -Value(d);
    PositiveValue(minus);
    if d.coeff > 0 {
      ExactDecimal(d);
    } else if d.coeff < 0 {
      ExactDecimal(minus);
    }
  }

  function Multiplier28(bps: real, buy: bool): real {
    Signed28(if buy then 1.0 + Signed28(bps / 10000.0) else 1.0 - Signed28(bps / 10000.0))
  }

  /** `_bounded_market_limit_price`, every operation in the context. */
  function Cap28(ref: real, bps: real, buy: bool): real {
    Signed28(Slipped(ref, Multiplier28(bps, buy)))
  }

  /** 1 + slip, or 1 - slip, as a decimal. */
  function Multiplier(bps: Dec, buy: bool): Dec {
    var slip := if buy then bps.coeff else -bps.coeff;
    var e := bps.exp - 4;
    if e >= 0 then Dec(1 + slip * Pow10(e), 0) else Dec(Pow10(-e) + slip, e)
  }

  lemma MultiplierValue(bps: Dec, buy: bool)
    ensures Value(Multiplier(bps, buy))
         == if buy then 1.0 + Value(bps) / 10000.0 else 1.0 - Value(bps) / 10000.0
    ensures Value(Dec(bps.coeff, bps.exp - 4)) == Value(bps) / 10000.0
  {
    var e := bps.exp - 4;
    var slip := Dec(if buy then bps.coeff else -bps.coeff, e);
    TenThousandth(bps);
    SlipValue(bps, buy);
    OneAt(e);
    if e >= 0 {
      AtValue(slip, 0);
      AddCoefficients(1, At(slip, 0), 0);
    } else {
      AddCoefficients(Pow10(-e), slip.coeff, e);
    }
    hide Ten;
  }

  lemma AddCoefficients(a: int, b: int, e: int)
    ensures Value(Dec(a + b, e)) == Value(Dec(a, e)) + Value(Dec(b, e))
  {
    hide Ten;
    assert (a + b) as real == a as real + b as real;
  }

  lemma OneAt(e: int)
    ensures Value(Dec(1, 0)) == 1.0
    ensures e < 0 ==> Value(Dec(Pow10(-e), e)) == 1.0
  {
    assert Ten(0) == 1.0;
    if e < 0 {
      TenSplit(e, -e);
    }
    hide Ten, Pow10;
  }

  lemma TenThousandth(d: Dec)
    ensures Value(Dec(d.coeff, d.exp - 4)) == Value(d) / 10000.0
  {
    TenSplit(d.exp - 4, 4);
    assert Pow10(4) == 10000;
    hide Ten, Pow10;
    var u := Ten(d.exp - 4);
    assert d.coeff as real * (10000.0 * u) == 10000.0 * (d.coeff as real * u);
  }

  lemma SlipValue(bps: Dec, buy: bool)
    ensures Value(Dec(if buy then bps.coeff else -bps.coeff, bps.exp - 4))
         == if buy then Value(Dec(bps.coeff, bps.exp - 4)) else -Value(Dec(bps.coeff, bps.exp - 4))
  {
    hide Ten;
  }

  /** The cap as a decimal. */
  function CapDecimal(ref: Dec, bps: Dec, buy: bool): Dec {
    Product(ref, Multiplier(bps, buy))
  }

  /** Bps, multiplier and cap have at most 28 digits. */
  predicate CapFits(ref: Dec, bps: Dec, buy: bool) {
    && 0 < bps.coeff < HIGH.Floor
    && -HIGH.Floor < Multiplier(bps, buy).coeff < HIGH.Floor
    && -HIGH.Floor < CapDecimal(ref, bps, buy).coeff < HIGH.Floor
  }

  /** The slippage cap computed in the context is the exact cap. */
  lemma CapInContext(ref: Dec, bps: Dec, buy: bool)
    requires CapFits(ref, bps, buy)
    ensures Cap28(Value(ref), Value(bps), buy) == Value(CapDecimal(ref, bps, buy))
    ensures Value(CapDecimal(ref, bps, buy))
         == Slipped(Value(ref), if buy then 1.0 + Value(bps) / 10000.0 else 1.0 - Value(bps) / 10000.0)
  {
    hide Value, Signed28, Multiplier, Product;
    MultiplierValue(bps, buy);
    SignedExact(Dec(bps.coeff, bps.exp - 4));
    SignedExact(Multiplier(bps, buy));
    SignedExact(CapDecimal(ref, bps, buy));
    ProductValue(ref, Multiplier(bps, buy));
    CapSteps(Value(ref), Value(bps), buy, Value(Multiplier(bps, buy)), Value(CapDecimal(ref, bps, buy)));
  }

  lemma CapSteps(ref: real, bps: real, buy: bool, multiplier: real, cap: real)
    requires multiplier == if buy then 1.0 + bps / 10000.0 else 1.0 - bps / 10000.0
    requires cap == Slipped(ref, multiplier)
    requires Signed28(bps / 10000.0) == bps / 10000.0 && Signed28(multiplier) == multiplier && Signed28(cap) == cap
    ensures Cap28(ref, bps, buy) == cap
  {
    hide Signed28, Slipped;
    assert Multiplier28(bps, buy) == multiplier;
  }

  // ----- whole orders ---------------------------------------------------------------------

  /** The size of an order by quantity, as the program computes it, is the size sent. */
  lemma QuantityInContext(r: Request, rules: Rules, sha: string -> string)
    requires RulesOk(rules) && OrderParams(r, rules, sha).Ok?
    requires r.quantity.Some? && Fit27(r.quantity.value, rules.lotSize)
    ensures Value(r.quantity.value) > 0.0 && Value(rules.lotSize) > 0.0
    ensures FloorStep28(Value(r.quantity.value), Value(rules.lotSize)) == Value(OrderParams(r, rules, sha).value.sz)
  {
    hide Protection, RawPrice, TdMode, RoundDown, Value, ToTick, FloorStep28;
    StepInContext(r.quantity.value, rules.lotSize);
  }

  /** The size of an order by notional, as the program computes it in three rounded divisions and
      multiplications, is the size sent, and keeps the bounds of exact arithmetic. */
  lemma NotionalInContext(r: Request, rules: Rules, sha: string -> string)
    requires RulesOk(rules) && WellFormed(r) && OrderParams(r, rules, sha).Ok?
    requires r.quantity.None? && ConversionPrice(r).Some?
    requires SizeFits(r.notional.value, ConversionPrice(r).value, rules.contractValue, rules.lotSize)
    ensures Value(r.notional.value) > 0.0 && Value(ConversionPrice(r).value) > 0.0
    ensures Value(rules.contractValue) > 0.0 && Value(rules.lotSize) > 0.0
    ensures var price, notional, lot := Value(ConversionPrice(r).value), Value(r.notional.value), Value(rules.lotSize);
            var sz := Size28(notional, price, Value(rules.contractValue), lot);
            && sz == Value(OrderParams(r, rules, sha).value.sz)
            && Contracted(sz, rules, price) <= notional < Contracted(sz + lot, rules, price)
  {
    hide OrderParams, RoundDown, Value, Size28, SizeFits;
    SizeIsRounded(r, rules, sha);
    NotionalBounds(r, rules, sha);
    PositiveProduct(ConversionPrice(r).value, rules.contractValue);
    PositiveValue(rules.contractValue);
    var contracts, unit := Contracts(r, rules).value, Value(ConversionPrice(r).value) * Value(rules.contractValue);
    assert contracts * unit == Value(r.notional.value);
    hide Contracts, Contracted;
    SizeInContext(r.notional.value, ConversionPrice(r).value, rules.contractValue, rules.lotSize, contracts);
  }

  /** The price of a limit entry, as the program computes it, is the price sent. */
  lemma LimitPriceInContext(r: Request, rules: Rules, sha: string -> string)
    requires RulesOk(rules) && RealOpen(r) && OrderParams(r, rules, sha).Ok? && r.orderType == "limit"
    requires r.limitPrice.Some? && Fit27(r.limitPrice.value, rules.tickSize)
    ensures Value(r.limitPrice.value) > 0.0 && Value(rules.tickSize) > 0.0
    ensures Px(r, rules, sha)
         == if r.side == "long" then FloorStep28(Value(r.limitPrice.value), Value(rules.tickSize))
            else CeilingStep28(Value(r.limitPrice.value), Value(rules.tickSize))
  {
    hide OrderParams, Value, RoundDown, RoundUp, FloorStep28, CeilingStep28;
    RealOpenShape(r, rules, sha);
    StepInContext(r.limitPrice.value, rules.tickSize);
  }

  /** The bounded price of a market entry, as the program computes it, is the price sent. */
  lemma MarketPriceInContext(r: Request, rules: Rules, sha: string -> string)
    requires RulesOk(rules) && RealOpen(r) && OrderParams(r, rules, sha).Ok? && r.orderType == "market"
    requires r.priceReference.Some? && r.maxSlippageBps.Some?
    requires CapFits(r.priceReference.value, r.maxSlippageBps.value, r.side == "long")
    requires Fit27(CapDecimal(r.priceReference.value, r.maxSlippageBps.value, r.side == "long"), rules.tickSize)
    ensures var cap := Cap28(Value(r.priceReference.value), Value(r.maxSlippageBps.value), r.side == "long");
            && cap > 0.0 && Value(rules.tickSize) > 0.0
            && Px(r, rules, sha)
               == if r.side == "long" then FloorStep28(cap, Value(rules.tickSize))
                  else CeilingStep28(cap, Value(rules.tickSize))
  {
    hide OrderParams, Value, RoundDown, RoundUp, FloorStep28, CeilingStep28, Cap28, CapDecimal, CapFits, Fit27;
    RealOpenShape(r, rules, sha);
    var cap := CapDecimal(r.priceReference.value, r.maxSlippageBps.value, r.side == "long");
    CapInContext(r.priceReference.value, r.maxSlippageBps.value, r.side == "long");
    StepInContext(cap, rules.tickSize);
    CapIs(r, Value(cap));
    hide SlippageCap;
  }

  lemma CapIs(r: Request, cap: real)
    requires r.priceReference.Some? && r.maxSlippageBps.Some? && r.side in {"long", "short"}
    requires cap == Slipped(Value(r.priceReference.value),
                            if r.side == "long" then 1.0 + Value(r.maxSlippageBps.value) / 10000.0
                            else 1.0 - Value(r.maxSlippageBps.value) / 10000.0)
    ensures SlippageCap(r, if r.side == "long" then "buy" else "sell") == Ok(cap)
  {
    BothCaps(r);
    hide *;
    if r.side == "long" {
      assert SlippageCap(r, "buy") == Ok(cap);
    } else {
      assert SlippageCap(r, "sell") == Ok(cap);
    }
  }

  lemma BothCaps(r: Request)
    requires r.priceReference.Some? && r.maxSlippageBps.Some?
    ensures SlippageCap(r, "buy")
         == Ok(Slipped(Value(r.priceReference.value), 1.0 + Value(r.maxSlippageBps.value) / 10000.0))
    ensures SlippageCap(r, "sell")
         == Ok(Slipped(Value(r.priceReference.value), 1.0 - Value(r.maxSlippageBps.value) / 10000.0))
  {
    hide Value, Slipped;
  }

  /** What a market buy sized by its notional can spend, with size and price as the program computes
      them: the notional plus the slippage allowance. */
  lemma MarketBuySpendInContext(r: Request, rules: Rules, sha: string -> string)
    requires RulesOk(rules) && WellFormed(r) && RealOpen(r) && OrderParams(r, rules, sha).Ok?
    requires r.side == "long" && r.orderType == "market" && r.quantity.None?
    requires r.notional.Some? && r.priceReference.Some? && r.maxSlippageBps.Some?
    requires SizeFits(r.notional.value, r.priceReference.value, rules.contractValue, rules.lotSize)
    requires CapFits(r.priceReference.value, r.maxSlippageBps.value, true)
    requires Fit27(CapDecimal(r.priceReference.value, r.maxSlippageBps.value, true), rules.tickSize)
    ensures Value(r.notional.value) > 0.0 && Value(r.priceReference.value) > 0.0
    ensures Value(rules.contractValue) > 0.0 && Value(rules.lotSize) > 0.0 && Value(rules.tickSize) > 0.0
    ensures var notional, ref, slip :=
              Value(r.notional.value), Value(r.priceReference.value), Value(r.maxSlippageBps.value);
            var cap := Cap28(ref, slip, true);
            && cap > 0.0
            && Contracted(Size28(notional, ref, Value(rules.contractValue), Value(rules.lotSize)), rules,
                          FloorStep28(cap, Value(rules.tickSize)))
               <= notional * (1.0 + slip / 10000.0)
  {
    hide OrderParams, Value, Size28, SizeFits, CapFits, Fit27, Cap28, CapDecimal, FloorStep28, Px, Contracted;
    NotionalInContext(r, rules, sha);
    MarketPriceInContext(r, rules, sha);
    MarketBuySpend(r, rules, sha);
  }
}
