/** `binance_futures.py`: normalizing a request to the filters of a Binance USD-M symbol. */
module BinanceOrders {
  import opened Wrappers
  import opened Texts
  import opened Decimals
  import opened Grid
  import opened OrderRequests

  datatype SymbolRules = SymbolRules(
    status: string, orderTypes: set<string>, timesInForce: set<string>,
    minPrice: Option<Dec>, maxPrice: Option<Dec>, tickSize: Dec,
    minQty: Dec, maxQty: Dec, stepSize: Dec,
    marketMinQty: Option<Dec>, marketMaxQty: Option<Dec>, marketStepSize: Option<Dec>,
    minNotional: Option<Dec>)

  /** What `_symbol_rules_from_payload` demands; the market figures are not checked. */
  predicate SymbolRulesOk(rules: SymbolRules) {
    Positive(rules.tickSize) && Positive(rules.minQty) && Positive(rules.maxQty) && Positive(rules.stepSize)
  }

  datatype TestOrder = TestOrder(
    symbol: string, clientOrderId: string, side: string, orderType: string, reduceOnly: bool,
    quantity: Dec, price: Option<Dec>, timeInForce: Option<string>, stopPrice: Option<Dec>)

  /** Python's `a or b`: zero counts as absent. */
  function MarketOr(a: Option<Dec>, b: Dec): Dec {
    if a.Some? && a.value.coeff != 0 then a.value else b
  }

  function StepOf(r: Request, rules: SymbolRules): Dec {
    if r.orderType == "market" then MarketOr(rules.marketStepSize, rules.stepSize) else rules.stepSize
  }

  function MinQtyOf(r: Request, rules: SymbolRules): Dec {
    if r.orderType == "market" then MarketOr(rules.marketMinQty, rules.minQty) else rules.minQty
  }

  function MaxQtyOf(r: Request, rules: SymbolRules): Dec {
    if r.orderType == "market" then MarketOr(rules.marketMaxQty, rules.maxQty) else rules.maxQty
  }

  /** `_round_down_to_step`, for any step but zero. */
  function FloorToStep(x: real, step: Dec): Dec
    requires step.coeff != 0
  {
    NonZeroValue(step);
    Times((x / Value(step)).Floor, step)
  }

  lemma NonZeroValue(d: Dec)
    ensures d.coeff != 0 <==> Value(d) != 0.0
  {
  }

  /** `_binance_side`. */
  function Side(r: Request): Try<string> {
    if r.side == "long" && r.effect == "open" then Ok("BUY")
    else if r.side == "long" && r.effect in {"reduce", "close"} then Ok("SELL")
    else if r.side == "short" && r.effect == "open" then Ok("SELL")
    else if r.side == "short" && r.effect in {"reduce", "close"} then Ok("BUY")
    else ValueError(Unsupported)
  }

  /** `_binance_order_type`. */
  function OrderType(r: Request): Try<string> {
    match r.orderType
    case "limit" => Ok("LIMIT")
    case "market" => Ok("MARKET")
    case "stop" => Ok("STOP_MARKET")
    case "stop_limit" => Ok("STOP")
    case "stop_market" => Ok("STOP_MARKET")
    case _ => ValueError(Unsupported)
  }

  function TimeInForce(r: Request): string {
    Upper(Strip(if r.timeInForce.Some? && r.timeInForce.value != "" then r.timeInForce.value else "GTC"))
  }

  /** `_normalized_quantity`, under rules. */
  function NormalQuantity(r: Request, rules: SymbolRules): Try<Option<Dec>>
    requires SymbolRulesOk(rules)
  {
    if r.quantity.None? then Ok(None)
    else
      var quantity := FloorToStep(Value(r.quantity.value), StepOf(r, rules));
      if Value(quantity) <= 0.0 then ValueError(TooSmall)
      else if Value(quantity) < Value(MinQtyOf(r, rules)) then
        ValueError(TooSmall)
      else if Value(quantity) > Value(MaxQtyOf(r, rules)) then ValueError(TooLarge)
      else Ok(Some(quantity))
  }

  /** `_round_to_tick`. */
  function TickPrice(price: real, side: string, rules: SymbolRules): Dec
    requires SymbolRulesOk(rules)
  {
    if side == "BUY" then RoundDown(price, rules.tickSize) else RoundUp(price, rules.tickSize)
  }

  /** `_normalized_price`, under rules. */
  function NormalPrice(value: Option<Dec>, side: string, rules: SymbolRules): Try<Option<Dec>>
    requires SymbolRulesOk(rules)
  {
    if value.None? then Ok(None)
    else
      var price := TickPrice(Value(value.value), side, rules);
      if rules.minPrice.Some? && Value(price) < Value(rules.minPrice.value) then
        ValueError(TooSmall)
      else if rules.maxPrice.Some? && Value(price) > Value(rules.maxPrice.value) then
        ValueError(TooLarge)
      else Ok(Some(price))
  }

  /** `_validate_min_notional`. */
  function MinNotionalBlock(r: Request, price: Option<Dec>, quantity: Option<Dec>, rules: SymbolRules): Option<Reason> {
    if rules.minNotional.None? then None
    else if price.None? || quantity.None? then
      if r.notional.None? then Some(Missing)
      else if Value(r.notional.value) < Value(rules.minNotional.value) then
        Some(TooSmall)
      else None
    else if Value(price.value) * Value(quantity.value) < Value(rules.minNotional.value) then
      Some(TooSmall)
    else None
  }

  /** `_validate_rules_compatibility`. */
  function CompatibilityBlock(r: Request, orderType: string, rules: SymbolRules): Option<Reason> {
    if rules.status != "TRADING" then Some(Unavailable)
    else if orderType !in rules.orderTypes then Some(Unavailable)
    else if r.timeInForce.Some? && r.timeInForce.value != "" && TimeInForce(r) !in rules.timesInForce then
      Some(Unavailable)
    else None
  }

  /** `binance_usdm_futures_order_test_params`, under rules. */
  function OrderTest(r: Request, rules: SymbolRules): Try<TestOrder>
    requires SymbolRulesOk(rules)
  {
    var side :- Side(r);
    var orderType :- OrderType(r);
    if CompatibilityBlock(r, orderType, rules).Some? then
      ValueError(CompatibilityBlock(r, orderType, rules).value)
    else
      var quantity :- NormalQuantity(r, rules);
      var price :- NormalPrice(r.limitPrice, side, rules);
      var stopPrice :- NormalPrice(r.stopPrice, side, rules);
      if MinNotionalBlock(r, price, quantity, rules).Some? then
        ValueError(MinNotionalBlock(r, price, quantity, rules).value)
      else if quantity.None? then ValueError(Missing)
      else if r.orderType in {"limit", "stop_limit"} && price.None? then
        ValueError(Missing)
      else if r.orderType in {"stop", "stop_limit", "stop_market"} && stopPrice.None? then
        ValueError(Missing)
      else
        var limit := r.orderType in {"limit", "stop_limit"};
        Ok(TestOrder(r.symbol, r.clientOrderId, side, orderType, r.effect in {"reduce", "close"}, quantity.value,
                     if limit then price else None, if limit then Some(TimeInForce(r)) else None,
                     if r.orderType in {"stop", "stop_limit", "stop_market"} then stopPrice else None))
  }

  // ----- the filters are met --------------------------------------------------------------

  lemma FloorIsRoundDown(x: real, step: Dec)
    requires Positive(step)
    ensures FloorToStep(x, step) == RoundDown(x, step)
  {
    PositiveValue(step);
  }

  /** The greatest step multiple not above the request. */
  ghost predicate GreatestMultiple(q: real, requested: real, step: real) {
    && OnGrid(q, step) && q <= requested < q + step
    && forall y | OnGrid(y, step) && y <= requested :: y <= q
  }

  /** Whatever the step, the quantity is positive and within the limits. */
  predicate QuantityLimits(q: real, min: real, max: real) {
    0.0 < q && min <= q <= max
  }

  /** The nearest tick on the conservative side, within the price limits. */
  ghost predicate PriceFilter(p: real, requested: real, side: string, rules: SymbolRules) {
    var tick := Value(rules.tickSize);
    && OnGrid(p, tick)
    && (side == "BUY" ==> p <= requested < p + tick)
    && (side != "BUY" ==> p - tick < requested <= p)
    && (rules.minPrice.Some? ==> Value(rules.minPrice.value) <= p)
    && (rules.maxPrice.Some? ==> p <= Value(rules.maxPrice.value))
  }

  lemma QuantityWithinLimits(r: Request, rules: SymbolRules)
    requires SymbolRulesOk(rules) && r.quantity.Some? && NormalQuantity(r, rules).Ok?
    ensures NormalQuantity(r, rules).value.Some?
    ensures QuantityLimits(Value(NormalQuantity(r, rules).value.value), Value(MinQtyOf(r, rules)),
                           Value(MaxQtyOf(r, rules)))
  {
    hide Value, FloorToStep, StepOf, MinQtyOf, MaxQtyOf;
  }

  lemma QuantityIsGreatest(r: Request, rules: SymbolRules)
    requires SymbolRulesOk(rules) && Positive(StepOf(r, rules)) && r.quantity.Some? && NormalQuantity(r, rules).Ok?
    ensures NormalQuantity(r, rules).value.Some?
    ensures GreatestMultiple(Value(NormalQuantity(r, rules).value.value), Value(r.quantity.value),
                             Value(StepOf(r, rules)))
  {
    hide Value, RoundDown, StepOf, MinQtyOf, MaxQtyOf, OnGrid;
    FloorIsRoundDown(Value(r.quantity.value), StepOf(r, rules));
    RoundDownGreatest(Value(r.quantity.value), StepOf(r, rules));
    hide FloorToStep;
  }

  lemma PriceMeetsFilter(value: Option<Dec>, side: string, rules: SymbolRules)
    requires SymbolRulesOk(rules) && value.Some? && NormalPrice(value, side, rules).Ok?
    ensures NormalPrice(value, side, rules).value.Some?
    ensures PriceFilter(Value(NormalPrice(value, side, rules).value.value), Value(value.value), side, rules)
  {
    hide Value, RoundDown, RoundUp, OnGrid;
    RoundDownGreatest(Value(value.value), rules.tickSize);
    RoundUpLeast(Value(value.value), rules.tickSize);
  }

  /** What an order that passes normalization satisfies. */
  ghost predicate MeetsFilters(o: TestOrder, r: Request, rules: SymbolRules) {
    && r.quantity.Some?
    && QuantityLimits(Value(o.quantity), Value(MinQtyOf(r, rules)), Value(MaxQtyOf(r, rules)))
    && (Positive(StepOf(r, rules)) ==>
          GreatestMultiple(Value(o.quantity), Value(r.quantity.value), Value(StepOf(r, rules))))
    && (o.price.Some? <==> r.orderType in {"limit", "stop_limit"})
    && (o.price.Some? ==>
          && r.limitPrice.Some? && PriceFilter(Value(o.price.value), Value(r.limitPrice.value), o.side, rules)
          && (rules.minNotional.Some? ==> Value(o.price.value) * Value(o.quantity) >= Value(rules.minNotional.value)))
    && (o.stopPrice.Some? <==> r.orderType in {"stop", "stop_limit", "stop_market"})
    && (o.stopPrice.Some? ==>
          r.stopPrice.Some? && PriceFilter(Value(o.stopPrice.value), Value(r.stopPrice.value), o.side, rules))
    && rules.status == "TRADING" && o.orderType in rules.orderTypes
    && o.side == (if (r.side == "long") == (r.effect == "open") then "BUY" else "SELL")
    && (rules.minNotional.Some? && r.limitPrice.None? ==>
          r.notional.Some? && Value(r.notional.value) >= Value(rules.minNotional.value))
    && IsAsked(o, r, rules)
  }

  /** A market order goes by the figure for market orders, unless there is none or it is zero; any other
      order goes by the general one. */
  lemma FiguresExactly(r: Request, rules: SymbolRules)
    ensures r.orderType != "market" ==>
      StepOf(r, rules) == rules.stepSize && MinQtyOf(r, rules) == rules.minQty && MaxQtyOf(r, rules) == rules.maxQty
    ensures r.orderType == "market" ==>
      && Figure(StepOf(r, rules), rules.marketStepSize, rules.stepSize)
      && Figure(MinQtyOf(r, rules), rules.marketMinQty, rules.minQty)
      && Figure(MaxQtyOf(r, rules), rules.marketMaxQty, rules.maxQty)
  {
  }

  predicate Figure(figure: Dec, market: Option<Dec>, general: Dec) {
    && (market.None? || market.value.coeff == 0 ==> figure == general)
    && (market.Some? && market.value.coeff != 0 ==> Some(figure) == market)
  }

  /** The rest of the order is what is asked for, in the exchange's words. */
  predicate IsAsked(o: TestOrder, r: Request, rules: SymbolRules) {
    && o.symbol == r.symbol && o.clientOrderId == r.clientOrderId
    && (o.reduceOnly <==> r.effect != "open")
    && (r.orderType == "limit" ==> o.orderType == "LIMIT") && (r.orderType == "market" ==> o.orderType == "MARKET")
    && (r.orderType == "stop_limit" ==> o.orderType == "STOP")
    && (r.orderType in {"stop", "stop_market"} ==> o.orderType == "STOP_MARKET")
    && (if r.timeInForce.Some? && r.timeInForce.value != "" then
          && Upper(Strip(r.timeInForce.value)) in rules.timesInForce
          && o.timeInForce
          == if r.orderType in {"limit", "stop_limit"} then Some(Upper(Strip(r.timeInForce.value))) else None
        else o.timeInForce == if r.orderType in {"limit", "stop_limit"} then Some("GTC") else None)
  }

  lemma OrderIsAsked(r: Request, rules: SymbolRules)
    requires SymbolRulesOk(rules) && OrderTest(r, rules).Ok?
    ensures IsAsked(OrderTest(r, rules).value, r, rules)
  {
    hide Value, NormalQuantity, NormalPrice, MinNotionalBlock, Strip, Upper;
    GoodTillCancelled(r);
    WordsDiffer();
    SideReduces(r);
    hide TimeInForce, Side;
  }

  lemma SideReduces(r: Request)
    ensures Side(r).Ok? ==> (r.effect in {"reduce", "close"} <==> r.effect != "open")
  {
    WordsDiffer();
  }

  lemma WordsDiffer()
    ensures |"limit"| == 5 && |"market"| == 6 && |"stop"| == 4 && |"stop_limit"| == 10 && |"stop_market"| == 11
    ensures |"open"| == 4 && |"reduce"| == 6 && |"close"| == 5
  {
  }

  lemma GoodTillCancelled(r: Request)
    ensures TimeInForce(r)
         == if r.timeInForce.Some? && r.timeInForce.value != "" then Upper(Strip(r.timeInForce.value)) else "GTC"
  {
    assert Upper("GTC") == "GTC";
  }

  /** Every order that gets through meets every filter, in exact decimals. */
  lemma OrdersMeetFilters(r: Request, rules: SymbolRules)
    requires SymbolRulesOk(rules) && OrderTest(r, rules).Ok?
    ensures MeetsFilters(OrderTest(r, rules).value, r, rules)
  {
    hide Value, NormalQuantity, NormalPrice, StepOf, MinQtyOf, MaxQtyOf, QuantityLimits, GreatestMultiple, PriceFilter,
      TimeInForce;
    OrderIsAsked(r, rules);
    hide IsAsked;
    var side := Side(r).value;
    NoQuantity(r, rules);
    if r.quantity.Some? {
      QuantityWithinLimits(r, rules);
      if Positive(StepOf(r, rules)) {
        QuantityIsGreatest(r, rules);
      }
    }
    NoPrice(side, rules);
    if r.limitPrice.Some? {
      PriceMeetsFilter(r.limitPrice, side, rules);
    }
    if r.stopPrice.Some? {
      PriceMeetsFilter(r.stopPrice, side, rules);
    }
  }

  lemma NoQuantity(r: Request, rules: SymbolRules)
    requires SymbolRulesOk(rules)
    ensures NormalQuantity(r, rules).Ok? ==> (NormalQuantity(r, rules).value.Some? <==> r.quantity.Some?)
  {
  }

  lemma NoPrice(side: string, rules: SymbolRules)
    requires SymbolRulesOk(rules)
    ensures NormalPrice(None, side, rules) == Ok(None)
  {
  }

  // ----- a step below zero ----------------------------------------------------------------

  /** A negative market step turns the rounding around: the quantity is rounded up. */
  lemma NegativeStepRoundsUp(x: real, step: Dec)
    requires step.coeff < 0
    ensures Value(FloorToStep(x, step)) == Value(RoundUp(x, Dec(-step.coeff, step.exp)))
  {
    var up := Dec(-step.coeff, step.exp);
    NonZeroValue(step);
    PositiveValue(up);
    assert Value(step) == -Value(up);
    var n := StepsBelow(-x, Value(up));
    assert x / Value(step) == -x / Value(up) by {
      FlipSigns(x, Value(up));
    }
    TimesValue(n, step);
    TimesValue(-n, up);
    assert Multiple(n, Value(step)) == Multiple(-n, Value(up)) by {
      hide Value;
      MultipleSigns(n, Value(up));
    }
  }

  lemma FlipSigns(x: real, t: real)
    requires t > 0.0
    ensures x / (-t) == -x / t
  {
    var a, b := x / (-t), -x / t;
    assert a * (-t) == x && b * t == -x;
    assert (a - b) * t == 0.0;
  }

  lemma MultipleSigns(n: int, t: real)
    ensures Multiple(n, -t) == Multiple(-n, t)
  {
  }

  /** The normalized quantity is never above the request exactly when the step that applies is
      positive, or the request is a multiple of it anyway. */
  lemma NeverAboveRequestExactly(r: Request, rules: SymbolRules)
    requires SymbolRulesOk(rules) && r.quantity.Some?
    ensures var step := StepOf(r, rules);
            step.coeff != 0
            && (Value(FloorToStep(Value(r.quantity.value), step)) <= Value(r.quantity.value)
                <==> step.coeff > 0 || OnGrid(Value(r.quantity.value), Value(Dec(-step.coeff, step.exp))))
  {
    hide Value, OnGrid, RoundUp, RoundDown;
    var step, x := StepOf(r, rules), Value(r.quantity.value);
    if step.coeff > 0 {
      FloorIsRoundDown(x, step);
      RoundDownGreatest(x, step);
    } else {
      NegativeStepRoundsUp(x, step);
      RoundUpLeast(x, Dec(-step.coeff, step.exp));
      if OnGrid(x, Value(Dec(-step.coeff, step.exp))) {
        RoundingKeepsGrid(x, Dec(-step.coeff, step.exp));
      }
    }
    hide FloorToStep;
  }

  /** A market symbol whose step for market orders is below zero. */
  const BACKWARD_RULES := SymbolRules(
    "TRADING", {"MARKET"}, {}, None, None, Dec(1, 0), Dec(1, 0), Dec(10, 0), Dec(1, 0),
    None, None, Some(Dec(-1, 0)), None)

  /** A market order for one and a half. */
  const ONE_AND_A_HALF := Request(
    "binance", "real", "BTCUSDT", "long", "open", "market", "id",
    Some(Dec(15, -1)), None, None, None, None, [], None, None, None, None, None, None)

  /** Such rules are not refused: an order for 1.5 gets through, for 2. */
  lemma BackwardStepGetsThrough()
    ensures SymbolRulesOk(BACKWARD_RULES) && OrderTest(ONE_AND_A_HALF, BACKWARD_RULES).Ok?
    ensures Value(OrderTest(ONE_AND_A_HALF, BACKWARD_RULES).value.quantity) == 2.0
    ensures Value(ONE_AND_A_HALF.quantity.value) == 1.5
  {
    WholeAndHalf();
    hide Value, TickPrice, TimeInForce;
    var step := Dec(-1, 0);
    assert (1.5 / -1.0).Floor == -2;
    assert FloorToStep(1.5, step) == Dec(2, 0);
    hide FloorToStep;
    assert NormalQuantity(ONE_AND_A_HALF, BACKWARD_RULES) == Ok(Some(Dec(2, 0)));
  }

  lemma WholeAndHalf()
    ensures Value(Dec(15, -1)) == 1.5 && Value(Dec(-1, 0)) == -1.0
    ensures Value(Dec(2, 0)) == 2.0 && Value(Dec(1, 0)) == 1.0 && Value(Dec(10, 0)) == 10.0
  {
    assert Ten(-1) == 1.0 / 10.0;
  }

  // ----- normalizing twice ----------------------------------------------------------------

  lemma FloorTwice(x: real, step: Dec)
    requires step.coeff != 0
    ensures FloorToStep(Value(FloorToStep(x, step)), step) == FloorToStep(x, step)
  {
    NonZeroValue(step);
    var n := (x / Value(step)).Floor;
    TimesValue(n, step);
    ExactQuotient(n, Value(step));
  }

  lemma ExactQuotient(n: int, v: real)
    requires v != 0.0
    ensures (Multiple(n, v) / v).Floor == n
  {
    var q := Multiple(n, v) / v;
    assert q * v == n as real * v;
    assert (q - n as real) * v == 0.0;
  }

  lemma TickTwice(price: real, side: string, rules: SymbolRules)
    requires SymbolRulesOk(rules)
    ensures TickPrice(Value(TickPrice(price, side, rules)), side, rules) == TickPrice(price, side, rules)
  {
    var tick := rules.tickSize;
    PositiveValue(tick);
    var down, up := StepsBelow(price, Value(tick)), StepsAbove(price, Value(tick));
    TimesValue(down, tick);
    TimesValue(up, tick);
    ExactQuotient(down, Value(tick));
    MultipleSteps(up, Value(tick));
    ExactQuotient(-up, Value(tick));
  }

  /** The request with the amounts the exchange would be sent. */
  function Renormalized(r: Request, o: TestOrder, rules: SymbolRules): Request
    requires SymbolRulesOk(rules)
  {
    r.(quantity := Some(o.quantity),
    limitPrice := if r.limitPrice.Some? then Some(TickPrice(Value(r.limitPrice.value), o.side, rules)) else None,
    stopPrice := if r.stopPrice.Some? then Some(TickPrice(Value(r.stopPrice.value), o.side, rules)) else None)
  }

  lemma QuantityTwice(r: Request, again: Request, rules: SymbolRules)
    requires SymbolRulesOk(rules) && NormalQuantity(r, rules).Ok?
    requires again.orderType == r.orderType && again.quantity == NormalQuantity(r, rules).value
    ensures NormalQuantity(again, rules) == NormalQuantity(r, rules)
  {
    hide Value, FloorToStep;
    if r.quantity.Some? {
      FloorTwice(Value(r.quantity.value), StepOf(r, rules));
    }
  }

  lemma PriceTwice(value: Option<Dec>, side: string, rules: SymbolRules)
    requires SymbolRulesOk(rules) && NormalPrice(value, side, rules).Ok?
    ensures NormalPrice(NormalPrice(value, side, rules).value, side, rules) == NormalPrice(value, side, rules)
    ensures NormalPrice(value, side, rules).value
         == if value.Some? then Some(TickPrice(Value(value.value), side, rules)) else None
  {
    hide Value, TickPrice;
    if value.Some? {
      TickTwice(Value(value.value), side, rules);
    }
  }

  /** Only the three amounts differ. */
  predicate SameButAmounts(r: Request, again: Request) {
    again == r.(quantity := again.quantity, limitPrice := again.limitPrice, stopPrice := again.stopPrice)
  }

  lemma RestUnchanged(r: Request, again: Request, rules: SymbolRules)
    requires SameButAmounts(r, again)
    ensures Side(again) == Side(r) && OrderType(again) == OrderType(r) && TimeInForce(again) == TimeInForce(r)
    ensures forall t :: CompatibilityBlock(again, t, rules) == CompatibilityBlock(r, t, rules)
    ensures forall p, q :: MinNotionalBlock(again, p, q, rules) == MinNotionalBlock(r, p, q, rules)
  {
    hide Value, Strip, Upper;
  }

  /** Normalizing a normalized request changes nothing. */
  lemma NormalizingTwice(r: Request, rules: SymbolRules)
    requires SymbolRulesOk(rules) && OrderTest(r, rules).Ok?
    ensures OrderTest(Renormalized(r, OrderTest(r, rules).value, rules), rules) == OrderTest(r, rules)
  {
    hide Value, FloorToStep, TickPrice, TimeInForce, NormalQuantity, NormalPrice, MinNotionalBlock, CompatibilityBlock,
      Side, OrderType;
    var again := Renormalized(r, OrderTest(r, rules).value, rules);
    var side := Side(r).value;
    RestUnchanged(r, again, rules);
    NoQuantity(r, rules);
    QuantityTwice(r, again, rules);
    PriceTwice(r.limitPrice, side, rules);
    PriceTwice(r.stopPrice, side, rules);
  }
}
