/** What an OKX order promises on the wire: its bracket, its slippage cap and its notional. */
module OkxBracket {
  import opened Wrappers
  import opened Texts
  import opened Decimals
  import opened Grid
  import opened OrderRequests
  import opened OkxOrders

  predicate RealOpen(r: Request) {
    r.executionMode == "real" && r.effect == "open"
  }

  /** The side of the order that would close the position again. */
  function ExitSide(r: Request): string {
    if r.side == "long" then "sell" else "buy"
  }

  /** `price` rounded for one side: the nearest tick that is no worse for the trader. */
  ghost predicate RoundedFor(x: real, price: real, side: string, tick: real) {
    && OnGrid(x, tick)
    && (side == "buy" ==>
          x <= price < x + tick && (forall y | OnGrid(y, tick) && y <= price :: y <= x))
    && (side != "buy" ==>
          x - tick < price <= x && (forall y | OnGrid(y, tick) && price <= y :: x <= y))
  }

  lemma ToTickRounds(price: real, side: string, rules: Rules)
    requires RulesOk(rules)
    ensures RoundedFor(Value(ToTick(price, side, rules)), price, side, Value(rules.tickSize))
  {
    hide OnGrid, Value, RoundDown, RoundUp;
    RoundDownGreatest(price, rules.tickSize);
    RoundUpLeast(price, rules.tickSize);
  }

  /** The protection of a real opening order: both triggers, on their side of the entry. */
  lemma ProtectionShape(r: Request, rules: Rules, sha: string -> string)
    requires RulesOk(rules) && RealOpen(r) && r.side in {"long", "short"} && Protection(r, rules, sha).Ok?
    ensures r.stopLoss.Some? && r.takeProfits != []
    ensures Protection(r, rules, sha).value.Some?
    ensures var attach := Protection(r, rules, sha).value.value;
            && attach.stopLoss == ToTick(Value(r.stopLoss.value), ExitSide(r), rules)
            && attach.takeProfit == Some(ToTick(Value(r.takeProfits[0]), ExitSide(r), rules))
            && (EntryReference(r).Some? ==>
                  var entry := Value(EntryReference(r).value);
                  if r.side == "long"
                  then Value(attach.stopLoss) < entry < Value(attach.takeProfit.value)
                  else Value(attach.takeProfit.value) < entry < Value(attach.stopLoss))
  {
    hide ToTick, Value;
  }

  /** The parameters of a real opening order, in terms of its raw prices. */
  lemma RealOpenShape(r: Request, rules: Rules, sha: string -> string)
    requires RulesOk(rules) && RealOpen(r) && OrderParams(r, rules, sha).Ok?
    ensures r.side in {"long", "short"} && r.stopLoss.Some? && r.takeProfits != []
    ensures var p := OrderParams(r, rules, sha).value;
            && p.side == (if r.side == "long" then "buy" else "sell")
            && p.ordType == (if r.orderType == "market" then "ioc" else "limit")
            && r.orderType in {"limit", "market"}
            && RawPrice(r, p.side, p.ordType).Ok? && RawPrice(r, p.side, p.ordType).value.Some?
            && p.px == Some(ToTick(RawPrice(r, p.side, p.ordType).value.value, p.side, rules))
            && p.attach.Some?
            && p.attach.value.stopLoss == ToTick(Value(r.stopLoss.value), ExitSide(r), rules)
            && p.attach.value.takeProfit == Some(ToTick(Value(r.takeProfits[0]), ExitSide(r), rules))
            && (EntryReference(r).Some? ==>
                  var entry := Value(EntryReference(r).value);
                  if r.side == "long"
                  then Value(p.attach.value.stopLoss) < entry < Value(p.attach.value.takeProfit.value)
                  else Value(p.attach.value.takeProfit.value) < entry < Value(p.attach.value.stopLoss))
  {
    hide Size, ToTick, Value, TdMode, Protection, EntryReference;
    ProtectionShape(r, rules, sha);
  }

  /** Price, stop-loss and take-profit of a real opening order. */
  function Px(r: Request, rules: Rules, sha: string -> string): real
    requires RulesOk(rules) && RealOpen(r) && OrderParams(r, rules, sha).Ok?
  {
    RealOpenShape(r, rules, sha);
    Value(OrderParams(r, rules, sha).value.px.value)
  }

  function StopPx(r: Request, rules: Rules, sha: string -> string): real
    requires RulesOk(rules) && RealOpen(r) && OrderParams(r, rules, sha).Ok?
  {
    RealOpenShape(r, rules, sha);
    Value(OrderParams(r, rules, sha).value.attach.value.stopLoss)
  }

  function TargetPx(r: Request, rules: Rules, sha: string -> string): real
    requires RulesOk(rules) && RealOpen(r) && OrderParams(r, rules, sha).Ok?
  {
    RealOpenShape(r, rules, sha);
    Value(OrderParams(r, rules, sha).value.attach.value.takeProfit.value)
  }

  /** All three prices are on the tick grid. */
  lemma PricesOnGrid(r: Request, rules: Rules, sha: string -> string)
    requires RulesOk(rules) && RealOpen(r) && OrderParams(r, rules, sha).Ok?
    ensures OnGrid(Px(r, rules, sha), Value(rules.tickSize))
    ensures OnGrid(StopPx(r, rules, sha), Value(rules.tickSize))
    ensures OnGrid(TargetPx(r, rules, sha), Value(rules.tickSize))
  {
    hide OrderParams, ToTick, OnGrid, Value, RawPrice;
    RealOpenShape(r, rules, sha);
    var p := OrderParams(r, rules, sha).value;
    ToTickRounds(RawPrice(r, p.side, p.ordType).value.value, p.side, rules);
    ToTickRounds(Value(r.stopLoss.value), ExitSide(r), rules);
    ToTickRounds(Value(r.takeProfits[0]), ExitSide(r), rules);
  }

  /** A real limit entry has its stop on the losing side and its target on the winning side of
      the price that is sent; stop and price can coincide only when the raw limit was off-grid. */
  lemma LimitBracket(r: Request, rules: Rules, sha: string -> string)
    requires RulesOk(rules) && RealOpen(r) && OrderParams(r, rules, sha).Ok? && r.orderType == "limit"
    ensures var px, sl, tp := Px(r, rules, sha), StopPx(r, rules, sha), TargetPx(r, rules, sha);
            && (if r.side == "long" then sl <= px < tp else tp < px <= sl)
            && (sl == px ==> !OnGrid(Value(r.limitPrice.value), Value(rules.tickSize)))
  {
    hide OrderParams, ToTick, OnGrid, Value;
    RealOpenShape(r, rules, sha);
    PricesOnGrid(r, rules, sha);
    var p := OrderParams(r, rules, sha).value;
    ToTickRounds(Value(r.limitPrice.value), p.side, rules);
  }

  /** The slippage cap of a real market entry, before rounding. */
  function Cap(r: Request): real
    requires r.priceReference.Some? && r.maxSlippageBps.Some?
  {
    SlippageCap(r, if r.side == "long" then "buy" else "sell").value
  }

  lemma MarketPrice(r: Request, rules: Rules, sha: string -> string)
    requires RulesOk(rules) && RealOpen(r) && OrderParams(r, rules, sha).Ok? && r.orderType == "market"
    ensures r.priceReference.Some? && r.maxSlippageBps.Some?
    ensures RoundedFor(Px(r, rules, sha), Cap(r), if r.side == "long" then "buy" else "sell", Value(rules.tickSize))
  {
    hide OrderParams, ToTick, OnGrid, Value, RoundedFor;
    RealOpenShape(r, rules, sha);
    ToTickRounds(Cap(r), OrderParams(r, rules, sha).value.side, rules);
  }

  /** For every real market entry: the stop is on the losing side of the price sent exactly when
      it is on the losing side of the slippage cap. */
  lemma MarketStopExactly(r: Request, rules: Rules, sha: string -> string)
    requires RulesOk(rules) && RealOpen(r) && OrderParams(r, rules, sha).Ok? && r.orderType == "market"
    ensures r.priceReference.Some? && r.maxSlippageBps.Some?
    ensures r.side == "long" ==>
      (StopPx(r, rules, sha) <= Px(r, rules, sha) <==> StopPx(r, rules, sha) <= Cap(r))
    ensures r.side == "short" ==>
      (Px(r, rules, sha) <= StopPx(r, rules, sha) <==> Cap(r) <= StopPx(r, rules, sha))
  {
    hide OrderParams, OnGrid, Value, Cap, Px, StopPx, TargetPx;
    MarketPrice(r, rules, sha);
    PricesOnGrid(r, rules, sha);
  }

  /** Without a limit price the bracket is checked against the reference price, and holds. */
  lemma MarketBracket(r: Request, rules: Rules, sha: string -> string)
    requires RulesOk(rules) && WellFormed(r) && RealOpen(r) && OrderParams(r, rules, sha).Ok?
    requires r.orderType == "market" && r.limitPrice.None?
    ensures r.priceReference.Some?
    ensures var px, sl, tp := Px(r, rules, sha), StopPx(r, rules, sha), TargetPx(r, rules, sha);
            var ref := Value(r.priceReference.value);
            if r.side == "long" then sl <= px && ref < tp else px <= sl && tp < ref
  {
    RealOpenShape(r, rules, sha);
    MarketStopExactly(r, rules, sha);
    CapBeyondReference(r);
    hide OrderParams, OnGrid, Value, Cap;
  }

  lemma CapBeyondReference(r: Request)
    requires WellFormed(r) && r.priceReference.Some? && r.maxSlippageBps.Some?
    ensures if r.side == "long" then Value(r.priceReference.value) < Cap(r)
            else Cap(r) < Value(r.priceReference.value)
  {
    hide Value, Slipped;
    PositiveValue(r.priceReference.value);
    PositiveValue(r.maxSlippageBps.value);
    SlippedBeyond(Value(r.priceReference.value), Value(r.maxSlippageBps.value) / 10000.0);
  }

  lemma SlippedBeyond(ref: real, slip: real)
    requires ref > 0.0 && slip > 0.0
    ensures Slipped(ref, 1.0 - slip) < ref < Slipped(ref, 1.0 + slip)
  {
    assert ref * slip > 0.0;
    assert ref * (1.0 + slip) == ref + ref * slip;
    assert ref * (1.0 - slip) == ref - ref * slip;
  }

  lemma SlippedIs(ref: real, multiplier: real)
    ensures Slipped(ref, multiplier) == ref * multiplier
  {
  }

  // ----- notional and slippage ------------------------------------------------------------

  function Contracted(sz: real, rules: Rules, price: real): real {
    sz * (Value(rules.contractValue) * price)
  }

  lemma SizeIsRounded(r: Request, rules: Rules, sha: string -> string)
    requires RulesOk(rules) && OrderParams(r, rules, sha).Ok? && r.quantity.None?
    ensures r.notional.Some? && ConversionPrice(r).Some? && Positive(ConversionPrice(r).value)
    ensures Contracts(r, rules).Ok?
    ensures OrderParams(r, rules, sha).value.sz == RoundDown(Contracts(r, rules).value, rules.lotSize)
    ensures Positive(OrderParams(r, rules, sha).value.sz)
  {
    hide Protection, RawPrice, TdMode, RoundDown, Value, ToTick;
  }

  lemma QuotientBounds(notional: real, unit: real, q: real, sz: real, lot: real)
    requires unit > 0.0 && q == notional / unit && sz <= q < sz + lot
    ensures sz * unit <= notional < (sz + lot) * unit
  {
    assert q * unit == notional;
    assert (q - sz) * unit >= 0.0 && (sz + lot - q) * unit > 0.0;
  }

  /** An order sized by its notional is worth at most that notional at its conversion price, and
      one lot more would exceed it. */
  lemma NotionalBounds(r: Request, rules: Rules, sha: string -> string)
    requires RulesOk(rules) && OrderParams(r, rules, sha).Ok? && r.quantity.None?
    ensures r.notional.Some? && ConversionPrice(r).Some?
    ensures var sz, lot := Value(OrderParams(r, rules, sha).value.sz), Value(rules.lotSize);
            var price, notional := Value(ConversionPrice(r).value), Value(r.notional.value);
            Contracted(sz, rules, price) <= notional < Contracted(sz + lot, rules, price)
  {
    hide OrderParams, Value, RoundDown;
    SizeIsRounded(r, rules, sha);
    RoundDownGreatest(Contracts(r, rules).value, rules.lotSize);
    PositiveProduct(ConversionPrice(r).value, rules.contractValue);
    QuotientBounds(Value(r.notional.value), Value(ConversionPrice(r).value) * Value(rules.contractValue),
                   Contracts(r, rules).value, Value(OrderParams(r, rules, sha).value.sz), Value(rules.lotSize));
  }

  lemma PriceMonotone(a: real, ct: real, x: real, y: real)
    requires a >= 0.0 && ct >= 0.0 && x <= y
    ensures a * (ct * x) <= a * (ct * y)
  {
    assert ct * (y - x) >= 0.0;
    assert a * (ct * (y - x)) >= 0.0;
  }

  lemma ScaleNotional(a: real, ct: real, ref: real, m: real, notional: real)
    requires m > 0.0 && a * (ct * ref) <= notional
    ensures a * (ct * (ref * m)) <= notional * m
  {
    var x := a * (ct * ref);
    assert a * (ct * (ref * m)) == x * m;
    assert (notional - x) * m >= 0.0;
  }

  /** A limit buy sized by its notional never spends more than the notional at the price sent. */
  lemma LimitBuySpend(r: Request, rules: Rules, sha: string -> string)
    requires RulesOk(rules) && RealOpen(r) && OrderParams(r, rules, sha).Ok?
    requires r.side == "long" && r.orderType == "limit" && r.quantity.None?
    ensures r.notional.Some?
    ensures Contracted(Value(OrderParams(r, rules, sha).value.sz), rules, Px(r, rules, sha)) <= Value(r.notional.value)
  {
    hide OrderParams, Value, ToTick, OnGrid;
    NotionalBounds(r, rules, sha);
    SizeIsRounded(r, rules, sha);
    RealOpenShape(r, rules, sha);
    ToTickRounds(Value(r.limitPrice.value), "buy", rules);
    PositiveValue(OrderParams(r, rules, sha).value.sz);
    PositiveValue(rules.contractValue);
    PriceMonotone(Value(OrderParams(r, rules, sha).value.sz), Value(rules.contractValue),
                  Px(r, rules, sha), Value(r.limitPrice.value));
  }

  /** A market buy sized by its notional spends at most the notional plus the slippage allowance,
      and its price sits within one tick below the cap. */
  lemma MarketBuySpend(r: Request, rules: Rules, sha: string -> string)
    requires RulesOk(rules) && WellFormed(r) && RealOpen(r) && OrderParams(r, rules, sha).Ok?
    requires r.side == "long" && r.orderType == "market" && r.quantity.None?
    ensures r.notional.Some? && r.priceReference.Some? && r.maxSlippageBps.Some?
    ensures var slip := Value(r.maxSlippageBps.value) / 10000.0;
            var ref := Value(r.priceReference.value);
            var px := Px(r, rules, sha);
            && px <= ref * (1.0 + slip) < px + Value(rules.tickSize)
            && Contracted(Value(OrderParams(r, rules, sha).value.sz), rules, px)
               <= Value(r.notional.value) * (1.0 + slip)
  {
    hide OrderParams, Value, ToTick, OnGrid, Px;
    NotionalBounds(r, rules, sha);
    SizeIsRounded(r, rules, sha);
    MarketPrice(r, rules, sha);
    var sz, ct := Value(OrderParams(r, rules, sha).value.sz), Value(rules.contractValue);
    var ref, slip := Value(r.priceReference.value), Value(r.maxSlippageBps.value) / 10000.0;
    PositiveValue(OrderParams(r, rules, sha).value.sz);
    PositiveValue(rules.contractValue);
    PositiveValue(r.maxSlippageBps.value);
    ScaleNotional(sz, ct, ref, 1.0 + slip, Value(r.notional.value));
    PriceMonotone(sz, ct, Px(r, rules, sha), ref * (1.0 + slip));
  }

  /** A market sell is never sent below its slippage cap. */
  lemma MarketSellFloor(r: Request, rules: Rules, sha: string -> string)
    requires RulesOk(rules) && RealOpen(r) && OrderParams(r, rules, sha).Ok?
    requires r.side == "short" && r.orderType == "market"
    ensures r.priceReference.Some? && r.maxSlippageBps.Some?
    ensures var cap := Value(r.priceReference.value) * (1.0 - Value(r.maxSlippageBps.value) / 10000.0);
            cap <= Px(r, rules, sha) < cap + Value(rules.tickSize)
  {
    hide OrderParams, Value, OnGrid, Px, Slipped;
    MarketPrice(r, rules, sha);
    SlippedIs(Value(r.priceReference.value), 1.0 - Value(r.maxSlippageBps.value) / 10000.0);
  }

  // ----- the bracket of a market entry, exactly -------------------------------------------

  /** Some tick lies between the two raw prices. */
  ghost predicate TickBetween(a: real, b: real, tick: real) {
    exists y :: OnGrid(y, tick) && a <= y <= b
  }

  /** That can be told from the raw prices: the first tick at or above the one is no later than the
      last at or below the other. */
  lemma TickBetweenExactly(a: real, b: real, tick: Dec)
    requires Positive(tick)
    ensures Value(tick) > 0.0
    ensures TickBetween(a, b, Value(tick)) <==> StepsAbove(a, Value(tick)) <= StepsBelow(b, Value(tick))
  {
    hide Value, StepsBelow, StepsAbove, OnGrid, RoundUp, RoundDown;
    PositiveValue(tick);
    RoundUpLeast(a, tick);
    RoundDownGreatest(b, tick);
    RoundedSteps(a, b, tick);
    var t := Value(tick);
    if TickBetween(a, b, t) {
      var y :| OnGrid(y, t) && a <= y <= b;
      assert Value(RoundUp(a, tick)) <= y <= Value(RoundDown(b, tick));
    } else {
      assert !(Value(RoundUp(a, tick)) <= b);
    }
  }

  lemma RoundedSteps(a: real, b: real, tick: Dec)
    requires Positive(tick) && Value(tick) > 0.0
    ensures Value(RoundUp(a, tick)) <= Value(RoundDown(b, tick))
            <==> StepsAbove(a, Value(tick)) <= StepsBelow(b, Value(tick))
  {
    hide Value, StepsBelow, StepsAbove, Multiple;
    TimesValue(StepsAbove(a, Value(tick)), tick);
    TimesValue(StepsBelow(b, Value(tick)), tick);
    MultipleOrder(StepsAbove(a, Value(tick)), StepsBelow(b, Value(tick)), Value(tick));
  }

  /** Both triggers are on their sides of the price that is sent. */
  predicate Bracketed(r: Request, px: real, sl: real, tp: real) {
    if r.side == "long" then sl <= px < tp else tp < px <= sl
  }

  /** The raw prices leave room: a tick between stop and cap, and none between target and cap. */
  ghost predicate RoomForBracket(r: Request, tick: real)
    requires r.priceReference.Some? && r.maxSlippageBps.Some? && r.stopLoss.Some? && r.takeProfits != []
  {
    var stop, target := Value(r.stopLoss.value), Value(r.takeProfits[0]);
    if r.side == "long" then TickBetween(stop, Cap(r), tick) && !TickBetween(target, Cap(r), tick)
    else TickBetween(Cap(r), stop, tick) && !TickBetween(Cap(r), target, tick)
  }

  /** A market entry, with or without a stray limit price, has its bracket around the price that is
      sent exactly when the raw stop, the raw target and the slippage cap leave room for it. */
  lemma MarketBracketExactly(r: Request, rules: Rules, sha: string -> string)
    requires RulesOk(rules) && RealOpen(r) && OrderParams(r, rules, sha).Ok? && r.orderType == "market"
    ensures r.priceReference.Some? && r.maxSlippageBps.Some? && r.stopLoss.Some? && r.takeProfits != []
    ensures Bracketed(r, Px(r, rules, sha), StopPx(r, rules, sha), TargetPx(r, rules, sha))
            <==> RoomForBracket(r, Value(rules.tickSize))
  {
    hide OrderParams, OnGrid, Value, ToTick, Cap;
    RealOpenShape(r, rules, sha);
    MarketPrice(r, rules, sha);
    ToTickRounds(Value(r.stopLoss.value), ExitSide(r), rules);
    ToTickRounds(Value(r.takeProfits[0]), ExitSide(r), rules);
    var px, sl, tp := Px(r, rules, sha), StopPx(r, rules, sha), TargetPx(r, rules, sha);
    RoundedBracket(r, px, sl, tp, Cap(r), Value(r.stopLoss.value), Value(r.takeProfits[0]), Value(rules.tickSize));
  }

  /** Prices rounded towards each other meet iff there is a tick between them. */
  lemma RoundedBracket(r: Request, px: real, sl: real, tp: real, cap: real, stop: real, target: real, tick: real)
    requires r.side in {"long", "short"}
    requires RoundedFor(px, cap, if r.side == "long" then "buy" else "sell", tick)
    requires RoundedFor(sl, stop, ExitSide(r), tick) && RoundedFor(tp, target, ExitSide(r), tick)
    ensures r.side == "long" ==> (sl <= px <==> TickBetween(stop, cap, tick))
    ensures r.side == "long" ==> (tp <= px <==> TickBetween(target, cap, tick))
    ensures r.side == "short" ==> (px <= sl <==> TickBetween(cap, stop, tick))
    ensures r.side == "short" ==> (px <= tp <==> TickBetween(cap, target, tick))
  {
    hide OnGrid;
  }

  // ----- where the bracket is not checked against the price sent --------------------------

  const UNIT_RULES := Rules("BTC-USDT-SWAP", Dec(1, 0), Dec(1, 0), Dec(1, 0), Dec(1, 0))

  /** A market entry that also carries a limit price far above the market. */
  const STRAY_LIMIT := Request(
    "okx", "real", "BTCUSDT", "long", "open", "market", "id",
    Some(Dec(1, 0)), None, Some(Dec(200, 0)), None, Some(Dec(150, 0)), [Dec(300, 0)],
    Some(Dec(100, 0)), None, Some(Dec(10, 0)), None, Some("cross"), None)

  lemma WholeNumberTick(n: int)
    ensures Value(Dec(n, 0)) == n as real
    ensures OnGrid(n as real, Value(Dec(1, 0)))
  {
    assert n as real == Multiple(n, 1.0);
  }

  /** Its stop-loss is accepted although it lies above the price that is sent. */
  lemma StrayLimitBreaksBracket(sha: string -> string)
    ensures RulesOk(UNIT_RULES) && RealOpen(STRAY_LIMIT) && OrderParams(STRAY_LIMIT, UNIT_RULES, sha).Ok?
    ensures StopPx(STRAY_LIMIT, UNIT_RULES, sha) > Px(STRAY_LIMIT, UNIT_RULES, sha)
  {
    StrayLimitAccepted(sha);
    hide OrderParams, ToTick, OnGrid;
    RealOpenShape(STRAY_LIMIT, UNIT_RULES, sha);
    MarketPrice(STRAY_LIMIT, UNIT_RULES, sha);
    WholeNumberTick(150);
    ToTickRounds(150.0, "sell", UNIT_RULES);
    WholeNumberTick(100);
    WholeNumberTick(10);
  }

  /** A market entry that carries a limit price far below the market. */
  const LOW_STRAY_LIMIT := STRAY_LIMIT.(limitPrice := Some(Dec(10, 0)), stopLoss := Some(Dec(5, 0)),
                                        takeProfits := [Dec(20, 0)])

  /** Its stop-loss is where it should be, but its take-profit is accepted below both the market
      and the price that is sent. */
  lemma LowStrayLimitBreaksBracket(sha: string -> string)
    ensures RulesOk(UNIT_RULES) && RealOpen(LOW_STRAY_LIMIT) && OrderParams(LOW_STRAY_LIMIT, UNIT_RULES, sha).Ok?
    ensures StopPx(LOW_STRAY_LIMIT, UNIT_RULES, sha) <= Px(LOW_STRAY_LIMIT, UNIT_RULES, sha)
    ensures TargetPx(LOW_STRAY_LIMIT, UNIT_RULES, sha) < Value(LOW_STRAY_LIMIT.priceReference.value)
    ensures TargetPx(LOW_STRAY_LIMIT, UNIT_RULES, sha) < Px(LOW_STRAY_LIMIT, UNIT_RULES, sha)
  {
    LowStrayLimitAccepted(sha);
    hide OrderParams, ToTick, OnGrid;
    RealOpenShape(LOW_STRAY_LIMIT, UNIT_RULES, sha);
    MarketPrice(LOW_STRAY_LIMIT, UNIT_RULES, sha);
    WholeNumberTick(5);
    WholeNumberTick(20);
    ToTickRounds(5.0, "sell", UNIT_RULES);
    ToTickRounds(20.0, "sell", UNIT_RULES);
    WholeNumberTick(100);
    WholeNumberTick(10);
  }

  /** An ordinary market entry at 100 that allows a slippage of ten percent, with its target at 105. */
  const NEAR_TARGET := STRAY_LIMIT.(limitPrice := None, maxSlippageBps := Some(Dec(1000, 0)),
                                    stopLoss := Some(Dec(90, 0)), takeProfits := [Dec(105, 0)])

  /** Its target lies beyond the reference price, but not beyond the price that is sent. */
  lemma NearTargetBreaksBracket(sha: string -> string)
    ensures RulesOk(UNIT_RULES) && RealOpen(NEAR_TARGET) && OrderParams(NEAR_TARGET, UNIT_RULES, sha).Ok?
    ensures NEAR_TARGET.limitPrice.None?
    ensures var px, tp := Px(NEAR_TARGET, UNIT_RULES, sha), TargetPx(NEAR_TARGET, UNIT_RULES, sha);
            Value(NEAR_TARGET.priceReference.value) < tp < px
  {
    NearTargetAccepted(sha);
    hide OrderParams, ToTick, OnGrid;
    RealOpenShape(NEAR_TARGET, UNIT_RULES, sha);
    MarketPrice(NEAR_TARGET, UNIT_RULES, sha);
    WholeNumberTick(105);
    ToTickRounds(105.0, "sell", UNIT_RULES);
    WholeNumberTick(100);
    WholeNumberTick(1000);
    assert Cap(NEAR_TARGET) == 110.0;
    WholeNumberTick(110);
  }

  lemma NearTargetAccepted(sha: string -> string)
    ensures RulesOk(UNIT_RULES) && OrderParams(NEAR_TARGET, UNIT_RULES, sha).Ok?
  {
    hide OnGrid, Value, RoundDown, RoundUp;
    WholeNumberTick(1);
    WholeNumberTick(90);
    WholeNumberTick(100);
    WholeNumberTick(105);
    RoundingKeepsGrid(1.0, Dec(1, 0));
    RoundingKeepsGrid(90.0, Dec(1, 0));
    RoundingKeepsGrid(105.0, Dec(1, 0));
    PositiveValue(RoundDown(1.0, Dec(1, 0)));
    assert Strip("cross") == "cross" && Lower("cross") == "cross";
    var r := NEAR_TARGET;
    assert Size(r, UNIT_RULES).Ok?;
    assert AttachedBracket(r, UNIT_RULES, sha).Ok?;
  }

  lemma LowStrayLimitAccepted(sha: string -> string)
    ensures RulesOk(UNIT_RULES) && OrderParams(LOW_STRAY_LIMIT, UNIT_RULES, sha).Ok?
  {
    hide OnGrid, Value, RoundDown, RoundUp;
    WholeNumberTick(1);
    WholeNumberTick(5);
    WholeNumberTick(10);
    WholeNumberTick(20);
    RoundingKeepsGrid(1.0, Dec(1, 0));
    RoundingKeepsGrid(5.0, Dec(1, 0));
    RoundingKeepsGrid(20.0, Dec(1, 0));
    PositiveValue(RoundDown(1.0, Dec(1, 0)));
    assert Strip("cross") == "cross" && Lower("cross") == "cross";
    var r := LOW_STRAY_LIMIT;
    assert Size(r, UNIT_RULES).Ok?;
    assert AttachedBracket(r, UNIT_RULES, sha).Ok?;
  }

  lemma StrayLimitAccepted(sha: string -> string)
    ensures RulesOk(UNIT_RULES) && OrderParams(STRAY_LIMIT, UNIT_RULES, sha).Ok?
  {
    hide OnGrid, Value, RoundDown, RoundUp;
    WholeNumberTick(1);
    WholeNumberTick(150);
    WholeNumberTick(200);
    WholeNumberTick(300);
    RoundingKeepsGrid(1.0, Dec(1, 0));
    RoundingKeepsGrid(150.0, Dec(1, 0));
    RoundingKeepsGrid(300.0, Dec(1, 0));
    PositiveValue(RoundDown(1.0, Dec(1, 0)));
    assert Strip("cross") == "cross" && Lower("cross") == "cross";
    var r := STRAY_LIMIT;
    assert Size(r, UNIT_RULES).Ok?;
    assert AttachedBracket(r, UNIT_RULES, sha).Ok?;
  }

  // ----- is the price sent positive? ------------------------------------------------------

  lemma RoundedPositive(x: real, price: real, side: string, tick: real)
    requires tick > 0.0 && RoundedFor(x, price, side, tick)
    ensures x > 0.0 <==> if side == "buy" then price >= tick else price > 0.0
  {
    hide Multiple;
    FirstTicks(tick);
    hide OnGrid;
  }

  lemma SellCapSign(r: Request)
    requires r.priceReference.Some? && r.maxSlippageBps.Some? && Positive(r.priceReference.value)
    requires r.side != "long"
    ensures Cap(r) > 0.0 <==> Value(r.maxSlippageBps.value) < 10000.0
  {
    PositiveValue(r.priceReference.value);
    hide Value;
    var ref, rest := Value(r.priceReference.value), 1.0 - Value(r.maxSlippageBps.value) / 10000.0;
    ProductSign(rest, ref, Cap(r));
  }

  /** A market sell that allows a slippage of everything, or a market buy whose cap is below the
      first tick. */
  predicate SpoiltPrice(r: Request, tick: real)
    requires r.priceReference.Some? && r.maxSlippageBps.Some?
  {
    if r.side == "short" then Value(r.maxSlippageBps.value) >= 10000.0 else Cap(r) < tick
  }

  /** The price of a real opening order is positive, except exactly for a market sell of 10000 bps
      or more, and for a market buy whose cap is below the first tick. */
  lemma PositivePriceExactly(r: Request, rules: Rules, sha: string -> string)
    requires RulesOk(rules) && WellFormed(r) && RealOpen(r) && OrderParams(r, rules, sha).Ok?
    ensures r.orderType == "market" ==> r.priceReference.Some? && r.maxSlippageBps.Some?
    ensures Px(r, rules, sha) > 0.0 <==> !(r.orderType == "market" && SpoiltPrice(r, Value(rules.tickSize)))
  {
    hide OrderParams, OnGrid, Value, ToTick, Cap, RoundedFor;
    RealOpenShape(r, rules, sha);
    PositiveValue(rules.tickSize);
    var tick, side := Value(rules.tickSize), if r.side == "long" then "buy" else "sell";
    if r.orderType == "market" {
      MarketPrice(r, rules, sha);
      RoundedPositive(Px(r, rules, sha), Cap(r), side, tick);
      if r.side == "short" {
        SellCapSign(r);
      }
    } else {
      ToTickRounds(Value(r.limitPrice.value), side, rules);
      RoundedPositive(Px(r, rules, sha), Value(r.limitPrice.value), side, tick);
      PositiveValue(r.limitPrice.value);
      if r.side == "long" {
        EntryAboveTick(r, rules, sha);
      }
    }
  }

  /** The stop of a long entry is at least one tick, so what it is checked against is more. */
  lemma EntryAboveTick(r: Request, rules: Rules, sha: string -> string)
    requires RulesOk(rules) && WellFormed(r) && RealOpen(r) && OrderParams(r, rules, sha).Ok?
    requires r.side == "long" && EntryReference(r).Some?
    ensures Value(EntryReference(r).value) > Value(rules.tickSize)
  {
    hide OrderParams, OnGrid, Value, ToTick, RoundedFor;
    RealOpenShape(r, rules, sha);
    PositiveValue(rules.tickSize);
    PositiveValue(r.stopLoss.value);
    ToTickRounds(Value(r.stopLoss.value), "sell", rules);
    AtLeastATick(StopPx(r, rules, sha), Value(r.stopLoss.value), Value(rules.tickSize));
  }

  lemma AtLeastATick(x: real, price: real, tick: real)
    requires tick > 0.0 && price > 0.0 && RoundedFor(x, price, "sell", tick)
    ensures x >= tick
  {
    FirstTicks(tick);
    hide OnGrid;
  }

  /** Without a stray limit price a market buy's cap is above the first tick: its price is positive. */
  lemma MarketBuyIsPositive(r: Request, rules: Rules, sha: string -> string)
    requires RulesOk(rules) && WellFormed(r) && RealOpen(r) && OrderParams(r, rules, sha).Ok?
    requires r.orderType == "market" && r.side == "long" && r.limitPrice.None?
    ensures Px(r, rules, sha) > 0.0
  {
    hide OrderParams, OnGrid, Value, ToTick, Cap, Px;
    RealOpenShape(r, rules, sha);
    MarketPrice(r, rules, sha);
    EntryAboveTick(r, rules, sha);
    CapBeyondReference(r);
    PositivePriceExactly(r, rules, sha);
  }

  // ----- every order ----------------------------------------------------------------------

  /** The amount an order is sized by, in contracts. */
  function RawSize(r: Request, rules: Rules): Try<real>
    requires RulesOk(rules)
  {
    if r.quantity.Some? then Ok(Value(r.quantity.value)) else Contracts(r, rules)
  }

  /** The size sent is the greatest number of whole lots within the amount, and not below the
      exchange's minimum. */
  lemma SizeIsGreatestLot(r: Request, rules: Rules, sha: string -> string)
    requires RulesOk(rules) && OrderParams(r, rules, sha).Ok?
    ensures RawSize(r, rules).Ok?
    ensures var sz, raw := Value(OrderParams(r, rules, sha).value.sz), RawSize(r, rules).value;
            var lot := Value(rules.lotSize);
            && OnGrid(sz, lot) && sz <= raw < sz + lot && 0.0 < sz && Value(rules.minSize) <= sz
            && (forall y | OnGrid(y, lot) && y <= raw :: y <= sz)
  {
    hide Protection, RawPrice, TdMode, RoundDown, Value, ToTick, OnGrid, Contracts;
    RoundDownGreatest(RawSize(r, rules).value, rules.lotSize);
    PositiveValue(OrderParams(r, rules, sha).value.sz);
  }

  /** Orders that reduce can only reduce: reduce-only, on the closing side, without a bracket;
      opening orders are the other way round.  Only a plain market order goes without a price. */
  lemma SideAndEffect(r: Request, rules: Rules, sha: string -> string)
    requires RulesOk(rules) && OrderParams(r, rules, sha).Ok?
    ensures var p := OrderParams(r, rules, sha).value;
            && p.instId == rules.instId && p.tdMode in {"cross", "isolated"}
            && r.marginMode.Some? && p.tdMode == Lower(Strip(r.marginMode.value))
            && p.side == (if (r.side == "long") == (r.effect == "open") then "buy" else "sell")
            && p.ordType == (if RealOpen(r) && r.orderType == "market" then "ioc" else r.orderType)
            && (p.reduceOnly <==> r.effect != "open")
            && (p.reduceOnly ==> p.side == ExitSide(r) && p.attach.None?)
            && (p.px.None? <==> p.ordType == "market")
            && (p.ordType == "market" ==> r.orderType == "market" && !RealOpen(r))
  {
    hide Size, ToTick, AttachedBracket, SlippageCap, Strip, Lower;
    EmptyMode();
  }

  lemma EmptyMode()
    ensures Lower(Strip("")) == ""
  {
  }

  // ----- spoilt prices get through --------------------------------------------------------

  /** A market sell that allows a slippage of twice the price. */
  const SPOILT_SELL := STRAY_LIMIT.(side := "short", limitPrice := None, stopLoss := Some(Dec(200, 0)),
                                    takeProfits := [Dec(50, 0)], maxSlippageBps := Some(Dec(20000, 0)))

  /** A market buy below one tick, with a stray limit price. */
  const SPOILT_BUY := STRAY_LIMIT.(priceReference := Some(Dec(5, -1)))

  lemma SpoiltOrdersAccepted(sha: string -> string)
    ensures RulesOk(UNIT_RULES)
    ensures OrderParams(SPOILT_SELL, UNIT_RULES, sha).Ok? && OrderParams(SPOILT_BUY, UNIT_RULES, sha).Ok?
  {
    hide OnGrid, Value, RoundDown, RoundUp;
    WholeNumberTick(1);
    WholeNumberTick(50);
    WholeNumberTick(100);
    WholeNumberTick(150);
    WholeNumberTick(200);
    WholeNumberTick(300);
    RoundingKeepsGrid(1.0, Dec(1, 0));
    RoundingKeepsGrid(50.0, Dec(1, 0));
    RoundingKeepsGrid(150.0, Dec(1, 0));
    RoundingKeepsGrid(200.0, Dec(1, 0));
    RoundingKeepsGrid(300.0, Dec(1, 0));
    PositiveValue(RoundDown(1.0, Dec(1, 0)));
    assert Strip("cross") == "cross" && Lower("cross") == "cross";
    assert Size(SPOILT_SELL, UNIT_RULES).Ok? && Size(SPOILT_BUY, UNIT_RULES).Ok?;
    assert AttachedBracket(SPOILT_SELL, UNIT_RULES, sha).Ok?;
    assert AttachedBracket(SPOILT_BUY, UNIT_RULES, sha).Ok?;
  }

  /** Both are accepted: the one goes out at a negative price, the other at none. */
  lemma SpoiltPricesGetThrough(sha: string -> string)
    ensures RulesOk(UNIT_RULES) && RealOpen(SPOILT_SELL) && RealOpen(SPOILT_BUY)
    ensures OrderParams(SPOILT_SELL, UNIT_RULES, sha).Ok? && Px(SPOILT_SELL, UNIT_RULES, sha) < 0.0
    ensures OrderParams(SPOILT_BUY, UNIT_RULES, sha).Ok? && Px(SPOILT_BUY, UNIT_RULES, sha) <= 0.0
  {
    SpoiltOrdersAccepted(sha);
    hide OrderParams, ToTick, OnGrid;
    MarketPrice(SPOILT_SELL, UNIT_RULES, sha);
    MarketPrice(SPOILT_BUY, UNIT_RULES, sha);
    WholeNumberTick(1);
    WholeNumberTick(100);
    WholeNumberTick(10);
    WholeNumberTick(20000);
    assert Value(Dec(5, -1)) == 0.5;
    assert Cap(SPOILT_SELL) == -100.0;
    assert Cap(SPOILT_BUY) < 1.0;
    hide Cap, Px, Value;
    FirstTicks(1.0);
    assert Value(UNIT_RULES.tickSize) == 1.0;
    RoundedPositive(Px(SPOILT_BUY, UNIT_RULES, sha), Cap(SPOILT_BUY), "buy", 1.0);
  }
}
