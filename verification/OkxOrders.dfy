/** `okx_swap.py`: normalizing a request into the parameters of one OKX SWAP order. */
module OkxOrders {
  import opened Wrappers
  import opened Texts
  import opened Decimals
  import opened DecimalText
  import opened Grid
  import opened OrderRequests

  datatype Rules = Rules(instId: string, contractValue: Dec, lotSize: Dec, tickSize: Dec, minSize: Dec)

  /** What `okx_swap_instrument_rules` demands of the exchange's figures. */
  predicate RulesOk(r: Rules) {
    Positive(r.contractValue) && Positive(r.lotSize) && Positive(r.tickSize) && Positive(r.minSize)
  }

  /** The attached stop-loss and take-profit; both close at market (order price -1). */
  datatype Attach = Attach(clientId: string, stopLoss: Dec, takeProfit: Option<Dec>)

  datatype Params = Params(
    clOrdId: string, instId: string, ordType: string, side: string, sz: Dec, tdMode: string,
    reduceOnly: bool, px: Option<Dec>, attach: Option<Attach>)

  /** The text of an amount on the wire. */
  function WireText(d: Dec): string {
    if d.coeff < 0 then "-" + Text(Dec(-d.coeff, d.exp)) else Text(d)
  }

  /** `okx_swap_instrument_id`. */
  function InstrumentId(symbol: string): string {
    var s := Upper(Strip(symbol));
    if '-' in s then s
    else if EndsWith(s, "USDT") && |s| > 4 then s[..|s| - 4] + "-USDT-SWAP"
    else s
  }

  function OkxClientOrderId(clientOrderId: string, sha: string -> string): string {
    "ytm" + Take(sha(clientOrderId), 29)
  }

  function AlgoClientOrderId(clientOrderId: string, suffix: string, sha: string -> string): string {
    "ytm" + suffix + Take(sha(clientOrderId + ":" + suffix), 27)
  }

  /** `_okx_td_mode`. */
  function TdMode(marginMode: Option<string>): Try<string> {
    var mode := Lower(Strip(if marginMode.Some? then marginMode.value else ""));
    if mode in {"cross", "isolated"} then Ok(mode)
    else ValueError(Unsupported)
  }

  /** `_okx_side`. */
  function Side(r: Request): Try<string> {
    if r.side == "long" && r.effect == "open" then Ok("buy")
    else if r.side == "long" && r.effect in {"reduce", "close"} then Ok("sell")
    else if r.side == "short" && r.effect == "open" then Ok("sell")
    else if r.side == "short" && r.effect in {"reduce", "close"} then Ok("buy")
    else ValueError(Unsupported)
  }

  /** `_bounded_market_limit_price`: the worst price a market order may trade at. */
  function SlippageCap(r: Request, side: string): Try<real> {
    if r.priceReference.None? then
      ValueError(Missing)
    else if r.maxSlippageBps.None? then ValueError(Missing)
    else
      var ref := Value(r.priceReference.value);
      var slip := Value(r.maxSlippageBps.value) / 10000.0;
      Ok(Slipped(ref, if side == "buy" then 1.0 + slip else 1.0 - slip))
  }

  function Slipped(price: real, multiplier: real): real {
    price * multiplier
  }

  /** `_effective_okx_order_type`: a real market entry becomes a bounded IOC limit order. */
  function OrderType(r: Request, side: string): Try<string> {
    if r.orderType !in {"limit", "market"} then ValueError(Unsupported)
    else if r.executionMode == "real" && r.effect == "open" && r.orderType == "market" then
      var cap :- SlippageCap(r, side);
      Ok("ioc")
    else Ok(r.orderType)
  }

  /** The price a notional is converted at. */
  function ConversionPrice(r: Request): Option<Dec> {
    if r.orderType in {"limit", "stop_limit"} && r.limitPrice.Some? then r.limitPrice
    else r.priceReference
  }

  /** `_contracts_from_notional`. */
  function Contracts(r: Request, rules: Rules): Try<real>
    requires RulesOk(rules)
  {
    if r.notional.None? then ValueError(Missing)
    else if ConversionPrice(r).None? then
      ValueError(Malformed)
    else if ConversionPrice(r).value.coeff <= 0 then
      ValueError(NotPositive)
    else
      PositiveProduct(ConversionPrice(r).value, rules.contractValue);
      Ok(Value(r.notional.value) / (Value(ConversionPrice(r).value) * Value(rules.contractValue)))
  }

  lemma PositiveProduct(a: Dec, b: Dec)
    requires Positive(a) && Positive(b)
    ensures Value(a) * Value(b) > 0.0
  {
    hide Value;
    PositiveValue(a);
    PositiveValue(b);
  }

  /** `_normalized_size`. */
  function Size(r: Request, rules: Rules): Try<Dec>
    requires RulesOk(rules)
  {
    var quantity :- if r.quantity.Some? then Ok(Value(r.quantity.value)) else Contracts(r, rules);
    var size := RoundDown(quantity, rules.lotSize);
    if size.coeff <= 0 then ValueError(TooSmall)
    else if Value(size) < Value(rules.minSize) then
      ValueError(TooSmall)
    else Ok(size)
  }

  /** `_round_to_tick`: a buy rounds down, a sell rounds up. */
  function ToTick(price: real, side: string, rules: Rules): Dec
    requires RulesOk(rules)
  {
    if side == "buy" then RoundDown(price, rules.tickSize) else RoundUp(price, rules.tickSize)
  }

  /** Triggers round like the closing order: up for a long, down for a short. */
  function TriggerToTick(price: real, r: Request, rules: Rules): Try<Dec>
    requires RulesOk(rules)
  {
    if r.side == "long" then Ok(ToTick(price, "sell", rules))
    else if r.side == "short" then Ok(ToTick(price, "buy", rules))
    else ValueError(Unsupported)
  }

  /** The entry price the bracket is checked against. */
  function EntryReference(r: Request): Option<Dec> {
    if r.limitPrice.Some? then r.limitPrice else r.priceReference
  }

  /** `_okx_attached_tp_sl`, with both side checks. */
  function AttachedBracket(r: Request, rules: Rules, sha: string -> string): Try<Attach>
    requires RulesOk(rules)
  {
    if r.stopLoss.None? then ValueError(Missing)
    else
      var entry := EntryReference(r);
      var stop :- TriggerToTick(Value(r.stopLoss.value), r, rules);
      if entry.Some? && r.side == "long" && Value(stop) >= Value(entry.value) then
        ValueError(WrongSide)
      else if entry.Some? && r.side == "short" && Value(stop) <= Value(entry.value) then
        ValueError(WrongSide)
      else
        var clientId := AlgoClientOrderId(r.clientOrderId, "ps", sha);
        if r.takeProfits == [] then Ok(Attach(clientId, stop, None))
        else
          var target :- TriggerToTick(Value(r.takeProfits[0]), r, rules);
          if entry.Some? && r.side == "long" && Value(target) <= Value(entry.value) then
            ValueError(WrongSide)
          else if entry.Some? && r.side == "short" && Value(target) >= Value(entry.value) then
            ValueError(WrongSide)
          else Ok(Attach(clientId, stop, Some(target)))
  }

  /** The raw price of a limit or bounded order, before rounding. */
  function RawPrice(r: Request, side: string, ordType: string): Try<Option<real>> {
    if ordType == "ioc" && r.orderType == "market" then
      var cap :- SlippageCap(r, side);
      Ok(Some(cap))
    else if ordType in {"limit", "ioc"} then
      if r.limitPrice.None? then ValueError(Missing)
      else Ok(Some(Value(r.limitPrice.value)))
    else Ok(None)
  }

  /** The protection part of the parameters. */
  function Protection(r: Request, rules: Rules, sha: string -> string): Try<Option<Attach>>
    requires RulesOk(rules)
  {
    if r.effect != "open" then Ok(None)
    else if r.executionMode == "real" && r.stopLoss.None? then
      ValueError(Missing)
    else if r.executionMode == "real" && r.takeProfits == [] then
      ValueError(Missing)
    else if r.stopLoss.None? then Ok(None)
    else
      var attach :- AttachedBracket(r, rules, sha);
      Ok(Some(attach))
  }

  /** `okx_swap_order_params`. */
  function OrderParams(r: Request, rules: Rules, sha: string -> string): Try<Params>
    requires RulesOk(rules)
  {
    var side :- Side(r);
    var ordType :- OrderType(r, side);
    var size :- Size(r, rules);
    var tdMode :- TdMode(r.marginMode);
    var raw :- RawPrice(r, side, ordType);
    var attach :- Protection(r, rules, sha);
    Ok(Params(OkxClientOrderId(r.clientOrderId, sha), rules.instId, ordType, side, size, tdMode,
              r.effect in {"reduce", "close"},
              if raw.Some? then Some(ToTick(raw.value, side, rules)) else None,
              attach))
  }

  // ----- whose order it is ----------------------------------------------------------------

  /** Two client order ids become one at the exchange exactly when the first 29 digits of their digests
      agree; the id has at most 32 characters. */
  lemma ExchangeIdExactly(a: string, b: string, sha: string -> string)
    ensures OkxClientOrderId(a, sha) == OkxClientOrderId(b, sha) <==> Take(sha(a), 29) == Take(sha(b), 29)
    ensures |OkxClientOrderId(a, sha)| <= 32
  {
    var x, y := OkxClientOrderId(a, sha), OkxClientOrderId(b, sha);
    assert x[3..] == Take(sha(a), 29) && y[3..] == Take(sha(b), 29);
  }

  /** The same for the ids of stop-loss orders, of one kind. */
  lemma AlgoIdExactly(a: string, b: string, suffix: string, sha: string -> string)
    ensures AlgoClientOrderId(a, suffix, sha) == AlgoClientOrderId(b, suffix, sha)
            <==> Take(sha(a + ":" + suffix), 27) == Take(sha(b + ":" + suffix), 27)
  {
    var x, y := AlgoClientOrderId(a, suffix, sha), AlgoClientOrderId(b, suffix, sha);
    var n := 3 + |suffix|;
    assert x[n..] == Take(sha(a + ":" + suffix), 27) && y[n..] == Take(sha(b + ":" + suffix), 27);
  }

  /** The bracket attached to an order has an id of its own: that of another order's bracket exactly when the
      first 27 digits of their digests agree, and never that of a stop-loss placed later. */
  lemma BracketIdExactly(r: Request, rules: Rules, other: Request, otherRules: Rules, sha: string -> string)
    requires RulesOk(rules) && RulesOk(otherRules)
    requires AttachedBracket(r, rules, sha).Ok? && AttachedBracket(other, otherRules, sha).Ok?
    ensures var a, b := AttachedBracket(r, rules, sha).value, AttachedBracket(other, otherRules, sha).value;
            a.clientId == b.clientId <==>
              Take(sha(r.clientOrderId + ":ps"), 27) == Take(sha(other.clientOrderId + ":ps"), 27)
    ensures forall text :: AttachedBracket(r, rules, sha).value.clientId != AlgoClientOrderId(text, "sr", sha)
    ensures |AttachedBracket(r, rules, sha).value.clientId| <= 32
  {
    hide TriggerToTick, Value, EntryReference, RulesOk;
    BracketId(r, rules, sha);
    BracketId(other, otherRules, sha);
    AlgoIdExactly(r.clientOrderId, other.clientOrderId, "ps", sha);
    assert r.clientOrderId + ":" + "ps" == r.clientOrderId + ":ps";
    assert other.clientOrderId + ":" + "ps" == other.clientOrderId + ":ps";
    hide AttachedBracket;
    forall text ensures AlgoClientOrderId(r.clientOrderId, "ps", sha) != AlgoClientOrderId(text, "sr", sha) {
      assert AlgoClientOrderId(r.clientOrderId, "ps", sha)[3] == 'p' && AlgoClientOrderId(text, "sr", sha)[3] == 's';
    }
  }

  lemma BracketId(r: Request, rules: Rules, sha: string -> string)
    requires RulesOk(rules) && AttachedBracket(r, rules, sha).Ok?
    ensures AttachedBracket(r, rules, sha).value.clientId == AlgoClientOrderId(r.clientOrderId, "ps", sha)
  {
    hide TriggerToTick, Value, EntryReference, RulesOk, AlgoClientOrderId;
  }
}
