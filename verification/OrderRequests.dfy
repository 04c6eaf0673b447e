/** `adapters.py`: turning a leased command into a normalized broker order request. */
module OrderRequests {
  import opened Wrappers
  import opened Texts
  import opened JsonValues
  import opened Decimals
  import opened DecimalText
  import Guards
  import Risk

  datatype Request = Request(
    provider: string, executionMode: string, symbol: string, side: string,
    effect: string, orderType: string, clientOrderId: string,
    quantity: Option<Dec>, notional: Option<Dec>,
    limitPrice: Option<Dec>, stopPrice: Option<Dec>, stopLoss: Option<Dec>,
    takeProfits: seq<Dec>, priceReference: Option<Dec>,
    timeInForce: Option<string>, maxSlippageBps: Option<Dec>,
    market: Option<string>, marginMode: Option<string>, leverage: Option<Dec>)

  /** `_optional_text`: any value but null has a text. */
  function AnyText(j: Json): Option<string> {
    if j.Null? then None else NonEmpty(Strip(PyStr(j)))
  }

  function RequiredText(j: Json): Try<string> {
    match AnyText(j)
    case None => ValueError(Missing)
    case Some(text) => Ok(text)
  }

  /** `_optional_decimal`: a finite positive amount. */
  function Amount(j: Json): Try<Option<Dec>> {
    if j.Null? || j == Str("") then Ok(None)
    else if j.Bool? then ValueError(NotNumeric)
    else match ReadDecimal(PyStr(j))
      case None => ValueError(NotNumeric)
      case Some(d) =>
        if d.coeff <= 0 then ValueError(NotPositive) else Ok(Some(d))
  }

  function Targets(items: seq<Json>): Try<seq<Dec>> {
    if items == [] then Ok([])
    else
      var before :- Targets(items[..|items| - 1]);
      var target :- Amount(items[|items| - 1]);
      if target.None? then ValueError(Missing)
      else Ok(before + [target.value])
  }

  /** `_take_profit_targets`. */
  function TakeProfits(j: Json): Try<seq<Dec>> {
    if j.Null? || j == Str("") then Ok([])
    else
      var raw := if j.Obj? then Get(j.fields, "targets") else j;
      if raw.Arr? then Targets(raw.items) else ValueError(Malformed)
  }

  /** The loop of `_take_profit_targets`: targets in order, up to the first that is none. */
  method CollectTargets(items: seq<Json>) returns (r: Try<seq<Dec>>)
    ensures r == Targets(items)
    ensures r.Ok? ==> |r.value| == |items| && forall i | 0 <= i < |items| :: Amount(items[i]) == Ok(Some(r.value[i]))
    ensures !r.Ok? ==> exists item | item in items :: !Amount(item).Ok? || Amount(item).value.None?
  {
    hide Amount;
    var targets: seq<Dec> := [];
    for i := 0 to |items|
      invariant Targets(items[..i]) == Ok(targets)
    {
      assert items[..i + 1][..i] == items[..i];
      var target := Amount(items[i]);
      if !target.Ok? || target.value.None? {
        assert items[i] in items;
        AmountPositive(items[i]);
        assert items[..i + 1][i] == items[i];
        assert Targets(items[..i + 1]).ValueError?;
        FailedPrefix(items, i + 1);
        return ValueError(if target.ValueError? then target.reason else Missing);
      }
      targets := targets + [target.value.value];
    }
    assert items[..|items|] == items;
    TargetsInOrder(items, targets);
    r := Ok(targets);
  }

  lemma {:induction false} FailedPrefix(items: seq<Json>, i: nat)
    requires i <= |items| && Targets(items[..i]).ValueError?
    ensures Targets(items) == Targets(items[..i])
  {
    if i < |items| {
      hide Amount;
      var front := items[..|items| - 1];
      assert front[..i] == items[..i];
      FailedPrefix(front, i);
    } else {
      assert items[..i] == items;
    }
  }

  function Take(s: string, n: nat): string {
    if n <= |s| then s[..n] else s
  }

  /** `deterministic_client_order_id`; `sha` is the hexadecimal SHA-256 digest. */
  function ClientOrderId(command: Fields, sha: string -> string): Try<string> {
    match AnyText(Get(command, "clientOrderId"))
    case Some(existing) => Ok(existing)
    case None =>
      var id :- RequiredText(Get(command, "id"));
      var provider := AnyText(Get(command, "provider"));
      Ok("ytm_" + Take(sha((if provider.Some? then provider.value else "unknown") + ":" + id), 32))
  }

  function OrderTypeText(j: Json): string {
    Risk.LowerText(j, "")
  }

  predicate PositiveAmount(d: Option<Dec>) {
    d.Some? ==> d.value.coeff > 0
  }

  /** What the decoders guarantee. */
  ghost predicate Decoded(r: Request) {
    && r.side in {"long", "short"}
    && r.effect in {"open", "reduce", "close"}
    && r.orderType in {"limit", "market", "stop", "stop_limit", "stop_market"}
    && PositiveAmount(r.quantity) && PositiveAmount(r.notional) && PositiveAmount(r.limitPrice)
    && PositiveAmount(r.stopPrice) && PositiveAmount(r.stopLoss) && PositiveAmount(r.priceReference)
    && PositiveAmount(r.maxSlippageBps) && PositiveAmount(r.leverage)
    && (forall t | t in r.takeProfits :: t.coeff > 0)
  }

  /** ... and `_validate_order_request` on top. */
  ghost predicate WellFormed(r: Request) {
    && Decoded(r)
    && (r.orderType in {"limit", "stop_limit"} ==> r.limitPrice.Some?)
    && (r.orderType in {"stop", "stop_limit", "stop_market"} ==> r.stopPrice.Some?)
    && (r.quantity.Some? || r.notional.Some?)
  }

  lemma {:induction false} TargetsPositive(items: seq<Json>)
    ensures Targets(items).Ok? ==> forall t | t in Targets(items).value :: t.coeff > 0
  {
    if items != [] {
      TargetsPositive(items[..|items| - 1]);
    }
  }

  /** The names a field can be given under. */
  const SYMBOL: seq<string> := ["symbol", "instrumentId", "instrument", "figi", "ticker"]
  const SIDE: seq<string> := ["side", "direction"]
  const EFFECT: seq<string> := ["positionEffect", "effect"]
  const ORDER_TYPE: seq<string> := ["orderType", "type"]
  const MARKET: seq<string> := ["market", "brokerMarket", "exchangeMarket"]
  const MARGIN_MODE: seq<string> := ["marginMode", "mgnMode", "tdMode"]
  const QUANTITY: seq<string> := ["quantity", "qty", "baseQuantity"]
  const NOTIONAL: seq<string> := ["orderNotional", "notional", "quoteQuantity"]
  const LIMIT_PRICE: seq<string> := ["price", "limitPrice"]
  const STOP_PRICE: seq<string> := ["stopPrice", "triggerPrice"]
  const STOP_LOSS: seq<string> := ["stopLoss", "stopLossTriggerPrice", "slTriggerPx"]
  const PRICE_REFERENCE: seq<string> := ["priceReference", "entryPriceReference", "markPrice"]

  /** The fields of the request, decoded one after the other. */
  function Decode(command: Fields, mode: string, sha: string -> string): Try<Request> {
    var payload := GetFields(command, "commandPayload");
    var provider :- RequiredText(Get(command, "provider"));
    var symbol :- RequiredText(Risk.First(command, payload, SYMBOL));
    var side :- RequiredText(Risk.First(command, payload, SIDE));
    if Lower(side) !in {"long", "short"} then ValueError(Unsupported) else
    var effect :- RequiredText(Risk.First(command, payload, EFFECT));
    if Lower(effect) !in {"open", "reduce", "close"} then ValueError(Unsupported) else
    var orderType := OrderTypeText(Risk.First(command, payload, ORDER_TYPE));
    if orderType !in {"limit", "market", "stop", "stop_limit", "stop_market"} then
      ValueError(Unsupported) else
    var clientOrderId :- ClientOrderId(command, sha);
    var quantity :- Amount(Risk.First(command, payload, QUANTITY));
    var notional :- Amount(Risk.First(command, payload, NOTIONAL));
    var limitPrice :- Amount(Risk.First(command, payload, LIMIT_PRICE));
    var stopPrice :- Amount(Risk.First(command, payload, STOP_PRICE));
    var stopLoss :- Amount(Risk.First(command, payload, STOP_LOSS));
    var takeProfits :- TakeProfits(Risk.First(command, payload, ["takeProfit"]));
    var priceReference :- Amount(Risk.First(command, payload, PRICE_REFERENCE));
    var maxSlippageBps :- Amount(Risk.First(command, payload, ["maxSlippageBps"]));
    var leverage :- Amount(Risk.First(command, payload, ["leverage"]));
    Ok(Request(provider, mode, Upper(symbol), Lower(side), Lower(effect), orderType, clientOrderId,
               quantity, notional, limitPrice, stopPrice, stopLoss, takeProfits, priceReference,
               AnyText(Risk.First(command, payload, ["timeInForce"])), maxSlippageBps,
               AnyText(Risk.First(command, payload, MARKET)),
               AnyText(Risk.First(command, payload, MARGIN_MODE)), leverage))
  }

  /** `build_order_request`. */
  function Build(command: Fields, mode: string, sha: string -> string): (r: Try<Request>)
    ensures !r.Crash?
    ensures r.Ok? ==> WellFormed(r.value)
    ensures r.Ok? ==> r.value.executionMode == mode
    ensures r.Ok? ==> Some(r.value.provider) == AnyText(Get(command, "provider"))
    ensures r.Ok? ==> Ok(r.value.clientOrderId) == ClientOrderId(command, sha)
  {
    DecodeWellFormed(command, mode, sha);
    if !Guards.Clean(Obj(command)) then ValueError(SecretField)
    else
      var r :- Decode(command, mode, sha);
      if r.orderType in {"limit", "stop_limit"} && r.limitPrice.None? then
        ValueError(Missing)
      else if r.orderType in {"stop", "stop_limit", "stop_market"} && r.stopPrice.None? then
        ValueError(Missing)
      else if r.quantity.None? && r.notional.None? then ValueError(Missing)
      else Ok(r)
  }

  lemma AmountPositive(j: Json)
    ensures !Amount(j).Crash?
    ensures Amount(j).Ok? ==> PositiveAmount(Amount(j).value)
  {
  }

  lemma {:induction false} TargetsNeverCrash(items: seq<Json>)
    ensures !Targets(items).Crash?
  {
    if items != [] {
      TargetsNeverCrash(items[..|items| - 1]);
      AmountPositive(items[|items| - 1]);
    }
  }

  lemma TakeProfitsPositive(j: Json)
    ensures !TakeProfits(j).Crash?
    ensures TakeProfits(j).Ok? ==> forall t | t in TakeProfits(j).value :: t.coeff > 0
  {
    hide Amount;
    var raw := if j.Obj? then Get(j.fields, "targets") else j;
    if raw.Arr? {
      TargetsNeverCrash(raw.items);
      TargetsPositive(raw.items);
    }
  }

  lemma ClientOrderIdNeverCrashes(command: Fields, sha: string -> string)
    ensures !ClientOrderId(command, sha).Crash?
  {
  }

  lemma DecodeWellFormed(command: Fields, mode: string, sha: string -> string)
    ensures var r := Decode(command, mode, sha);
            && !r.Crash?
            && (r.Ok? ==>
                  && Decoded(r.value) && r.value.executionMode == mode
                  && Some(r.value.provider) == AnyText(Get(command, "provider"))
                  && Ok(r.value.clientOrderId) == ClientOrderId(command, sha))
  {
    hide Amount, TakeProfits, ClientOrderId, OrderTypeText, Risk.First, Strip, Lower, Upper, PyStr;
    forall j ensures !Amount(j).Crash? && (Amount(j).Ok? ==> PositiveAmount(Amount(j).value)) {
      AmountPositive(j);
    }
    forall j ensures !TakeProfits(j).Crash?
             ensures TakeProfits(j).Ok? ==> forall t | t in TakeProfits(j).value :: t.coeff > 0 {
      TakeProfitsPositive(j);
    }
    ClientOrderIdNeverCrashes(command, sha);
  }

  // ----- what a request takes from its command --------------------------------------------

  /** Targets in order, one for each item, and nothing else: exactly when every item is an amount. */
  lemma {:induction false} TargetsInOrder(items: seq<Json>, targets: seq<Dec>)
    ensures Targets(items) == Ok(targets) <==>
      |targets| == |items| && forall i | 0 <= i < |items| :: Amount(items[i]) == Ok(Some(targets[i]))
  {
    hide Amount;
    if items != [] {
      var n := |items| - 1;
      TargetsNeverCrash(items);
      var front := items[..n];
      assert forall i | 0 <= i < n :: front[i] == items[i];
      if |targets| == |items| {
        TargetsInOrder(front, targets[..n]);
        assert targets == targets[..n] + [targets[n]];
      } else if Targets(front).Ok? {
        TargetsInOrder(front, Targets(front).value);
      }
    }
  }

  /** None of the names is given in the command or its payload. */
  predicate NotGiven(command: Fields, names: seq<string>) {
    forall i | 0 <= i < |names| :: !Risk.Given(command, GetFields(command, "commandPayload"), names[i])
  }

  /** Name `i` is the first that is given. */
  predicate FirstGiven(command: Fields, names: seq<string>, i: int) {
    && 0 <= i < |names| && Risk.Given(command, GetFields(command, "commandPayload"), names[i])
    && forall j | 0 <= j < i :: !Risk.Given(command, GetFields(command, "commandPayload"), names[j])
  }

  /** What the command says under a name; the payload is asked only if the command is silent. */
  function Said(command: Fields, name: string): Json {
    if name in command then command[name] else Get(GetFields(command, "commandPayload"), name)
  }

  /** An amount of the request: absent if none of its names is given, otherwise the positive number,
      or the explicit nothing, given under the first of them. */
  ghost predicate AmountUnder(value: Option<Dec>, command: Fields, names: seq<string>) {
    && (NotGiven(command, names) ==> value.None?)
    && (forall i | FirstGiven(command, names, i) ::
          var said := Said(command, names[i]);
          if said.Null? || said == Str("") then value.None?
          else !said.Bool? && value.Some? && ReadDecimal(PyStr(said)) == value && value.value.coeff > 0)
  }

  lemma AmountSaid(command: Fields, names: seq<string>)
    ensures var r := Amount(Risk.First(command, GetFields(command, "commandPayload"), names));
            r.Ok? ==> AmountUnder(r.value, command, names)
  {
    var payload := GetFields(command, "commandPayload");
    Risk.FirstIsFirst(command, payload, names);
    hide Risk.First, ReadDecimal, GetFields;
    assert NotGiven(command, names) ==> Risk.First(command, payload, names) == Null;
    assert forall i | FirstGiven(command, names, i) :: Risk.First(command, payload, names) == Said(command, names[i]);
    hide NotGiven, FirstGiven, Said;
  }

  /** The take-profit targets given, in order. */
  ghost predicate TargetsUnder(targets: seq<Dec>, command: Fields) {
    && (NotGiven(command, ["takeProfit"]) ==> targets == [])
    && (FirstGiven(command, ["takeProfit"], 0) ==>
          var said := Said(command, "takeProfit");
          if said.Null? || said == Str("") then targets == []
          else
            var raw := if said.Obj? then Get(said.fields, "targets") else said;
            && raw.Arr? && |targets| == |raw.items|
            && forall i | 0 <= i < |raw.items| :: Amount(raw.items[i]) == Ok(Some(targets[i])))
  }

  lemma TargetsSaid(command: Fields)
    ensures var r := TakeProfits(Risk.First(command, GetFields(command, "commandPayload"), ["takeProfit"]));
            r.Ok? ==> TargetsUnder(r.value, command)
  {
    var payload, names := GetFields(command, "commandPayload"), ["takeProfit"];
    Risk.FirstIsFirst(command, payload, names);
    hide Risk.First, Amount, GetFields;
    var found := Risk.First(command, payload, names);
    assert NotGiven(command, names) ==> found == Null;
    assert FirstGiven(command, names, 0) ==> found == Said(command, "takeProfit");
    hide NotGiven, FirstGiven, Said;
    var raw := if found.Obj? then Get(found.fields, "targets") else found;
    if TakeProfits(found).Ok? && raw.Arr? {
      TargetsInOrder(raw.items, TakeProfits(found).value);
    }
  }

  /** Every amount of a request is the one given under its own names. */
  ghost predicate AmountsAsSaid(r: Request, command: Fields) {
    && AmountUnder(r.quantity, command, QUANTITY)
    && AmountUnder(r.notional, command, NOTIONAL)
    && AmountUnder(r.limitPrice, command, LIMIT_PRICE)
    && AmountUnder(r.stopPrice, command, STOP_PRICE)
    && AmountUnder(r.stopLoss, command, STOP_LOSS)
    && AmountUnder(r.priceReference, command, PRICE_REFERENCE)
    && AmountUnder(r.maxSlippageBps, command, ["maxSlippageBps"])
    && AmountUnder(r.leverage, command, ["leverage"])
    && TargetsUnder(r.takeProfits, command)
  }

  /** In a request that is built, no amount comes from another field's names, a field that is not
      given is absent, and one given under several names is what the first of them says. */
  lemma RequestAmounts(command: Fields, mode: string, sha: string -> string)
    ensures Build(command, mode, sha).Ok? ==> AmountsAsSaid(Build(command, mode, sha).value, command)
  {
    hide Amount, TakeProfits, ClientOrderId, OrderTypeText, Risk.First, Strip, Lower, Upper, PyStr, Guards.Clean,
      AmountUnder, TargetsUnder;
    TargetsSaid(command);
    AmountSaid(command, QUANTITY);
    AmountSaid(command, NOTIONAL);
    AmountSaid(command, LIMIT_PRICE);
    AmountSaid(command, STOP_PRICE);
    AmountSaid(command, STOP_LOSS);
    AmountSaid(command, PRICE_REFERENCE);
    AmountSaid(command, ["maxSlippageBps"]);
    AmountSaid(command, ["leverage"]);
  }

  // ----- the client order id --------------------------------------------------------------

  /** The command has no client order id of its own, and these texts stand for it. */
  predicate NamedBy(command: Fields, provider: string, id: string) {
    && AnyText(Get(command, "clientOrderId")).None?
    && AnyText(Get(command, "provider")) == Some(provider) && AnyText(Get(command, "id")) == Some(id)
  }

  /** A client order id that the command brings along is kept. */
  lemma OwnClientOrderIdKept(command: Fields, sha: string -> string)
    ensures AnyText(Get(command, "clientOrderId")).Some? ==>
              ClientOrderId(command, sha) == Ok(AnyText(Get(command, "clientOrderId")).value)
  {
    hide AnyText;
  }

  lemma JoinedApart(provider1: string, id1: string, provider2: string, id2: string)
    requires ':' !in provider1 && ':' !in provider2
    requires provider1 + ":" + id1 == provider2 + ":" + id2
    ensures provider1 == provider2 && id1 == id2
  {
    var joined := provider1 + ":" + id1;
    FirstColon(provider1, id1, joined, |provider1|);
    FirstColon(provider2, id2, joined, |provider2|);
    assert joined[..|provider1|] == provider1 && joined[..|provider2|] == provider2;
    assert joined[|provider1| + 1..] == id1 && joined[|provider2| + 1..] == id2;
  }

  lemma FirstColon(provider: string, id: string, joined: string, n: nat)
    requires ':' !in provider && joined == provider + ":" + id && n == |provider|
    ensures n < |joined| && joined[n] == ':' && forall i | 0 <= i < n :: joined[i] != ':'
  {
    assert forall i | 0 <= i < n :: joined[i] == provider[i] && provider[i] in provider;
  }

  /** Otherwise it is made of provider and identity: commands that differ in either have different client
      order ids, if the digest separates the two in its first 32 digits.  (A provider with a colon in its
      name could be confused with another.) */
  lemma DifferentCommandsDifferentIds(command1: Fields, provider1: string, id1: string,
                                      command2: Fields, provider2: string, id2: string, sha: string -> string)
    requires NamedBy(command1, provider1, id1) && NamedBy(command2, provider2, id2)
    requires ':' !in provider1 && ':' !in provider2
    requires provider1 + ":" + id1 != provider2 + ":" + id2 ==>
               Take(sha(provider1 + ":" + id1), 32) != Take(sha(provider2 + ":" + id2), 32)
    ensures ClientOrderId(command1, sha).Ok? && ClientOrderId(command2, sha).Ok?
    ensures ClientOrderId(command1, sha) == ClientOrderId(command2, sha) <==> provider1 == provider2 && id1 == id2
  {
    hide AnyText;
    var x, y := ClientOrderId(command1, sha).value, ClientOrderId(command2, sha).value;
    assert x[4..] == Take(sha(provider1 + ":" + id1), 32) && y[4..] == Take(sha(provider2 + ":" + id2), 32);
    if provider1 + ":" + id1 == provider2 + ":" + id2 {
      JoinedApart(provider1, id1, provider2, id2);
    }
  }

  // ----- the texts of a request -----------------------------------------------------------

  /** What is said, without white space around it; nothing if it is null. */
  function SaidText(j: Json): string {
    if j.Null? then "" else Strip(PyStr(j))
  }

  /** An optional text: absent if none of its names is given, otherwise what is said under the first,
      absent if that is nothing. */
  ghost predicate TextUnder(value: Option<string>, command: Fields, names: seq<string>) {
    && (NotGiven(command, names) ==> value.None?)
    && (forall i | FirstGiven(command, names, i) ::
          if SaidText(Said(command, names[i])) == "" then value.None?
          else value == Some(SaidText(Said(command, names[i]))))
  }

  /** A required text, in some spelling: what is said under the first name that is given. */
  ghost predicate SpeltUnder(value: string, spelling: string -> string, command: Fields, names: seq<string>) {
    exists i :: FirstGiven(command, names, i) && SaidText(Said(command, names[i])) != ""
                && value == spelling(SaidText(Said(command, names[i])))
  }

  lemma FirstIsSaid(command: Fields, names: seq<string>)
    ensures NotGiven(command, names) ==> Risk.First(command, GetFields(command, "commandPayload"), names) == Null
    ensures forall i | FirstGiven(command, names, i) ::
              Risk.First(command, GetFields(command, "commandPayload"), names) == Said(command, names[i])
    ensures NotGiven(command, names) || exists i :: FirstGiven(command, names, i)
  {
    var payload := GetFields(command, "commandPayload");
    Risk.FirstIsFirst(command, payload, names);
    hide Risk.First, GetFields;
    SomeFirst(command, names, |names|);
  }

  lemma {:induction false} SomeFirst(command: Fields, names: seq<string>, n: nat)
    requires n <= |names|
    ensures (forall i | 0 <= i < n :: !Risk.Given(command, GetFields(command, "commandPayload"), names[i]))
            || exists i :: FirstGiven(command, names, i)
  {
    hide Risk.Given, GetFields;
    if n > 0 {
      SomeFirst(command, names, n - 1);
      if (forall i | 0 <= i < n - 1 :: !Risk.Given(command, GetFields(command, "commandPayload"), names[i]))
         && Risk.Given(command, GetFields(command, "commandPayload"), names[n - 1]) {
        assert FirstGiven(command, names, n - 1);
      }
    }
  }

  lemma TextSaid(command: Fields, names: seq<string>)
    ensures TextUnder(AnyText(Risk.First(command, GetFields(command, "commandPayload"), names)), command, names)
  {
    FirstIsSaid(command, names);
    hide Risk.First, GetFields, Strip, PyStr, NotGiven, FirstGiven, Said;
  }

  lemma RequiredSaid(command: Fields, names: seq<string>, spelling: string -> string)
    ensures var r := RequiredText(Risk.First(command, GetFields(command, "commandPayload"), names));
            r.Ok? ==> SpeltUnder(spelling(r.value), spelling, command, names)
  {
    FirstIsSaid(command, names);
    hide Risk.First, GetFields, Strip, PyStr, NotGiven, FirstGiven, Said;
  }

  /** The spelling of an order type: lower case, without white space around it, with "_" for "-". */
  function OrderTypeSpelling(s: string): string {
    Replace(Lower(Strip(s)), '-', '_')
  }

  /** The order type is the string given under the first of its names, so spelt. */
  ghost predicate OrderTypeUnder(value: string, command: Fields) {
    exists i :: FirstGiven(command, ORDER_TYPE, i) && Said(command, ORDER_TYPE[i]).Str?
                && value == OrderTypeSpelling(Said(command, ORDER_TYPE[i]).text)
  }

  lemma OrderTypeSaid(command: Fields)
    ensures var t := OrderTypeText(Risk.First(command, GetFields(command, "commandPayload"), ORDER_TYPE));
            t != "" ==> OrderTypeUnder(t, command)
  {
    FirstIsSaid(command, ORDER_TYPE);
    hide Risk.First, GetFields, Strip, NotGiven, FirstGiven, Said;
  }

  /** Side, effect, symbol, type, margin mode, time in force and market as the command says them. */
  ghost predicate TextsAsSaid(r: Request, command: Fields) {
    && SpeltUnder(r.side, Lower, command, SIDE)
    && SpeltUnder(r.effect, Lower, command, EFFECT)
    && SpeltUnder(r.symbol, Upper, command, SYMBOL)
    && OrderTypeUnder(r.orderType, command)
    && TextUnder(r.marginMode, command, MARGIN_MODE)
    && TextUnder(r.timeInForce, command, ["timeInForce"])
    && TextUnder(r.market, command, MARKET)
  }

  /** In a request that is built, no text comes from another field's names, or is anything but what the
      command says under its own. */
  lemma RequestTexts(command: Fields, mode: string, sha: string -> string)
    ensures Build(command, mode, sha).Ok? ==> TextsAsSaid(Build(command, mode, sha).value, command)
  {
    hide Amount, TakeProfits, ClientOrderId, OrderTypeText, Risk.First, Strip, Lower, Upper, PyStr, Guards.Clean,
      TextUnder, SpeltUnder, OrderTypeUnder, RequiredText, AnyText;
    RequiredSaid(command, SIDE, Lower);
    RequiredSaid(command, EFFECT, Lower);
    RequiredSaid(command, SYMBOL, Upper);
    OrderTypeSaid(command);
    TextSaid(command, MARGIN_MODE);
    TextSaid(command, ["timeInForce"]);
    TextSaid(command, MARKET);
  }
}
