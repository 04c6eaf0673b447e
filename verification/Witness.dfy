/** One concrete history, to show that the state machine gets as far as the exchange: a command that
    passes every gate, whose order is accepted unheard, and which is then reported rejected. */
module Witness {
  import opened Wrappers
  import opened Texts
  import opened JsonValues
  import opened Decimals
  import opened DecimalText
  import opened Grid
  import opened OrderRequests
  import opened OkxOrders
  import opened OkxReplies
  import opened OkxProtection
  import opened OkxAdapter
  import opened Payloads
  import opened Preflight
  import opened ExecutionStore
  import opened Lifecycle
  import opened Relapse
  import OkxBracket
  import Risk
  import PolicyPersistence
  import Provenance
  import Acknowledgements
  import Guards

  // ----- objects with known fields --------------------------------------------------------

  /** A number that tells the keys of one object apart. */
  function Tag(key: string): int {
    |key| * 1000000 + (if |key| > 0 then key[0] as int * 1000 else 0) + (if |key| > 1 then key[1] as int else 0)
  }

  /** The entries come in ascending order of their tags. */
  predicate Tagged(entries: Entries) {
    forall i | 0 <= i < |entries| - 1 :: Tag(entries[i].0) < Tag(entries[i + 1].0)
  }

  lemma {:induction false} TagsAscend(entries: Entries, i: int, j: int)
    requires Tagged(entries) && 0 <= i < j < |entries|
    ensures Tag(entries[i].0) < Tag(entries[j].0)
    decreases j
  {
    hide Tag;
    if i < j - 1 {
      TagsAscend(entries, i, j - 1);
    }
  }

  /** An object built from tagged entries has each of them. */
  lemma {:induction false} TaggedGet(entries: Entries, i: int)
    requires Tagged(entries) && 0 <= i < |entries|
    ensures entries[i].0 in Guards.Build(entries) && Guards.Build(entries)[entries[i].0] == entries[i].1
  {
    var n := |entries| - 1;
    if i < n {
      var front := entries[..n];
      hide Tag;
      assert Tagged(front) by {
        assert forall k | 0 <= k < n :: front[k] == entries[k];
      }
      TaggedGet(front, i);
      TagsAscend(entries, i, n);
    }
  }

  // ----- the command ----------------------------------------------------------------------

  function CommandPayload(): Entries {
    [("adapter", Str("okx_swap_mainnet_order")), ("riskControls", Obj(map["source" := Str("ytm")]))]
  }

  function CommandEntries(): Entries {
    FirstEntries() + SecondEntries()
  }

  function FirstEntries(): Entries {
    [("id", Str("c")), ("side", Str("long")), ("price", Num("2")), ("market", Str("spot")),
     ("symbol", Str("A-B")), ("leverage", Null), ("provider", Str("okx")),
     ("quantity", Num("1")), ("stopLoss", Num("1")), ("orderType", Str("limit")),
     ("stopPrice", Null)]
  }

  function SecondEntries(): Entries {
    [("marginMode", Str("cross")), ("takeProfit", Arr([Num("3")])), ("timeInForce", Null),
     ("clientOrderId", Str("k")), ("executionMode", Str("real")), ("orderNotional", Null),
     ("commandPayload", Obj(Guards.Build(CommandPayload()))), ("maxSlippageBps", Null),
     ("positionEffect", Str("open")), ("priceReference", Null),
     ("executionAccountSource", Str("provider"))]
  }

  /** A limit order to buy one contract of A-B at 2, with its stop at 1 and its target at 3. */
  function Command(): Fields {
    Guards.Build(CommandEntries())
  }

  lemma FirstTags()
    ensures Tagged(FirstEntries()) && |FirstEntries()| == 11
    ensures Tag(FirstEntries()[10].0) < 10000000
  {
  }

  lemma SecondTags()
    ensures Tagged(SecondEntries()) && |SecondEntries()| == 11
    ensures Tag(SecondEntries()[0].0) > 10000000
  {
    hide Guards.Build, CommandPayload;
  }

  lemma CommandTagged()
    ensures Tagged(CommandEntries()) && |CommandEntries()| == 22
    ensures forall i | 0 <= i < 11 ::
              CommandEntries()[i] == FirstEntries()[i] && CommandEntries()[i + 11] == SecondEntries()[i]
  {
    FirstTags();
    SecondTags();
    hide FirstEntries, SecondEntries, Tag;
  }

  lemma FirstFields()
    ensures "id" in Command() && Command()["id"] == Str("c")
    ensures "side" in Command() && Command()["side"] == Str("long")
    ensures "price" in Command() && Command()["price"] == Num("2")
    ensures "market" in Command() && Command()["market"] == Str("spot")
    ensures "symbol" in Command() && Command()["symbol"] == Str("A-B")
    ensures "leverage" in Command() && Command()["leverage"] == Null
    ensures "provider" in Command() && Command()["provider"] == Str("okx")
    ensures "quantity" in Command() && Command()["quantity"] == Num("1")
    ensures "stopLoss" in Command() && Command()["stopLoss"] == Num("1")
    ensures "orderType" in Command() && Command()["orderType"] == Str("limit")
    ensures "stopPrice" in Command() && Command()["stopPrice"] == Null
  {
    CommandTagged();
    hide Tagged, Guards.Build, CommandEntries;
    forall i | 0 <= i < 11
      ensures FirstEntries()[i].0 in Command() && Command()[FirstEntries()[i].0] == FirstEntries()[i].1 {
      TaggedGet(CommandEntries(), i);
    }
    hide Command;
    assert FirstEntries()[0] == ("id", Str("c"));
    assert FirstEntries()[1] == ("side", Str("long"));
    assert FirstEntries()[2] == ("price", Num("2"));
    assert FirstEntries()[3] == ("market", Str("spot"));
    assert FirstEntries()[4] == ("symbol", Str("A-B"));
    assert FirstEntries()[5] == ("leverage", Null);
    assert FirstEntries()[6] == ("provider", Str("okx"));
    assert FirstEntries()[7] == ("quantity", Num("1"));
    assert FirstEntries()[8] == ("stopLoss", Num("1"));
    assert FirstEntries()[9] == ("orderType", Str("limit"));
    assert FirstEntries()[10] == ("stopPrice", Null);
  }

  lemma SecondFields()
    ensures "marginMode" in Command() && Command()["marginMode"] == Str("cross")
    ensures "takeProfit" in Command() && Command()["takeProfit"] == Arr([Num("3")])
    ensures "timeInForce" in Command() && Command()["timeInForce"] == Null
    ensures "clientOrderId" in Command() && Command()["clientOrderId"] == Str("k")
    ensures "executionMode" in Command() && Command()["executionMode"] == Str("real")
    ensures "orderNotional" in Command() && Command()["orderNotional"] == Null
    ensures "commandPayload" in Command() && Command()["commandPayload"] == Obj(Guards.Build(CommandPayload()))
    ensures "maxSlippageBps" in Command() && Command()["maxSlippageBps"] == Null
    ensures "positionEffect" in Command() && Command()["positionEffect"] == Str("open")
    ensures "priceReference" in Command() && Command()["priceReference"] == Null
    ensures "executionAccountSource" in Command() && Command()["executionAccountSource"] == Str("provider")
  {
    CommandTagged();
    hide Tagged, Guards.Build, CommandEntries, CommandPayload;
    forall i | 0 <= i < 11
      ensures SecondEntries()[i].0 in Command() && Command()[SecondEntries()[i].0] == SecondEntries()[i].1 {
      TaggedGet(CommandEntries(), i + 11);
    }
    hide Command;
    assert SecondEntries()[0] == ("marginMode", Str("cross"));
    assert SecondEntries()[1] == ("takeProfit", Arr([Num("3")]));
    assert SecondEntries()[2] == ("timeInForce", Null);
    assert SecondEntries()[3] == ("clientOrderId", Str("k"));
    assert SecondEntries()[4] == ("executionMode", Str("real"));
    assert SecondEntries()[5] == ("orderNotional", Null);
    assert SecondEntries()[6] == ("commandPayload", Obj(Guards.Build(CommandPayload())));
    assert SecondEntries()[7] == ("maxSlippageBps", Null);
    assert SecondEntries()[8] == ("positionEffect", Str("open"));
    assert SecondEntries()[9] == ("priceReference", Null);
    assert SecondEntries()[10] == ("executionAccountSource", Str("provider"));
  }

  lemma PayloadFields()
    ensures GetFields(Command(), "commandPayload") == Guards.Build(CommandPayload())
    ensures Get(Guards.Build(CommandPayload()), "adapter") == Str("okx_swap_mainnet_order")
    ensures Get(Guards.Build(CommandPayload()), "riskControls") == Obj(map["source" := Str("ytm")])
  {
    SecondFields();
    TaggedGet(CommandPayload(), 0);
    TaggedGet(CommandPayload(), 1);
    hide Command, Guards.Build;
  }

  // ----- no key looks like a secret -------------------------------------------------------

  lemma ForbiddenLengths(word: string)
    requires Guards.Forbidden(word)
    ensures |word| <= 13
    ensures |word| == 5 ==> word == "token"
  {
  }

  lemma PriceIsSafe()
    ensures Guards.SafeKey("price") && Guards.SafeKey("priceReference")
  {
    hide Guards.Forbidden;
    LettersOnly();
    hide Guards.SecretKeyToken;
    Guards.TokenLength("price");
    Guards.TokenLength("priceReference");
    if Guards.Forbidden(Guards.SecretKeyToken("price")) {
      ForbiddenLengths(Guards.SecretKeyToken("price"));
    }
    if Guards.Forbidden(Guards.SecretKeyToken("priceReference")) {
      ForbiddenLengths(Guards.SecretKeyToken("priceReference"));
    }
  }

  lemma LettersOnly()
    ensures forall c | c in "price" || c in "priceReference" :: IsAlnum(c)
    ensures Guards.SecretKeyToken("price")[0] != 't'
  {
    Guards.TokenStart("price");
    hide Guards.SecretKeyToken;
  }

  lemma FirstKeysSafe()
    ensures forall i | 0 <= i < 11 :: Guards.SafeKey(FirstEntries()[i].0) && Guards.Clean(FirstEntries()[i].1)
  {
    PriceIsSafe();
    FirstTags();
    hide Guards.SafeKey;
    forall i | 0 <= i < 11 && FirstEntries()[i].0 != "price" ensures Guards.SafeKey(FirstEntries()[i].0) {
      Guards.HarmlessIsSafe(FirstEntries()[i].0);
    }
    LeavesAreClean();
  }

  lemma PayloadKeys()
    ensures Guards.HarmlessKey("adapter") && Guards.HarmlessKey("riskControls") && Guards.HarmlessKey("source")
  {
  }

  lemma PayloadClean()
    ensures Guards.Clean(Obj(Guards.Build(CommandPayload())))
  {
    PayloadKeys();
    LeavesAreClean();
    hide Guards.SafeKey, Guards.HarmlessKey, Guards.Build;
    Guards.HarmlessIsSafe("adapter");
    Guards.HarmlessIsSafe("riskControls");
    Guards.HarmlessIsSafe("source");
    Guards.BuildIsClean(CommandPayload());
  }

  lemma SecondKeys()
    ensures Guards.HarmlessKey("marginMode")
    ensures Guards.HarmlessKey("takeProfit")
    ensures Guards.HarmlessKey("timeInForce")
    ensures Guards.HarmlessKey("clientOrderId")
    ensures Guards.HarmlessKey("executionMode")
    ensures Guards.HarmlessKey("orderNotional")
    ensures Guards.HarmlessKey("commandPayload")
    ensures Guards.HarmlessKey("maxSlippageBps")
    ensures Guards.HarmlessKey("positionEffect")
    ensures Guards.HarmlessKey("executionAccountSource")
  {
  }

  lemma SecondKeysSafe()
    ensures forall i | 0 <= i < 11 :: Guards.SafeKey(SecondEntries()[i].0) && Guards.Clean(SecondEntries()[i].1)
  {
    PriceIsSafe();
    PayloadClean();
    SecondTags();
    SecondKeys();
    LeavesAreClean();
    hide Guards.SafeKey, Guards.Build, Guards.HarmlessKey, CommandPayload;
    forall i | 0 <= i < 11 && SecondEntries()[i].0 != "priceReference" ensures Guards.SafeKey(SecondEntries()[i].0) {
      Guards.HarmlessIsSafe(SecondEntries()[i].0);
    }
  }

  lemma CommandClean()
    ensures Guards.Clean(Obj(Command()))
  {
    hide Guards.SafeKey, Guards.Clean, FirstEntries, SecondEntries;
    FirstKeysSafe();
    SecondKeysSafe();
    FirstTags();
    SecondTags();
    Guards.BuildIsClean(CommandEntries());
  }

  // ----- its request ----------------------------------------------------------------------

  function TheRequest(): Request {
    Request("okx", "real", "A-B", "long", "open", "limit", "k",
            Some(Dec(1, 0)), None, Some(Dec(2, 0)), None, Some(Dec(1, 0)), [Dec(3, 0)], None,
            None, None, Some("spot"), Some("cross"), None)
  }

  lemma Numbers()
    ensures ReadDecimal("1") == Some(Dec(1, 0)) && ReadDecimal("2") == Some(Dec(2, 0))
    ensures ReadDecimal("3") == Some(Dec(3, 0))
  {
    OneDigit("1");
    OneDigit("2");
    OneDigit("3");
    hide ReadDecimal;
  }

  lemma OneDigit(s: string)
    requires |s| == 1 && IsDigit(s[0])
    ensures ReadDecimal(s) == Some(Dec(DigitValue(s[0]), 0))
  {
    assert s[..1] == s && s[..0] == "";
    assert Stripped(s) && PointAt(s) == 1;
    ParsesOneDigit(s);
    hide Parse, Number, PointAt;
    assert ExponentAt(s) == 1;
    assert !(exists c | c in "0" :: !IsDigit(c));
  }

  lemma ParsesOneDigit(s: string)
    requires |s| == 1 && IsDigit(s[0]) && PointAt(s) == 1
    ensures Parse(s) == Some(Dec(DigitValue(s[0]), 0))
  {
    hide PointAt;
    var digits := s[..1] + s[1..];
    assert digits == s;
    assert Number(s) == 10 * Number(s[..0]) + DigitValue(s[0]);
    assert s[..0] == "" && Number("") == 0;
  }

  lemma Amounts()
    ensures Amount(Num("1")) == Ok(Some(Dec(1, 0))) && Amount(Num("2")) == Ok(Some(Dec(2, 0)))
    ensures Amount(Null) == Ok(None)
    ensures TakeProfits(Arr([Num("3")])) == Ok([Dec(3, 0)])
  {
    Numbers();
    hide ReadDecimal;
    assert Amount(Num("3")) == Ok(Some(Dec(3, 0)));
    hide Amount;
    var items := [Num("3")];
    assert items[..0] == [] && Targets(items[..0]) == Ok([]);
    assert [] + [Dec(3, 0)] == [Dec(3, 0)];
    assert Targets(items) == Ok([Dec(3, 0)]);
  }

  lemma Spelling()
    ensures Upper("A-B") == "A-B" && Lower("long") == "long" && Lower("open") == "open"
    ensures Risk.LowerText(Str("limit"), "") == "limit" && Risk.LowerText(Str("spot"), "") == "spot"
    ensures Lower("cross") == "cross"
  {
    assert Lower("limit") == "limit" && Lower("spot") == "spot";
    assert Replace("limit", '-', '_') == "limit" && Replace("spot", '-', '_') == "spot";
  }

  lemma FirstOf(command: Fields, payload: Fields, keys: seq<string>)
    requires keys != [] && keys[0] in command
    ensures Risk.First(command, payload, keys) == command[keys[0]]
  {
  }

  /** What the command says under each field's names. */
  lemma FirstNames(payload: Fields)
    ensures Risk.First(Command(), payload, ["symbol", "instrumentId", "instrument", "figi", "ticker"]) == Str("A-B")
    ensures Risk.First(Command(), payload, ["side", "direction"]) == Str("long")
    ensures Risk.First(Command(), payload, ["positionEffect", "effect"]) == Str("open")
    ensures Risk.First(Command(), payload, ["orderType", "type"]) == Str("limit")
    ensures Risk.First(Command(), payload, ["market", "brokerMarket", "exchangeMarket"]) == Str("spot")
    ensures Risk.First(Command(), payload, ["marginMode", "mgnMode", "tdMode"]) == Str("cross")
    ensures Risk.First(Command(), payload, ["timeInForce"]) == Null
  {
    FirstFields();
    SecondFields();
    hide Command, Risk.First;
    FirstOf(Command(), payload, ["symbol", "instrumentId", "instrument", "figi", "ticker"]);
    FirstOf(Command(), payload, ["side", "direction"]);
    FirstOf(Command(), payload, ["positionEffect", "effect"]);
    FirstOf(Command(), payload, ["orderType", "type"]);
    FirstOf(Command(), payload, ["market", "brokerMarket", "exchangeMarket"]);
    FirstOf(Command(), payload, ["marginMode", "mgnMode", "tdMode"]);
    FirstOf(Command(), payload, ["timeInForce"]);
  }

  lemma FirstAmounts(payload: Fields)
    ensures Risk.First(Command(), payload, ["quantity", "qty", "baseQuantity"]) == Num("1")
    ensures Risk.First(Command(), payload, ["orderNotional", "notional", "quoteQuantity"]) == Null
    ensures Risk.First(Command(), payload, ["price", "limitPrice"]) == Num("2")
    ensures Risk.First(Command(), payload, ["stopPrice", "triggerPrice"]) == Null
    ensures Risk.First(Command(), payload, ["stopLoss", "stopLossTriggerPrice", "slTriggerPx"]) == Num("1")
    ensures Risk.First(Command(), payload, ["takeProfit"]) == Arr([Num("3")])
    ensures Risk.First(Command(), payload, ["priceReference", "entryPriceReference", "markPrice"]) == Null
    ensures Risk.First(Command(), payload, ["maxSlippageBps"]) == Null
    ensures Risk.First(Command(), payload, ["leverage"]) == Null
  {
    FirstFields();
    SecondFields();
    hide Command, Risk.First;
    FirstOf(Command(), payload, ["quantity", "qty", "baseQuantity"]);
    FirstOf(Command(), payload, ["orderNotional", "notional", "quoteQuantity"]);
    FirstOf(Command(), payload, ["price", "limitPrice"]);
    FirstOf(Command(), payload, ["stopPrice", "triggerPrice"]);
    FirstOf(Command(), payload, ["stopLoss", "stopLossTriggerPrice", "slTriggerPx"]);
    FirstOf(Command(), payload, ["takeProfit"]);
    FirstOf(Command(), payload, ["priceReference", "entryPriceReference", "markPrice"]);
    FirstOf(Command(), payload, ["maxSlippageBps"]);
    FirstOf(Command(), payload, ["leverage"]);
  }

  lemma CommandTexts()
    ensures RequiredText(Get(Command(), "provider")) == Ok("okx")
    ensures AnyText(Get(Command(), "clientOrderId")) == Some("k")
    ensures RequiredText(Str("A-B")) == Ok("A-B") && RequiredText(Str("long")) == Ok("long")
    ensures RequiredText(Str("open")) == Ok("open")
    ensures AnyText(Null) == None && AnyText(Str("spot")) == Some("spot") && AnyText(Str("cross")) == Some("cross")
  {
    FirstFields();
    SecondFields();
    hide Command;
  }

  lemma Decodes(sha: string -> string)
    ensures Decode(Command(), "real", sha) == Ok(TheRequest())
  {
    var payload := GetFields(Command(), "commandPayload");
    FirstNames(payload);
    FirstAmounts(payload);
    CommandTexts();
    Amounts();
    Spelling();
    hide Command, Risk.First, Amount, TakeProfits, RequiredText, AnyText, Upper, Lower, GetFields, Risk.LowerText;
  }

  lemma BuildsRequest(sha: string -> string)
    ensures Build(Command(), "real", sha) == Ok(TheRequest())
  {
    CommandClean();
    Decodes(sha);
    hide Command, Decode, Guards.Clean;
  }

  // ----- the host -------------------------------------------------------------------------

  function ThePolicy(): Risk.Policy {
    Risk.Policy(true, true, false, false, None, None, map[])
  }

  /** A validation of the exchange's credentials, made at the moment of the preflight. */
  function TheValidation(): Summary {
    Summary(Obj(map["provider" := Str("okx"), "status" := Str("passed"),
                    "permissions" := Obj(map["accountReadable" := Bool(true)])]), Some(0))
  }

  function Host(): Local {
    Local({"okx"},
          Ok(map["apiKey" := Str("a"), "apiSecret" := Str("b"), "passphrase" := Str("c")]),
          [TheValidation()], 0, "0001-01-01", true)
  }

  lemma PolicyWritten()
    ensures Risk.WritePolicy(ThePolicy()).Ok?
    ensures Risk.ReadPolicy(Risk.WritePolicy(ThePolicy()).value) == Ok(ThePolicy())
  {
    PolicyPersistence.NoAppLimitsOk();
    PolicyPersistence.PolicyRoundTrip(ThePolicy());
    hide Risk.ReadPolicy, Risk.WritePolicy;
  }

  lemma ValidationFresh()
    ensures ValidationBlock("okx", Host().validations, 0) == None
  {
    var summaries := Host().validations;
    var body := TheValidation().body.fields;
    assert body["provider"] == Str("okx") && body["status"] == Str("passed");
    assert body["permissions"] == Obj(map["accountReadable" := Bool(true)]);
    assert Decides(summaries, "okx", 0) && Fresh(summaries[0], 0);
    hide Decides, Fresh, ValidationBlock, TheValidation;
    ValidationExactly("okx", summaries, 0);
  }

  lemma CommandAddress()
    ensures Provider(Command()) == "okx" && Mode(Command()) == "real"
    ensures PlainText(Get(Command(), "executionAccountSource")) == "provider"
  {
    FirstFields();
    SecondFields();
    hide Command;
  }

  lemma AddressPasses()
    ensures AddressBlock(Command(), Host()).None?
  {
    CommandClean();
    CommandAddress();
    ValidationFresh();
    hide Command, Guards.Clean, ValidationBlock, Provider, Mode, PlainText, TheValidation;
  }

  lemma AdapterNamed()
    ensures OrderAdapter(AdapterName(Command()))
  {
    PayloadFields();
    hide Command, Guards.Build, CommandPayload, GetFields, Get;
  }

  lemma RiskPasses()
    ensures Risk.Evaluate(Command(), "real", ThePolicy(), Risk.EMPTY_STATE, Host().today).Passed?
  {
    PayloadFields();
    FirstNames(GetFields(Command(), "commandPayload"));
    Spelling();
    hide Command, Guards.Build, CommandPayload, Risk.First, Risk.LowerText, Risk.Evaluate;
    var payload := GetFields(Command(), "commandPayload");
    assert Risk.Attested(payload);
    assert Risk.Market(Command(), payload) == "spot";
    hide GetFields;
    Risk.GateExactly(Command(), ThePolicy(), Risk.EMPTY_STATE, Host().today);
  }

  lemma SecretsReady()
    ensures AdapterReady(Provider(Command()), Host().secret).Ok?
  {
    CommandAddress();
    hide Command, TheValidation, Provider;
    var keys := Host().secret.value;
    assert keys["apiKey"] == Str("a") && keys["apiSecret"] == Str("b") && keys["passphrase"] == Str("c");
  }

  lemma GatesPass(sha: string -> string)
    ensures FirstGate(Command(), Host(), ThePolicy(), Risk.EMPTY_STATE, sha) == ForOrder(TheRequest())
    ensures FinalGate(Command(), Host(), Ok(ThePolicy()), Risk.EMPTY_STATE, TheRequest()).ForOrder?
  {
    hide Command, Host, TheRequest, FirstGate, FinalGate, AddressBlock, AdapterName, Risk.Evaluate, AdapterReady, Build,
      OrderAdapter, Provider;
    AddressPasses();
    AdapterNamed();
    RiskPasses();
    SecretsReady();
    BuildsRequest(sha);
    CommandAddress();
    HostEnabled();
    FirstGateExactly(Command(), Host(), ThePolicy(), Risk.EMPTY_STATE, TheRequest(), sha);
    FinalGateExactly(Command(), Host(), Ok(ThePolicy()), Risk.EMPTY_STATE, TheRequest());
  }

  lemma HostEnabled()
    ensures Host().ordersEnabled
  {
  }

  // ----- the way to the adapter -----------------------------------------------------------

  /** Nothing has happened yet; the policy is on disk. */
  function Beginning(): World
    requires Risk.WritePolicy(ThePolicy()).Ok?
  {
    World(0, Risk.WritePolicy(ThePolicy()).value, None, Absent, map[], Idle, [], [], [], [], [])
  }

  lemma NothingStored()
    ensures Find(Absent, "c") == Ok(None)
  {
  }

  ghost predicate PassedFirst(w: World, before: World) {
    && w.phase.Screened? && w.policy == before.policy && w.phase.screen.request == TheRequest()
    && w.phase.screen.attempt.command == Command() && w.phase.screen.state == Risk.EMPTY_STATE
    && w.phase.screen.local == Host()
  }

  /** The command passes the first gate. */
  lemma PassesFirstGate(w: World, sha: string -> string)
    requires w.time == 0 && w.phase.Idle? && w.store.Absent? && w.risk.None?
    requires Risk.ReadPolicy(w.policy) == Ok(ThePolicy())
    ensures PassedFirst(Next(Next(Next(Next(w, Lease(Command()), sha), LoadPolicy, sha), LoadState, sha),
                               Screening(Host()), sha), w)
  {
    GatesPass(sha);
    FirstFields();
    NothingStored();
    hide Command, Host, TheRequest, FirstGate, FinalGate, Risk.WritePolicy, Risk.ReadPolicy, Find, ThePolicy, OnReload,
      OnCallOkx, OnCallOther, OnSave, OnDeliver;
    var attempt := Attempt(Command(), "c");
    var w1 := Next(w, Lease(Command()), sha);
    assert w1 == w.(time := 1, phase := Missed(attempt));
    var w2 := Next(w1, LoadPolicy, sha);
    assert w2 == w1.(time := 2, phase := PolicyKnown(attempt, ThePolicy(), 1));
    var w3 := Next(w2, LoadState, sha);
    assert w3 == w2.(time := 3, phase := StateKnown(attempt, ThePolicy(), 1, Risk.EMPTY_STATE, 2));
  }

  lemma PassesSecondGate(w: World, before: World, sha: string -> string)
    requires PassedFirst(w, before) && Risk.ReadPolicy(before.policy) == Ok(ThePolicy())
    ensures IsCleared(Next(w, Reload, sha))
  {
    GatesPass(sha);
    hide Command, Host, TheRequest, FirstGate, FinalGate, Risk.WritePolicy, Risk.ReadPolicy, ThePolicy, OnLease,
      OnLoadPolicy, OnLoadState, OnScreening, OnCallOkx, OnCallOther, OnSave, OnDeliver;
  }

  ghost predicate IsCleared(w: World) {
    w.phase.Cleared? && w.phase.screen.request == TheRequest()
  }

  /** The command gets through to the adapter. */
  lemma ReachesAdapter(sha: string -> string)
    requires Risk.WritePolicy(ThePolicy()).Ok?
    ensures IsCleared(Exec(Beginning(), Climb(Command(), Host()), sha))
  {
    hide Command, Host, TheRequest, Risk.WritePolicy, Risk.ReadPolicy, Exec, ThePolicy, Next, PassedFirst, IsCleared;
    PolicyWritten();
    var w := Beginning();
    PassesFirstGate(w, sha);
    var w4 := Next(Next(Next(Next(w, Lease(Command()), sha), LoadPolicy, sha), LoadState, sha), Screening(Host()), sha);
    PassesSecondGate(w4, w, sha);
    FiveSteps(w, Lease(Command()), LoadPolicy, LoadState, Screening(Host()), Reload, sha);
  }

  lemma FiveSteps(w: World, a: Event, b: Event, c: Event, d: Event, e: Event, sha: string -> string)
    ensures Exec(w, [a, b, c, d, e], sha) == Next(Next(Next(Next(Next(w, a, sha), b, sha), c, sha), d, sha), e, sha)
  {
    hide Exec, Next;
    ExecNothing(w, sha);
    ExecNext(w, [], a, sha);
    ExecNext(w, [a], b, sha);
    ExecNext(w, [a, b], c, sha);
    ExecNext(w, [a, b, c], d, sha);
    ExecNext(w, [a, b, c, d], e, sha);
    assert [] + [a] == [a] && [a] + [b] == [a, b] && [a, b] + [c] == [a, b, c];
    assert [a, b, c] + [d] == [a, b, c, d] && [a, b, c, d] + [e] == [a, b, c, d, e];
  }

  // ----- the exchange ---------------------------------------------------------------------

  function InstrumentEntries(): Entries {
    [("ctVal", Num("1")), ("lotSz", Num("1")), ("minSz", Num("1")), ("state", Str("live")), ("instId", Str("A-B")),
     ("tickSz", Num("1")), ("instType", Str("SWAP"))]
  }

  function OneRow(row: Fields): Answer {
    Reply(Obj(map["code" := Str("0"), "data" := Arr([Obj(row)])]))
  }

  function Declining(): Answer {
    Reply(Obj(map["code" := Str("1")]))
  }

  function AccountRow(): Fields {
    map["acctLv" := Str("2"), "posMode" := Str("net_mode")]
  }

  /** Futures mode, a known instrument, no such order yet; the order is accepted. */
  function Accepting(place: Answer): Answers {
    Answers(OneRow(AccountRow()), OneRow(Guards.Build(InstrumentEntries())),
            Raised, Raised, Declining(), true, "1", place, [], Raised, Raised)
  }

  /** The answer to placing it never arrives ... */
  function Lost(): Answers {
    Accepting(Raised)
  }

  /** ... or it arrives, but is no acceptance. */
  function Malformed(): Answers {
    Accepting(Reply(Null))
  }

  /** The account cannot be read. */
  function Refusing(): Answers {
    Lost().(config := Declining())
  }

  function TheRules(): Rules {
    Rules("A-B", Dec(1, 0), Dec(1, 0), Dec(1, 0), Dec(1, 0))
  }

  lemma OneRowRead(row: Fields)
    requires Guards.Clean(Obj(row))
    ensures ResponseData(OneRow(row)) == Ok([row])
  {
    var body := OneRow(row).body.fields;
    assert body["code"] == Str("0") && body["data"] == Arr([Obj(row)]);
    var data := Arr([Obj(row)]);
    assert Guards.Clean(data);
    hide Guards.Clean;
    assert AllObjects(data.items);
    assert FieldsOf(data.items) == [row];
  }

  lemma DecliningRead()
    ensures ResponseData(Declining()).ValueError?
  {
    var body := Declining().body.fields;
    assert body["code"] == Str("1");
  }

  lemma AccountRowClean()
    ensures Guards.Clean(Obj(AccountRow()))
  {
    AccountKeysSafe();
    LeavesAreClean();
    hide Guards.SafeKey;
  }

  lemma AccountRowAccepted()
    ensures AccountConfig([AccountRow()]) == Ok(Account("2", "net_mode"))
  {
    var row := AccountRow();
    assert row["acctLv"] == Str("2") && row["posMode"] == Str("net_mode");
  }

  lemma AccountRead(place: Answer)
    ensures AccountAnswer(Accepting(place)) == Ok(Account("2", "net_mode"))
  {
    hide ResponseData, OneRow, Guards.Clean, AccountRow, AccountConfig, InstrumentEntries;
    AccountRowClean();
    AccountRowAccepted();
    OneRowRead(AccountRow());
  }

  lemma AccountKeysSafe()
    ensures Guards.SafeKey("acctLv") && Guards.SafeKey("posMode")
  {
    OrderKeys();
    hide Guards.HarmlessKey, Guards.SafeKey;
    Guards.HarmlessIsSafe("acctLv");
    Guards.HarmlessIsSafe("posMode");
  }

  lemma InstrumentTags()
    ensures Tagged(InstrumentEntries()) && |InstrumentEntries()| == 7
  {
  }

  lemma InstrumentFields()
    ensures var row := Guards.Build(InstrumentEntries());
            && Get(row, "ctVal") == Num("1") && Get(row, "lotSz") == Num("1") && Get(row, "minSz") == Num("1")
            && Get(row, "tickSz") == Num("1") && Get(row, "state") == Str("live") && Get(row, "instId") == Str("A-B")
            && Get(row, "instType") == Str("SWAP")
  {
    InstrumentTags();
    hide Tagged, Guards.Build;
    var entries := InstrumentEntries();
    var row := Guards.Build(entries);
    forall i | 0 <= i < 7 ensures entries[i].0 in row && row[entries[i].0] == entries[i].1 {
      TaggedGet(entries, i);
    }
    assert entries[0] == ("ctVal", Num("1")) && entries[1] == ("lotSz", Num("1")) && entries[2] == ("minSz", Num("1"));
    assert entries[3] == ("state", Str("live")) && entries[4] == ("instId", Str("A-B"));
    assert entries[5] == ("tickSz", Num("1")) && entries[6] == ("instType", Str("SWAP"));
  }

  lemma InstrumentKeys()
    ensures Guards.HarmlessKey("ctVal") && Guards.HarmlessKey("lotSz") && Guards.HarmlessKey("minSz")
    ensures Guards.HarmlessKey("state") && Guards.HarmlessKey("instId") && Guards.HarmlessKey("tickSz")
    ensures Guards.HarmlessKey("instType")
  {
  }

  lemma InstrumentClean()
    ensures Guards.Clean(Obj(Guards.Build(InstrumentEntries())))
  {
    InstrumentKeys();
    LeavesAreClean();
    hide Guards.HarmlessKey, Guards.Clean, Guards.Build;
    EntriesClean(InstrumentEntries());
  }

  lemma Figures()
    ensures PositiveFigure(Num("1")) == Ok(Dec(1, 0))
  {
    Numbers();
    hide ReadDecimal;
  }

  lemma InstrumentSpelling()
    ensures InstrumentId("A-B") == "A-B" && Upper("SWAP") == "SWAP" && Lower("live") == "live"
    ensures RequiredString(Str("A-B")) == Ok("A-B") && RequiredString(Str("SWAP")) == Ok("SWAP")
    ensures RequiredString(Str("live")) == Ok("live")
  {
    Spelling();
    assert '-' in "A-B" by {
      assert "A-B"[1] == '-';
    }
  }

  lemma RulesRow()
    ensures var row := Guards.Build(InstrumentEntries());
            NamesInstrument(row, "A-B") && RulesOf(row) == Ok(TheRules())
  {
    InstrumentFields();
    Figures();
    InstrumentSpelling();
    Spelling();
    hide Guards.Build, InstrumentEntries, PositiveFigure, RequiredString, InstrumentId, Upper, Lower, Get;
  }

  lemma OnlyRow(row: Fields)
    requires NamesInstrument(row, InstrumentId("A-B"))
    ensures InstrumentRules([row], "A-B") == RulesOf(row)
  {
    hide NamesInstrument, RulesOf, InstrumentId;
  }

  lemma RulesRead(place: Answer)
    ensures RulesAnswer(TheRequest(), Accepting(place)) == Ok(TheRules())
  {
    hide ResponseData, OneRow, Guards.Build, Guards.Clean, InstrumentEntries, InstrumentId, NamesInstrument, RulesOf,
      InstrumentRules, TheRules, AccountRow;
    InstrumentClean();
    InstrumentSpelling();
    RulesRow();
    OneRowRead(Guards.Build(InstrumentEntries()));
    OnlyRow(Guards.Build(InstrumentEntries()));
  }

  /** The order the request normalizes to. */
  lemma OrderIsWellFormed(sha: string -> string)
    ensures RulesOk(TheRules()) && OrderParams(TheRequest(), TheRules(), sha).Ok?
  {
    hide OnGrid, Value, RoundDown, RoundUp;
    OkxBracket.WholeNumberTick(1);
    OkxBracket.WholeNumberTick(2);
    OkxBracket.WholeNumberTick(3);
    RoundingKeepsGrid(1.0, Dec(1, 0));
    RoundingKeepsGrid(2.0, Dec(1, 0));
    RoundingKeepsGrid(3.0, Dec(1, 0));
    PositiveValue(RoundDown(1.0, Dec(1, 0)));
    assert Strip("cross") == "cross" && Lower("cross") == "cross";
    var r := TheRequest();
    assert Size(r, TheRules()).Ok?;
    assert AttachedBracket(r, TheRules(), sha).Ok?;
  }

  lemma OrderGoesOut(place: Answer, sha: string -> string)
    ensures ToPlace(TheRequest(), Accepting(place), sha).Some?
    ensures Lookup(Accepting(place).lookup) == Ok(None)
  {
    AccountRead(place);
    RulesRead(place);
    OrderIsWellFormed(sha);
    DecliningRead();
    hide AccountAnswer, RulesAnswer, OrderParams, ResponseData, OneRow, InstrumentEntries, InstrumentId, RulesOk,
      TheRules;
    assert Lookup(Accepting(place).lookup) == Ok(None);
    assert PassGates(TheRequest(), Accepting(place), sha).outcome.Ok?;
  }

  // ----- the history ----------------------------------------------------------------------

  lemma RefusingFails()
    ensures AccountAnswer(Refusing()).ValueError?
  {
    DecliningRead();
    hide ResponseData, Declining, OneRow, AccountRow, InstrumentEntries, Guards.Build;
  }

  lemma LostIsUnheard(sha: string -> string)
    requires Risk.WritePolicy(ThePolicy()).Ok?
    ensures AcceptedUnheard(Beginning(), Command(), Host(), Lost(), sha)
  {
    hide Exec, Command, Host, ToPlace, ThePolicy, TheRequest, Climb, OneRow, Declining, AccountRow, InstrumentEntries,
      Risk.WritePolicy;
    ReachesAdapter(sha);
    OrderGoesOut(Raised, sha);
  }

  lemma BeginsAtStart()
    requires Risk.WritePolicy(ThePolicy()).Ok?
    ensures Start(Beginning())
  {
    hide ThePolicy, Risk.WritePolicy;
  }

  /** The history as a whole. */
  function History(): seq<Event> {
    AcceptedThenRefused(Command(), Host(), Lost(), Refusing(), "now")
  }

  ghost predicate AcceptedYetRejected(sha: string -> string) {
    hide *;
    && Risk.WritePolicy(ThePolicy()).Ok? && Start(Beginning())
    && RejectedThoughAccepted(Exec(Beginning(), History(), sha), Command())
  }

  /** The promise fails on a concrete history: the order of this command is in the exchange's book,
      and the command is reported rejected. */
  lemma AcceptedOrderIsReportedRejected(sha: string -> string)
    ensures AcceptedYetRejected(sha)
  {
    hide Exec, Command, Host, Lost, Refusing, Start, RejectedThoughAccepted, AcceptedThenRefused, ThePolicy,
      AcceptedUnheard, AccountAnswer, Beginning, Risk.WritePolicy, Risk.ReadPolicy;
    PolicyWritten();
    BeginsAtStart();
    RefusingFails();
    LostIsUnheard(sha);
    AcceptedThenRejected(Beginning(), Command(), Host(), Lost(), Refusing(), "now", sha);
  }

  // ----- rejected in the very attempt -----------------------------------------------------

  lemma MalformedAnswer()
    ensures Acknowledgements.MalformedAcceptance(Malformed())
  {
    hide OneRow, Declining, AccountRow, InstrumentEntries, Guards.Build;
    assert ResponseData(Reply(Null)).ValueError?;
    hide ResponseData;
  }

  /** An order accepted in this step, by a faithful exchange that has not seen it before, is rejected
      in this step. */
  lemma AcceptedStepRejected(w: World, sha: string -> string)
    requires IsCleared(w) && w.book == map[]
    ensures NeverTwice(w, CallOkx(Malformed()), sha) && Faithful(w, CallOkx(Malformed()), sha)
    ensures Acknowledgements.EndsRejected(Next(w, CallOkx(Malformed()), sha))
    ensures Entered(w, Next(w, CallOkx(Malformed()), sha))
  {
    MalformedAnswer();
    OrderGoesOut(Reply(Null), sha);
    AcceptingAccepts(Reply(Null));
    hide Next, ToPlace, Malformed, Lookup, PassGates, TheRequest, AfterAdapter, PrepareOrder, KeyOf, Provider,
      PlaceAnswer,
      OrdId;
    var answers := Malformed();
    assert answers == Accepting(Reply(Null)) by {
      MalformedIs();
    }
    hide Accepting;
    OkxStep(w, answers, sha);
    Acknowledgements.AcceptedStepRejectedExactly(w, answers, sha);
  }

  lemma MalformedIs()
    ensures Malformed() == Accepting(Reply(Null))
  {
  }

  lemma AcceptingAccepts(place: Answer)
    ensures Accepting(place).accepted
  {
  }

  /** The attempt's order is in the book. */
  ghost predicate Entered(w: World, next: World) {
    && w.phase.Cleared? && |next.accepted| == |w.accepted| + 1
    && next.accepted[|w.accepted|].attempt == w.phase.screen.attempt
    && next.accepted[|w.accepted|].key in next.book
  }

  /** The whole lease: gates, adapter, store, report. */
  function MalformedHistory(): seq<Event> {
    Climb(Command(), Host()) + [CallOkx(Malformed())] + [Save("now")] + [Deliver]
  }

  /** Throughout the history the exchange is as good as is ever assumed; and still. */
  ghost predicate RejectedAtOnce(sha: string -> string) {
    hide *;
    && Risk.WritePolicy(ThePolicy()).Ok? && Start(Beginning())
    && NeverTwiceThroughout(Beginning(), MalformedHistory(), sha)
    && FaithfulThroughout(Beginning(), MalformedHistory(), sha)
    && RejectedThoughAccepted(Exec(Beginning(), MalformedHistory(), sha), Command())
  }

  /** The adapter is called once, and only there is anything assumed. */
  lemma OneCallAssumed(w: World, answers: Answers, sha: string -> string)
    requires var cleared := Exec(w, Climb(Command(), Host()), sha);
             NeverTwice(cleared, CallOkx(answers), sha) && Faithful(cleared, CallOkx(answers), sha)
    ensures var es := Climb(Command(), Host()) + [CallOkx(answers)] + [Save("now")] + [Deliver];
            NeverTwiceThroughout(w, es, sha) && FaithfulThroughout(w, es, sha)
  {
    hide Exec, Command, Host, TruthfulLookup, RefusesDuplicate, AttemptKey, Lookup, PlaceAnswer, OrdId;
    var climb := Climb(Command(), Host());
    var es := climb + [CallOkx(answers)] + [Save("now")] + [Deliver];
    assert es[..5] == climb && es[5] == CallOkx(answers);
    forall i | 0 <= i < |es|
      ensures NeverTwice(Exec(w, es[..i], sha), es[i], sha) && Faithful(Exec(w, es[..i], sha), es[i], sha) {
      if i != 5 {
        assert !es[i].CallOkx?;
      }
    }
  }

  lemma EnteredIsDecidedAgainst(w: World, next: World)
    requires IsCleared(w) && w.phase.screen.attempt.command == Command()
    requires Acknowledgements.EndsRejected(next) && Entered(w, next)
    requires next.phase.attempt == w.phase.screen.attempt
    ensures DecidedAgainst(next, Command())
  {
    hide Command;
  }

  lemma RejectedStepFor(w: World, answers: Answers, sha: string -> string)
    requires w.phase.Cleared? && Acknowledgements.EndsRejected(Next(w, CallOkx(answers), sha))
    ensures Next(w, CallOkx(answers), sha).phase.attempt == w.phase.screen.attempt
  {
    hide Next, ToPlace, KeyOf, AfterAdapter, PrepareOrder, Provider;
    OkxStep(w, answers, sha);
  }

  /** A concrete lease of one command: the exchange accepts the order, answers with something that is
      no acceptance, and the command is reported rejected, with the order in the book. */
  lemma MalformedAnswerIsReportedRejected(sha: string -> string)
    ensures RejectedAtOnce(sha)
  {
    hide Exec, Next, Command, Host, Malformed, Start, RejectedThoughAccepted, ThePolicy, NeverTwice, Faithful, Climb,
      NeverTwiceThroughout, FaithfulThroughout, IsCleared, Entered, DecidedAgainst, For, Risk.WritePolicy,
      Risk.ReadPolicy,
      Acknowledgements.EndsRejected;
    PolicyWritten();
    BeginsAtStart();
    ReachesAdapter(sha);
    var climb, call := Climb(Command(), Host()), CallOkx(Malformed());
    var cleared := Exec(Beginning(), climb, sha);
    ClearedForCommand(sha);
    AcceptedStepRejected(cleared, sha);
    OneCallAssumed(Beginning(), Malformed(), sha);
    RejectedStepFor(cleared, Malformed(), sha);
    var next := Next(cleared, call, sha);
    EnteredIsDecidedAgainst(cleared, next);
    DeliverRefusal(next, Command(), "now", sha);
    ExecNext(Beginning(), climb, call, sha);
    ExecNext(Beginning(), climb + [call], Save("now"), sha);
    ExecNext(Beginning(), climb + [call] + [Save("now")], Deliver, sha);
  }

  lemma ClearedForCommand(sha: string -> string)
    requires Risk.WritePolicy(ThePolicy()).Ok? && IsCleared(Exec(Beginning(), Climb(Command(), Host()), sha))
    ensures var cleared := Exec(Beginning(), Climb(Command(), Host()), sha);
            cleared.phase.Cleared? && cleared.book == map[] && cleared.phase.screen.attempt.command == Command()
  {
    hide Exec, Command, Host, Climb, ThePolicy, TheRequest, Risk.WritePolicy;
    ClimbReads(Command(), Host());
    ClimbFor(Beginning(), Climb(Command(), Host()), Command(), sha);
    ReadingRun(Beginning(), Climb(Command(), Host()), sha);
  }

  // ----- a kill switch that comes too late ------------------------------------------------

  function Killed(): Risk.Policy {
    ThePolicy().(killSwitch := true)
  }

  lemma KilledWritten()
    ensures Risk.WritePolicy(Killed()).Ok?
    ensures Risk.ReadPolicy(Risk.WritePolicy(Killed()).value) == Ok(Killed())
    ensures !Risk.Live(Killed())
  {
    PolicyPersistence.NoAppLimitsOk();
    PolicyPersistence.PolicyRoundTrip(Killed());
    hide Risk.ReadPolicy, Risk.WritePolicy;
  }

  /** The command is cleared for the exchange; then the operator sets the kill switch. */
  function UntilKilled(): seq<Event>
    requires Risk.WritePolicy(Killed()).Ok?
  {
    Climb(Command(), Host()) + [EditPolicy(Risk.WritePolicy(Killed()).value)]
  }

  /** The policy on disk is stopped, no order has gone out; and with the next event one does. */
  ghost predicate PlacedUnderKillSwitch(sha: string -> string) {
    hide *;
    && Risk.WritePolicy(ThePolicy()).Ok? && Risk.WritePolicy(Killed()).Ok? && Start(Beginning())
    && var stopped := Exec(Beginning(), UntilKilled(), sha);
    var after := Exec(Beginning(), UntilKilled() + [CallOkx(Lost())], sha);
    && Provenance.Stopped(stopped) && stopped.placements == []
    && Provenance.Stopped(after) && |after.placements| == 1 && Entered(stopped, after)
  }

  lemma KilledStep(cleared: World, file: JsonFile, sha: string -> string)
    requires IsCleared(cleared) && cleared.placements == []
    requires Risk.ReadPolicy(file) == Ok(Killed())
    ensures var stopped := Next(cleared, EditPolicy(file), sha);
            && IsCleared(stopped) && stopped.placements == [] && Provenance.Stopped(stopped)
  {
    KilledWritten();
    hide Next, TheRequest, Risk.ReadPolicy, Killed, Risk.Live, Risk.WritePolicy;
    StepFrame(cleared, EditPolicy(file), sha);
    Provenance.StaysCleared(cleared, EditPolicy(file), sha);
  }

  lemma PlacedAllTheSame(stopped: World, sha: string -> string)
    requires IsCleared(stopped) && stopped.placements == [] && Provenance.Stopped(stopped)
    ensures var after := Next(stopped, CallOkx(Lost()), sha);
            Provenance.Stopped(after) && |after.placements| == 1 && Entered(stopped, after)
  {
    OrderGoesOut(Raised, sha);
    AcceptingAccepts(Raised);
    LostIs();
    hide Next, ToPlace, Accepting, Lost, TheRequest, KeyOf, AfterAdapter, PrepareOrder, Provider, Lookup,
      Risk.ReadPolicy, Risk.Live;
    StepFrame(stopped, CallOkx(Lost()), sha);
    OkxStep(stopped, Lost(), sha);
  }

  lemma LostIs()
    ensures Lost() == Accepting(Raised)
  {
  }

  lemma NothingPlacedYet(sha: string -> string)
    requires Risk.WritePolicy(ThePolicy()).Ok?
    ensures Exec(Beginning(), Climb(Command(), Host()), sha).placements == []
  {
    hide Exec, Command, Host, Climb, ThePolicy, Risk.WritePolicy;
    ClimbReads(Command(), Host());
    ReadingRun(Beginning(), Climb(Command(), Host()), sha);
  }

  /** A concrete history: the kill switch is on when the order goes out, and the exchange takes it. */
  lemma KillSwitchComesTooLate(sha: string -> string)
    ensures PlacedUnderKillSwitch(sha)
  {
    hide Exec, Next, Command, Host, Lost, Start, ThePolicy, Killed, Climb, IsCleared, Entered, Beginning,
      Provenance.Stopped, Risk.WritePolicy, Risk.ReadPolicy, Risk.Live;
    PolicyWritten();
    KilledWritten();
    BeginsAtStart();
    ReachesAdapter(sha);
    NothingPlacedYet(sha);
    var climb, file := Climb(Command(), Host()), Risk.WritePolicy(Killed()).value;
    KilledStep(Exec(Beginning(), climb, sha), file, sha);
    ExecNext(Beginning(), climb, EditPolicy(file), sha);
    PlacedAllTheSame(Exec(Beginning(), UntilKilled(), sha), sha);
    ExecNext(Beginning(), UntilKilled(), CallOkx(Lost()), sha);
  }
}
