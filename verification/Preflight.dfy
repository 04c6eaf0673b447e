/** `preflight.py`: everything a leased command passes before an adapter may run. */
module Preflight {
  import opened Wrappers
  import opened Texts
  import opened JsonValues
  import opened Risk
  import opened OrderRequests
  import opened OkxAdapter
  import opened Payloads
  import Guards

  /** One stored credential validation; `checkedAt` is its time stamp, in microseconds since the
      earliest time Python knows, if it parses. */
  datatype Summary = Summary(body: Json, checkedAt: Option<nat>)

  /** What the host contributes to one preflight. */
  datatype Local = Local(
    providers: set<string>, secret: Try<Fields>, validations: seq<Summary>,
    now: nat, today: Day, ordersEnabled: bool)

  /** `_text`. */
  function PlainText(j: Json): string {
    if j.Str? then Strip(j.text) else ""
  }

  // ----- credential validation ------------------------------------------------------------

  const TTL: int := 24 * 60 * 60 * 1000000
  const SKEW: int := 300 * 1000000

  predicate About(s: Summary, provider: string) {
    s.body.Obj? && PlainText(Get(s.body.fields, "provider")) == provider
  }

  /** What the newest record is chosen by: an unreadable time counts as the earliest time. */
  function CheckedKey(s: Summary): nat {
    if s.checkedAt.Some? then s.checkedAt.value else 0
  }

  function Matching(summaries: seq<Summary>, provider: string): seq<Summary> {
    if summaries == [] then []
    else
      Matching(summaries[..|summaries| - 1], provider)
      + if About(summaries[|summaries| - 1], provider) then [summaries[|summaries| - 1]] else []
  }

  /** `max` keeps the first of equals. */
  function Newest(summaries: seq<Summary>): Summary
    requires summaries != []
  {
    var last := summaries[|summaries| - 1];
    if |summaries| == 1 then last
    else
      var best := Newest(summaries[..|summaries| - 1]);
      if CheckedKey(last) > CheckedKey(best) then last else best
  }

  predicate Passes(s: Summary) {
    s.body.Obj? && PlainText(Get(s.body.fields, "status")) == "passed"
  }

  predicate AccountReadable(s: Summary) {
    && s.body.Obj?
    && Get(s.body.fields, "permissions").Obj?
    && Get(GetFields(s.body.fields, "permissions"), "accountReadable") == Bool(true)
  }

  /** `_validation_block`: the code of the rejection, if any. */
  function ValidationBlock(provider: string, summaries: seq<Summary>, now: nat): Option<string> {
    var matching := Matching(summaries, provider);
    if matching == [] then Some("credential_validation_required")
    else
      var validation := Newest(matching);
      if !Passes(validation) then Some("credential_validation_failed")
      else if validation.checkedAt.None? then Some("credential_validation_invalid")
      else if now - validation.checkedAt.value < -SKEW then Some("credential_validation_invalid")
      else if now - validation.checkedAt.value > TTL then Some("credential_validation_stale")
      else if !AccountReadable(validation) then Some("credential_validation_account_not_readable")
      else None
  }

  /** Record `i` decides: none for this provider is newer, and it is the first of its time. */
  ghost predicate Decides(summaries: seq<Summary>, provider: string, i: int) {
    && 0 <= i < |summaries| && About(summaries[i], provider)
    && (forall j | 0 <= j < |summaries| && About(summaries[j], provider) ::
          CheckedKey(summaries[j]) <= CheckedKey(summaries[i]))
    && (forall j | 0 <= j < i && About(summaries[j], provider) ::
          CheckedKey(summaries[j]) < CheckedKey(summaries[i]))
  }

  /** A validation that lets commands through at `now`. */
  predicate Fresh(s: Summary, now: nat) {
    && Passes(s) && AccountReadable(s)
    && s.checkedAt.Some? && -SKEW <= now - s.checkedAt.value <= TTL
  }

  lemma MatchingExtended(before: seq<Summary>, s: Summary, provider: string)
    ensures Matching(before + [s], provider) == Matching(before, provider) + if About(s, provider) then [s] else []
  {
    hide About;
    assert (before + [s])[..|before|] == before;
  }

  lemma NewestExtended(found: seq<Summary>, s: Summary)
    ensures Newest(found + [s])
         == if found == [] || CheckedKey(s) > CheckedKey(Newest(found)) then s else Newest(found)
  {
    hide CheckedKey;
    assert (found + [s])[..|found|] == found;
  }

  lemma DecidesExtended(before: seq<Summary>, s: Summary, provider: string, i: int)
    requires Decides(before, provider, i)
    ensures if About(s, provider) && CheckedKey(s) > CheckedKey(before[i])
            then Decides(before + [s], provider, |before|)
            else Decides(before + [s], provider, i)
  {
    hide About, CheckedKey;
  }

  /** The chosen record is the one that decides. */
  lemma {:induction false} NewestDecides(summaries: seq<Summary>, provider: string)
    ensures Matching(summaries, provider) == [] <==>
              forall j | 0 <= j < |summaries| :: !About(summaries[j], provider)
    ensures Matching(summaries, provider) != [] ==>
              exists i :: Decides(summaries, provider, i) && summaries[i] == Newest(Matching(summaries, provider))
  {
    if summaries != [] {
      hide About, CheckedKey, Matching, Newest;
      var before, s := summaries[..|summaries| - 1], summaries[|summaries| - 1];
      assert summaries == before + [s];
      NewestDecides(before, provider);
      MatchingExtended(before, s, provider);
      var found := Matching(before, provider);
      NewestExtended(found, s);
      assert found + [] == found;
      if found != [] {
        var i :| Decides(before, provider, i) && before[i] == Newest(found);
        DecidesExtended(before, s, provider, i);
        hide Decides;
        assert before[i] == summaries[i];
      } else if About(s, provider) {
        assert [] + [s] == [s];
        assert Decides(summaries, provider, |before|);
      }
    }
  }

  lemma DecidesOnce(summaries: seq<Summary>, provider: string, i: int, j: int)
    requires Decides(summaries, provider, i) && Decides(summaries, provider, j)
    ensures i == j
  {
  }

  /** Preflight gets past the validation check iff the deciding record is fresh. */
  lemma ValidationExactly(provider: string, summaries: seq<Summary>, now: nat)
    ensures ValidationBlock(provider, summaries, now).None? <==>
      exists i :: Decides(summaries, provider, i) && Fresh(summaries[i], now)
  {
    NewestDecides(summaries, provider);
    forall i, j | Decides(summaries, provider, i) && Decides(summaries, provider, j) ensures i == j {
      DecidesOnce(summaries, provider, i, j);
    }
    hide Passes, AccountReadable, CheckedKey;
    if Matching(summaries, provider) != [] {
      var i :| Decides(summaries, provider, i) && summaries[i] == Newest(Matching(summaries, provider));
      hide Decides;
      assert Decides(summaries, provider, i);
    } else {
      assert forall i :: !Decides(summaries, provider, i);
    }
  }

  /** A failed record newer than every pass blocks, however many passes there are. */
  lemma NewerFailureOverrides(provider: string, summaries: seq<Summary>, now: nat, i: int)
    requires 0 <= i < |summaries| && About(summaries[i], provider) && !Passes(summaries[i])
    requires forall j | 0 <= j < |summaries| && About(summaries[j], provider) && Passes(summaries[j]) ::
               CheckedKey(summaries[j]) < CheckedKey(summaries[i])
    ensures ValidationBlock(provider, summaries, now) == Some("credential_validation_failed")
  {
    hide Passes, CheckedKey, AccountReadable, About;
    NewestDecides(summaries, provider);
  }

  /** A record without a readable time is consulted only when no other is later than the earliest
      time. */
  lemma UnreadableTimeLast(provider: string, summaries: seq<Summary>, i: int, j: int)
    requires Decides(summaries, provider, i)
    requires 0 <= j < |summaries| && About(summaries[j], provider)
    requires summaries[j].checkedAt.Some? && summaries[j].checkedAt.value > 0
    ensures summaries[i].checkedAt.Some?
  {
  }

  // ----- the gates ------------------------------------------------------------------------

  datatype Gate =
    | Refused(code: string, reason: string, extra: Entries)
    | Raises
    | ForOrder(request: Request)
    | ForOther(request: Request)

  /** The one adapter that places orders. */
  predicate OrderAdapter(name: string) {
    name == "okx_swap_mainnet_order"
  }

  predicate ValidateOnlyAdapter(name: string) {
    name in {"okx_swap_mainnet_order_precheck", "binance_usdm_futures_mainnet_order_test"}
  }

  /** `_adapter_name`. */
  function AdapterName(command: Fields): string {
    var payload := GetFields(command, "commandPayload");
    PlainText(if Truthy(Get(payload, "adapter")) then Get(payload, "adapter") else Get(payload, "adapterMode"))
  }

  function Provider(command: Fields): string {
    PlainText(Get(command, "provider"))
  }

  function Mode(command: Fields): string {
    PlainText(Get(command, "executionMode"))
  }

  function Extra(adapter: string, risk: string): Entries {
    [("adapterPreflight", Str(adapter)), ("riskPreflight", Str(risk))]
  }

  /** Who the command is for, and whether this host can act for them. */
  function AddressBlock(command: Fields, local: Local): Option<string> {
    if !Guards.Clean(Obj(command)) then Some("command_contains_secret_fields")
    else if Provider(command) == "" then Some("provider_missing")
    else if Mode(command) !in {"external_paper", "real"} then Some("unsupported_execution_mode")
    else if PlainText(Get(command, "executionAccountSource")) != "provider" then
      Some("execution_account_source_mismatch")
    else if Provider(command) !in local.providers then Some("local_credential_missing")
    else ValidationBlock(Provider(command), local.validations, local.now)
  }

  /** `preflight_command`, up to the reload of the policy. */
  function FirstGate(command: Fields, local: Local, policy: Policy, state: RiskState, sha: string -> string): Gate {
    var mode := Mode(command);
    var block := AddressBlock(command, local);
    if block.Some? then Refused(block.value, block.value, [])
    else
      var risk := Evaluate(command, mode, policy, state, local.today);
      if risk.Blocked? then Refused(risk.code, risk.code, [("riskPreflight", Str("failed"))])
      else
        match Build(command, mode, sha)
        case Crash => Raises
        case ValueError(reason) =>
          Refused("adapter_order_request_invalid", ReasonText(reason), Extra("failed", "passed"))
        case Ok(request) =>
          if mode == "real" && OrderAdapter(AdapterName(command)) then
            if local.ordersEnabled then ForOrder(request)
            else Refused("real_execution_disabled", "not enabled", Extra("blocked", "passed"))
          else if mode == "real" && !ValidateOnlyAdapter(AdapterName(command)) then
            Refused("real_execution_disabled", "disabled", Extra("blocked", "passed"))
          else ForOther(request)
  }

  /** The order adapter needs the provider and the three secrets. */
  function AdapterReady(provider: string, secret: Try<Fields>): Try<bool> {
    if provider != "okx" then ValueError(Unsupported)
    else
      var keys :- secret;
      if PlainText(Get(keys, "apiKey")) == "" || PlainText(Get(keys, "apiSecret")) == ""
         || PlainText(Get(keys, "passphrase")) == ""
      then ValueError(Missing)
      else Ok(true)
  }

  /** The second gate, on the policy as reloaded, the risk state as read before. */
  function FinalGate(command: Fields, local: Local, final: Try<Policy>, state: RiskState, request: Request): Gate {
    match final
    case Crash => Raises
    case ValueError(reason) => Refused("risk_final_policy_invalid", ReasonText(reason), Extra("blocked", "passed"))
    case Ok(policy) =>
      var risk := Evaluate(command, "real", policy, state, local.today);
      if risk.Blocked? then
        Refused(risk.code, risk.code, Extra("blocked", "passed") + [("finalRiskPreflight", Str("failed"))])
      else
        match AdapterReady(Provider(command), local.secret)
        case Crash => Raises
        case ValueError(reason) => Refused("adapter_preflight_failed", ReasonText(reason), Extra("failed", "passed"))
        case Ok(_) => ForOrder(request)
  }

  /** The decision after the order adapter has run. */
  function AfterAdapter(outcome: Try<Placed>, provider: string): Try<Decision> {
    match outcome
    case Crash => Crash
    case ValueError(reason) => Rejection("adapter_preflight_failed", ReasonText(reason), Extra("failed", "passed"))
    case Ok(placed) =>
      match Guarded(AdapterPayload(placed))
      case Crash => Crash
      case ValueError(reason) => Rejection("adapter_preflight_failed", ReasonText(reason), Extra("failed", "passed"))
      case Ok(payload) => Acknowledgement(payload, provider)
  }

  /** The decision after any other adapter has run: nothing was placed. */
  function AfterOther(outcome: Try<Fields>, mode: string, provider: string): Try<Decision> {
    match outcome
    case Crash => Crash
    case ValueError(reason) => Rejection("adapter_preflight_failed", ReasonText(reason), Extra("failed", "passed"))
    case Ok(payload) =>
      if mode == "real" then
        Rejection("real_execution_disabled", "validate only",
                  Extra("passed", "passed") + [("adapterResult", Obj(payload))])
      else
        var reason := if "reason" in payload then PyStr(payload["reason"])
                      else "not enabled";
        var result :- Guarded(Guards.Build(
                                [("executionMode", Str(mode)), ("executorAction", Str("order_placement_skipped")),
                                 ("adapterPreflight", Str("passed")), ("adapterResult", Obj(payload)),
                                 ("preflight", Str("passed")), ("provider", Str(provider)), ("reason", Str(reason)),
                                 ("riskPreflight", Str("passed")), ("zeroSecret", Bool(true))]));
        Ok(Decision("acknowledged", result))
  }

  // ----- what the gates establish ---------------------------------------------------------

  /** Everything but the risk policy that a real order needs on this host. */
  ghost predicate Screenable(command: Fields, local: Local, request: Request, sha: string -> string) {
    && AddressBlock(command, local).None?
    && Mode(command) == "real" && OrderAdapter(AdapterName(command)) && local.ordersEnabled
    && Build(command, "real", sha) == Ok(request)
  }

  /** The first gate leads to an order exactly when each of its conditions holds. */
  lemma FirstGateExactly(command: Fields, local: Local, policy: Policy, state: RiskState, request: Request,
                         sha: string -> string)
    ensures FirstGate(command, local, policy, state, sha) == ForOrder(request) <==>
      && Screenable(command, local, request, sha)
      && Evaluate(command, "real", policy, state, local.today).Passed?
  {
    hide AddressBlock, Build, Evaluate, AdapterName;
  }

  /** The field is a text that is this word, but for white space around it. */
  predicate SaysWord(fields: Fields, key: string, word: string) {
    key in fields && fields[key].Str? && Strip(fields[key].text) == word
  }

  /** A validation of the provider's credential that passed, with the account readable, at most 24 hours
      before and at most five minutes after `now`. */
  predicate PassedLately(s: Summary, now: nat) {
    && s.body.Obj? && SaysWord(s.body.fields, "status", "passed")
    && Get(GetFields(s.body.fields, "permissions"), "accountReadable") == Bool(true)
    && s.checkedAt.Some? && now - 86400000000 <= s.checkedAt.value <= now + 300000000
  }

  /** What a command has to say, and the host to hold, before anything else is looked at. */
  ghost predicate Admitted(command: Fields, local: Local) {
    && (forall path, key :: !Guards.RefusedAt(Obj(command), path, key))
    && (SaysWord(command, "executionMode", "real") || SaysWord(command, "executionMode", "external_paper"))
    && SaysWord(command, "executionAccountSource", "provider")
    && exists provider, i :: Vouched(command, local, provider, i)
  }

  /** The command is for a provider whose credential is on this host, and record `i`, the one that decides,
      validates it. */
  ghost predicate Vouched(command: Fields, local: Local, provider: string, i: int) {
    && provider != "" && SaysWord(command, "provider", provider) && provider in local.providers
    && Decides(local.validations, provider, i) && PassedLately(local.validations[i], local.now)
  }

  lemma VouchedExactly(command: Fields, local: Local)
    ensures (Provider(command) != "" && Provider(command) in local.providers
             && ValidationBlock(Provider(command), local.validations, local.now).None?)
            <==> exists provider, i :: Vouched(command, local, provider, i)
  {
    var own := Provider(command);
    hide ValidationBlock, PlainText, SaysWord, Fresh, PassedLately, Get, Provider;
    ValidationExactly(own, local.validations, local.now);
    forall s ensures Fresh(s, local.now) <==> PassedLately(s, local.now) {
      FreshExactly(s, local.now);
    }
    forall provider | provider != "" ensures own == provider <==> SaysWord(command, "provider", provider) {
      ProviderRead(command, provider);
    }
    if i :| Decides(local.validations, own, i) && Fresh(local.validations[i], local.now) {
      assert own != "" && own in local.providers ==> Vouched(command, local, own, i);
    }
    if provider, i :| Vouched(command, local, provider, i) {
      assert provider == own;
    }
  }

  lemma ProviderRead(command: Fields, provider: string)
    requires provider != ""
    ensures Provider(command) == provider <==> SaysWord(command, "provider", provider)
  {
    WordRead(command, "provider", provider);
  }

  lemma WordRead(fields: Fields, key: string, word: string)
    requires word != ""
    ensures PlainText(Get(fields, key)) == word <==> SaysWord(fields, key, word)
  {
    hide Strip;
  }

  lemma FreshExactly(s: Summary, now: nat)
    ensures Fresh(s, now) <==> PassedLately(s, now)
  {
    if s.body.Obj? {
      WordRead(s.body.fields, "status", "passed");
    }
    hide PlainText, SaysWord;
  }

  /** A command is admitted exactly when it says what it has to. */
  lemma AddressExactly(command: Fields, local: Local)
    ensures AddressBlock(command, local).None? <==> Admitted(command, local)
  {
    hide Guards.Clean, Guards.RefusedAt, ValidationBlock, PlainText, SaysWord, Vouched, Get, Provider;
    Guards.CleanExactly(Obj(command));
    WordRead(command, "executionMode", "real");
    WordRead(command, "executionMode", "external_paper");
    WordRead(command, "executionAccountSource", "provider");
    VouchedExactly(command, local);
  }

  /** The order adapter is named, under the first of two names that says anything. */
  predicate NamesOrderAdapter(payload: Fields) {
    if Truthy(Get(payload, "adapter")) then SaysWord(payload, "adapter", "okx_swap_mainnet_order")
    else SaysWord(payload, "adapterMode", "okx_swap_mainnet_order")
  }

  /** The first gate leads to an order exactly when the command is admitted, is real and names the order
      adapter, orders are enabled here, and the command is a request that the policy passes. */
  lemma FirstGateByFields(command: Fields, local: Local, policy: Policy, state: RiskState, request: Request,
                          sha: string -> string)
    ensures FirstGate(command, local, policy, state, sha) == ForOrder(request) <==>
      && Admitted(command, local) && SaysWord(command, "executionMode", "real")
      && NamesOrderAdapter(GetFields(command, "commandPayload")) && local.ordersEnabled
      && Build(command, "real", sha) == Ok(request)
      && Evaluate(command, "real", policy, state, local.today).Passed?
  {
    FirstGateExactly(command, local, policy, state, request, sha);
    AddressExactly(command, local);
    WordRead(command, "executionMode", "real");
    AdapterRead(GetFields(command, "commandPayload"));
    hide FirstGate, AddressBlock, Admitted, SaysWord, NamesOrderAdapter, Build, Evaluate, PlainText, Get, GetFields;
  }

  lemma AdapterRead(payload: Fields)
    ensures var own, other := Get(payload, "adapter"), Get(payload, "adapterMode");
            var named := if Truthy(own) then own else other;
            PlainText(named) == "okx_swap_mainnet_order" <==> NamesOrderAdapter(payload)
  {
    WordRead(payload, "adapter", "okx_swap_mainnet_order");
    WordRead(payload, "adapterMode", "okx_swap_mainnet_order");
    hide PlainText, SaysWord, Truthy, Get;
  }

  /** The secret holds a text under the key. */
  predicate Holds(secret: Fields, key: string) {
    key in secret && secret[key].Str? && Strip(secret[key].text) != ""
  }

  /** The order adapter can be built exactly for OKX, with three texts in the secret. */
  lemma AdapterReadyExactly(provider: string, secret: Try<Fields>)
    ensures AdapterReady(provider, secret).Ok? <==>
      && provider == "okx" && secret.Ok?
      && Holds(secret.value, "apiKey") && Holds(secret.value, "apiSecret") && Holds(secret.value, "passphrase")
  {
    hide Strip;
  }

  /** The second gate passes exactly when the reloaded policy passes the command and the adapter
      can be built. */
  lemma FinalGateExactly(command: Fields, local: Local, final: Try<Policy>, state: RiskState, request: Request)
    ensures FinalGate(command, local, final, state, request).ForOrder? <==>
      && final.Ok? && Evaluate(command, "real", final.value, state, local.today).Passed?
      && AdapterReady(Provider(command), local.secret).Ok?
    ensures FinalGate(command, local, final, state, request).ForOrder? ==>
      FinalGate(command, local, final, state, request).request == request
  {
    hide Evaluate, AdapterReady;
  }

  lemma ExtraHarmless(adapter: string, risk: string)
    ensures Harmless(Extra(adapter, risk))
  {
    hide Guards.HarmlessKey;
    RejectionKeys();
  }

  /** Once the adapter has returned, the decision always gets out, as an acknowledgement exactly
      when the adapter acknowledged; an acknowledgement names the adapter's order. */
  lemma DecisionFollowsAdapter(outcome: Try<Placed>, provider: string)
    requires !outcome.Crash?
    ensures var d := AfterAdapter(outcome, provider);
            && d.Ok?
            && d.value.status == (if outcome.Ok? then "acknowledged" else "rejected")
            && (outcome.Ok? && outcome.value.ordId != "" ==>
                  && Get(d.value.payload, "providerOrderId") == Str(outcome.value.ordId)
                  && Get(d.value.payload, "adapterResult") == Obj(AdapterPayload(outcome.value)))
  {
    hide AdapterPayload, Acknowledgement, Rejection, Get, Guards.Clean;
    if outcome.Ok? {
      AdapterPayloadPasses(outcome.value);
      PassingIsClean(AdapterPayload(outcome.value));
      AcknowledgementPasses(AdapterPayload(outcome.value), provider);
      if outcome.value.ordId != "" {
        AcknowledgementNames(outcome.value, provider);
      }
    } else {
      ExtraHarmless("failed", "passed");
      RejectionPasses("adapter_preflight_failed", ReasonText(outcome.reason), Extra("failed", "passed"));
    }
  }

  lemma PassingIsClean(payload: Fields)
    requires Guarded(payload).Ok?
    ensures Guards.Clean(Obj(payload))
  {
  }

  lemma RiskExtraHarmless(key: string, value: string)
    requires Guards.HarmlessKey(key)
    ensures Harmless([(key, Str(value))])
  {
  }

  /** What a gate adds to its refusal never trips the guard. */
  lemma GateExtrasHarmless(command: Fields, local: Local, policy: Policy, state: RiskState, final: Try<Policy>,
                           request: Request, sha: string -> string)
    ensures var first := FirstGate(command, local, policy, state, sha);
            first.Refused? ==> Harmless(first.extra)
    ensures var second := FinalGate(command, local, final, state, request);
            second.Refused? ==> Harmless(second.extra)
  {
    RejectionKeys();
    hide Guards.HarmlessKey, AddressBlock, Evaluate, Build, AdapterName, AdapterReady, OrderAdapter,
      ValidateOnlyAdapter, ReasonText;
    ExtraHarmless("failed", "passed");
    ExtraHarmless("blocked", "passed");
    RiskExtraHarmless("riskPreflight", "failed");
    RiskExtraHarmless("finalRiskPreflight", "failed");
    HarmlessConcat(Extra("blocked", "passed"), [("finalRiskPreflight", Str("failed"))]);
    hide Extra;
  }

  /** Every refusal of a gate gets out, as a rejection. */
  lemma RefusalsGetOut(command: Fields, local: Local, policy: Policy, state: RiskState, final: Try<Policy>,
                       request: Request, sha: string -> string)
    ensures RefusalGetsOut(FirstGate(command, local, policy, state, sha))
    ensures RefusalGetsOut(FinalGate(command, local, final, state, request))
  {
    hide FirstGate, FinalGate, Rejection, Harmless;
    GateExtrasHarmless(command, local, policy, state, final, request, sha);
    var first := FirstGate(command, local, policy, state, sha);
    var second := FinalGate(command, local, final, state, request);
    if first.Refused? {
      RejectionPasses(first.code, first.reason, first.extra);
    }
    if second.Refused? {
      RejectionPasses(second.code, second.reason, second.extra);
    }
  }

  /** ... which says the code of the gate. */
  lemma RefusalsSayWhy(command: Fields, local: Local, policy: Policy, state: RiskState, final: Try<Policy>,
                       request: Request, sha: string -> string)
    ensures RefusalSaysWhy(FirstGate(command, local, policy, state, sha))
    ensures RefusalSaysWhy(FinalGate(command, local, final, state, request))
  {
    GateExtrasHarmless(command, local, policy, state, final, request, sha);
    FirstExtraApart(command, local, policy, state, sha);
    SecondExtraApart(command, local, final, state, request);
    hide FirstGate, FinalGate, Rejection, Harmless, Without, Get;
    var first := FirstGate(command, local, policy, state, sha);
    var second := FinalGate(command, local, final, state, request);
    if first.Refused? {
      RejectionSays(first.code, first.reason, first.extra);
    }
    if second.Refused? {
      RejectionSays(second.code, second.reason, second.extra);
    }
  }

  lemma FirstExtraApart(command: Fields, local: Local, policy: Policy, state: RiskState, sha: string -> string)
    ensures var gate := FirstGate(command, local, policy, state, sha);
            gate.Refused? ==> Without(gate.extra, "preflightReasonCode")
  {
    ExtrasApart();
    hide AddressBlock, Evaluate, Build, AdapterName, OrderAdapter, ValidateOnlyAdapter, ReasonText, Without, Extra;
  }

  lemma SecondExtraApart(command: Fields, local: Local, final: Try<Policy>, state: RiskState, request: Request)
    ensures var gate := FinalGate(command, local, final, state, request);
            gate.Refused? ==> Without(gate.extra, "preflightReasonCode")
  {
    ExtrasApart();
    hide Evaluate, AdapterReady, ReasonText, Without, Extra;
  }

  lemma ExtrasApart()
    ensures forall a, r :: Without(Extra(a, r), "preflightReasonCode")
    ensures forall a, r ::
              Without(Extra(a, r) + [("finalRiskPreflight", Str("failed"))], "preflightReasonCode")
    ensures Without([("riskPreflight", Str("failed"))], "preflightReasonCode")
    ensures Without([], "preflightReasonCode")
  {
  }

  ghost predicate RefusalSaysWhy(gate: Gate) {
    hide *;
    gate.Refused? ==>
      && Rejection(gate.code, gate.reason, gate.extra).Ok?
      && Get(Rejection(gate.code, gate.reason, gate.extra).value.payload, "preflightReasonCode") == Str(gate.code)
  }

  ghost predicate RefusalGetsOut(gate: Gate) {
    hide *;
    gate.Refused? ==>
      && Rejection(gate.code, gate.reason, gate.extra).Ok?
      && Rejection(gate.code, gate.reason, gate.extra).value.status == "rejected"
  }

  /** A policy that is not live refuses every real command, whatever else holds. */
  lemma NotLiveIsRefused(command: Fields, local: Local, policy: Policy, state: RiskState, sha: string -> string)
    requires Mode(command) == "real" && !Live(policy)
    ensures FirstGate(command, local, policy, state, sha).Refused?
  {
    GateExactly(command, policy, state, local.today);
    hide AddressBlock, Build, Evaluate, AdapterName, OrderAdapter, ValidateOnlyAdapter, Mode;
  }
}
