/** What is reported to YTM: the adapter's payload, and the decision on a command. */
module Payloads {
  import opened Wrappers
  import opened JsonValues
  import opened Guards
  import OrderRequests
  import opened OkxOrders
  import opened OkxReplies
  import opened OkxProtection
  import opened OkxAdapter

  type Entries = seq<(string, Json)>

  datatype Decision = Decision(status: string, payload: Fields)

  predicate Harmless(entries: Entries) {
    forall i | 0 <= i < |entries| :: HarmlessKey(entries[i].0) && Clean(entries[i].1)
  }

  /** The guard every outgoing payload passes. */
  function Guarded(payload: Fields): Try<Fields> {
    if Clean(Obj(payload)) then Ok(payload) else ValueError(SecretField)
  }

  function MaybeText(text: Option<string>): Json {
    if text.Some? then Str(text.value) else Null
  }

  function IfPresent(key: string, text: Option<string>): Entries {
    if text.Some? then [(key, Str(text.value))] else []
  }

  /** A word for each reason; the program writes a sentence. */
  function ReasonText(r: Reason): string {
    match r
    case SecretField => "secret field"
    case Malformed => "malformed"
    case Missing => "missing"
    case NotNumeric => "not numeric"
    case NotPositive => "not positive"
    case Unsupported => "unsupported"
    case Unavailable => "unavailable"
    case NotFound => "not found"
    case Declined => "declined"
    case Mismatch => "mismatch"
    case TooSmall => "too small"
    case TooLarge => "too large"
    case WrongSide => "wrong side"
  }

  // ----- the protection part --------------------------------------------------------------

  function StopEntries(attach: Attach): Entries {
    [("slOrdPx", Str("-1")), ("slTriggerPx", Str(WireText(attach.stopLoss))), ("slTriggerPxType", Str("last"))]
  }

  function TargetEntries(attach: Attach): Entries {
    if attach.takeProfit.None? then []
    else [("tpOrdPx", Str("-1")), ("tpTriggerPx", Str(WireText(attach.takeProfit.value))),
          ("tpTriggerPxType", Str("last"))]
  }

  /** Why the stop-loss had to be looked after. */
  function StopReason(refused: Option<string>): string {
    if refused.Some? then "attached_protection_rejected" else "active_protection_not_found"
  }

  function Status(report: Report): string {
    match report
    case NotRequired => "not_required"
    case Protected(_) => "protected"
    case PendingActivation(_) => "pending_activation"
    case Remediated(_, _, _) => "protected_remediated"
    case Unprotected(_, _) => "unprotected"
    case VerificationFailed(_) => "verification_failed"
  }

  function ReportEntries(report: Report, attach: Attach): Entries {
    match report
    case NotRequired => [("reasonCode", Str("protection_not_required"))]
    case Protected(algo) =>
      [("algoClientOrderId", MaybeText(TextOf(Get(algo, "algoClOrdId")))),
       ("algoOrderId", MaybeText(TextOf(Get(algo, "algoId")))),
       ("verification", Str("pending_algo_order"))]
    case PendingActivation(None) =>
      [("algoClientOrderId", Str(attach.clientId)), ("reasonCode", Str("parent_order_not_filled")),
       ("verification", Str("no_open_position"))]
    case PendingActivation(Some(reason)) =>
      [("algoClientOrderId", Str(attach.clientId)), ("reason", Str(reason)),
       ("reasonCode", Str(StopReason(Some(reason)))),
       ("verification", Str("no_open_position_after_attach_failure"))]
    case Remediated(refused, placed, algoId) =>
      [("algoClientOrderId", Str(placed.algoClOrdId)), ("algoOrderId", MaybeText(algoId)),
       ("remediated", Bool(true)), ("remediationReasonCode", Str(StopReason(refused))),
       ("verification", Str("standalone_stop_loss_algo_order"))]
    case Unprotected(refused, reason) =>
      [("actionRequired", Str("manual_intervention")), ("reason", Str(ReasonText(reason))),
       ("reasonCode", Str("stop_loss_remediation_failed")), ("verification", Str(StopReason(refused)))]
    case VerificationFailed(reason) =>
      [("actionRequired", Str("verify_provider_position_and_protection")), ("reason", Str(ReasonText(reason))),
       ("reasonCode", Str("protection_verification_failed")), ("algoClientOrderId", Str(attach.clientId)),
       ("verification", Str("post_placement_verification_failed"))]
  }

  function ProtectionEntries(report: Report, attach: Option<Attach>): Entries {
    (if attach.None? then [("reasonCode", Str("protection_not_required"))]
     else ReportEntries(report, attach.value) + StopEntries(attach.value) + TargetEntries(attach.value))
    + [("status", Str(Status(report)))]
  }

  // ----- the order part -------------------------------------------------------------------

  function AttachedStop(attach: Attach): Entries {
    [("attachAlgoClOrdId", Str(attach.clientId)), ("orderPrice", Str("market"))] + StopEntries(attach)
  }

  function AttachedTarget(attach: Attach): Entries {
    [("attachAlgoClOrdId", Str(attach.clientId)), ("orderPrice", Str("market"))] + TargetEntries(attach)
  }

  function AttachedEntries(attach: Option<Attach>): Entries {
    if attach.None? then [] else StopPart(attach.value) + TargetPart(attach.value)
  }

  function StopPart(attach: Attach): Entries {
    [("attachedStopLoss", Obj(Build(AttachedStop(attach))))]
  }

  function TargetPart(attach: Attach): Entries {
    if attach.takeProfit.None? then [] else [("attachedTakeProfit", Obj(Build(AttachedTarget(attach))))]
  }

  /** `_public_normalized_order`. */
  function OrderEntries(params: Params): Entries {
    OrderBase(params) + OrderOptions(params) + AttachedEntries(params.attach)
  }

  function OrderBase(params: Params): Entries {
    [("instId", Str(params.instId)), ("ordType", Str(params.ordType)), ("posSide", Str("net")),
     ("side", Str(params.side)), ("sz", Str(WireText(params.sz))), ("tdMode", Str(params.tdMode))]
  }

  function OrderOptions(params: Params): Entries {
    IfPresent("px", if params.px.Some? then Some(WireText(params.px.value)) else None)
    + IfPresent("reduceOnly", if params.reduceOnly then Some("true") else None)
  }

  function AccountEntries(account: Account): Entries {
    [("acctLv", Str(account.acctLv)), ("posMode", Str(account.posMode))]
  }

  function LeverageEntries(leverage: Leverage): Entries {
    [("instId", Str(leverage.instId)), ("lever", Str(leverage.lever)), ("mgnMode", Str(leverage.mgnMode)),
     ("verified", Str("true"))]
    + IfPresent("posSide", leverage.posSide)
  }

  function PrecheckEntries(passed: bool): Entries {
    if passed then [("status", Str("passed"))]
    else [("reason", Str("unsupported")),
          ("reasonCode", Str("unsupported_for_futures_mode")), ("status", Str("skipped"))]
  }

  // ----- the adapter's payload ------------------------------------------------------------

  function PartEntries(p: Placed): Entries {
    [("accountConfig", Obj(Build(AccountEntries(p.gates.account)))),
     ("leverage", if p.gates.leverage.None? then Null else Obj(Build(LeverageEntries(p.gates.leverage.value)))),
     ("normalizedOrder", Obj(Build(OrderEntries(p.gates.params)))),
     ("precheck", Obj(Build(PrecheckEntries(p.gates.precheckPassed))))]
  }

  function ProtectionPart(p: Placed): Entries {
    [("protection", Obj(Build(ProtectionEntries(p.report, p.gates.params.attach))))]
  }

  function FactEntries(p: Placed): Entries {
    [("adapter", Str("okx_swap_mainnet_order")), ("executorAction", Str("order_submitted")),
     ("mainnet", Bool(true)), ("market", Str("okx_swap")), ("provider", Str("okx")),
     ("providerStatus", Str("accepted"))]
    + IfPresent("providerResultCode", p.resultCode)
    + IfPresent("providerMessage", p.resultMessage)
  }

  function NameEntries(p: Placed): Entries {
    [("idempotencyRecovery", Bool(p.recovered)), ("protectionStatus", Str(Status(p.report))),
     ("clientOrderId", Str(p.gates.params.clOrdId)), ("providerOrderId", Str(p.ordId))]
  }

  /** The payload `prepare_order` returns, before its guard. */
  function AdapterPayload(p: Placed): Fields {
    Build(PartEntries(p) + FactEntries(p) + ProtectionPart(p) + NameEntries(p))
  }

  // ----- decisions ------------------------------------------------------------------------

  function RejectionFacts(code: string, reason: string): Entries {
    [("executorAction", Str("local_preflight_failed")), ("preflight", Str("failed")),
     ("preflightReasonCode", Str(code)), ("reason", Str(reason)), ("zeroSecret", Bool(true))]
  }

  /** `_reject`. */
  function Rejection(code: string, reason: string, extra: Entries): Try<Decision> {
    var payload :- Guarded(Build(RejectionFacts(code, reason) + extra));
    Ok(Decision("rejected", payload))
  }

  /** A key copied from the adapter's payload when it is a non-empty string. */
  function Copied(payload: Fields, key: string): Entries {
    var value := Get(payload, key);
    if value.Str? && value.text != "" then [(key, value)] else []
  }

  function AckFacts(provider: string): Entries {
    [("adapterPreflight", Str("passed")), ("executionMode", Str("real")), ("finalRiskPreflight", Str("passed")),
     ("preflight", Str("passed")), ("provider", Str(provider)), ("riskPreflight", Str("passed")),
     ("zeroSecret", Bool(true))]
  }

  function ResultEntries(adapterPayload: Fields): Entries {
    [("executorAction", if "executorAction" in adapterPayload then Str(PyStr(adapterPayload["executorAction"]))
                        else Str("order_submitted")),
     ("adapterResult", Obj(adapterPayload))]
  }

  function AckEntries(adapterPayload: Fields, provider: string): Entries {
    AckFacts(provider) + ResultEntries(adapterPayload)
    + Copied(adapterPayload, "providerStatus") + Copied(adapterPayload, "clientOrderId")
  }

  /** `_acknowledge_real_order_placement`. */
  function Acknowledgement(adapterPayload: Fields, provider: string): Try<Decision> {
    var payload :- Guarded(Build(AckEntries(adapterPayload, provider) + Copied(adapterPayload, "providerOrderId")));
    Ok(Decision("acknowledged", payload))
  }

  // ----- the guards never fire ------------------------------------------------------------

  lemma EntriesClean(entries: Entries)
    requires Harmless(entries)
    ensures Clean(Obj(Build(entries)))
  {
    hide HarmlessKey, Clean, SafeKey, Build;
    forall e | e in entries ensures SafeKey(e.0) && Clean(e.1) {
      HarmlessIsSafe(e.0);
    }
    BuildIsClean(entries);
  }

  lemma ProtectionHarmless(report: Report, attach: Option<Attach>)
    ensures Harmless(ProtectionEntries(report, attach))
  {
    if attach.Some? {
      ReportHarmless(report, attach.value);
      BracketHarmless(attach.value);
    }
    hide ReportEntries, StopEntries, TargetEntries;
  }

  lemma LeavesAreClean()
    ensures forall j: Json | !j.Obj? && !j.Arr? :: Clean(j)
  {
  }

  lemma ReportKeys()
    ensures HarmlessKey("reasonCode") && HarmlessKey("algoClientOrderId") && HarmlessKey("algoOrderId")
    ensures HarmlessKey("verification") && HarmlessKey("reason") && HarmlessKey("remediated")
    ensures HarmlessKey("remediationReasonCode") && HarmlessKey("actionRequired")
  {
  }

  lemma ReportHarmless(report: Report, attach: Attach)
    ensures Harmless(ReportEntries(report, attach))
  {
    ReportKeys();
    LeavesAreClean();
    hide TextOf, WireText, Status, StopReason, HarmlessKey, Clean;
  }

  lemma BracketKeys()
    ensures HarmlessKey("slOrdPx") && HarmlessKey("slTriggerPx") && HarmlessKey("slTriggerPxType")
    ensures HarmlessKey("tpOrdPx") && HarmlessKey("tpTriggerPx") && HarmlessKey("tpTriggerPxType")
    ensures HarmlessKey("attachAlgoClOrdId") && HarmlessKey("orderPrice")
    ensures HarmlessKey("attachedStopLoss") && HarmlessKey("attachedTakeProfit")
  {
  }

  lemma BracketHarmless(attach: Attach)
    ensures Harmless(StopEntries(attach)) && Harmless(TargetEntries(attach))
  {
    BracketKeys();
    LeavesAreClean();
    hide WireText, HarmlessKey, Clean;
  }

  lemma AttachedHarmless(attach: Attach)
    ensures Harmless(AttachedStop(attach)) && Harmless(AttachedTarget(attach))
  {
    BracketHarmless(attach);
    BracketKeys();
    LeavesAreClean();
    hide StopEntries, TargetEntries, HarmlessKey, Clean;
  }

  lemma AttachedEntriesHarmless(attach: Option<Attach>)
    ensures Harmless(AttachedEntries(attach))
  {
    if attach.Some? {
      AttachedHarmless(attach.value);
      BracketKeys();
      hide AttachedStop, AttachedTarget, Build, Clean, HarmlessKey, Harmless, StopPart, TargetPart;
      StopPartHarmless(attach.value);
      TargetPartHarmless(attach.value);
      HarmlessConcat(StopPart(attach.value), TargetPart(attach.value));
    }
  }

  lemma StopPartHarmless(attach: Attach)
    requires Harmless(AttachedStop(attach)) && HarmlessKey("attachedStopLoss")
    ensures Harmless(StopPart(attach))
  {
    hide AttachedStop, Build, HarmlessKey;
    EntriesClean(AttachedStop(attach));
  }

  lemma TargetPartHarmless(attach: Attach)
    requires Harmless(AttachedTarget(attach)) && HarmlessKey("attachedTakeProfit")
    ensures Harmless(TargetPart(attach))
  {
    hide AttachedTarget, Build, HarmlessKey;
    EntriesClean(AttachedTarget(attach));
  }

  lemma HarmlessConcat(a: Entries, b: Entries)
    requires Harmless(a) && Harmless(b)
    ensures Harmless(a + b)
  {
  }

  lemma OrderKeys()
    ensures HarmlessKey("instId") && HarmlessKey("ordType") && HarmlessKey("posSide") && HarmlessKey("side")
    ensures HarmlessKey("sz") && HarmlessKey("tdMode") && HarmlessKey("px") && HarmlessKey("reduceOnly")
    ensures HarmlessKey("acctLv") && HarmlessKey("posMode") && HarmlessKey("lever") && HarmlessKey("mgnMode")
    ensures HarmlessKey("verified") && HarmlessKey("reason") && HarmlessKey("reasonCode") && HarmlessKey("status")
  {
  }

  lemma OrderHarmless(params: Params)
    ensures Harmless(OrderEntries(params))
  {
    AttachedEntriesHarmless(params.attach);
    OrderKeys();
    LeavesAreClean();
    hide AttachedEntries, WireText, HarmlessKey, Clean;
  }

  lemma AccountHarmless(account: Account)
    ensures Harmless(AccountEntries(account))
  {
    OrderKeys();
    LeavesAreClean();
    hide HarmlessKey, Clean;
  }

  lemma LeverageHarmless(leverage: Leverage)
    ensures Harmless(LeverageEntries(leverage))
  {
    OrderKeys();
    LeavesAreClean();
    hide HarmlessKey, Clean;
  }

  lemma PrecheckHarmless(passed: bool)
    ensures Harmless(PrecheckEntries(passed))
  {
    OrderKeys();
    LeavesAreClean();
    hide HarmlessKey, Clean;
  }

  lemma PartKeys()
    ensures HarmlessKey("accountConfig") && HarmlessKey("leverage") && HarmlessKey("normalizedOrder")
    ensures HarmlessKey("precheck") && HarmlessKey("protection")
  {
  }

  lemma PartsHarmless(p: Placed)
    ensures Harmless(PartEntries(p)) && Harmless(ProtectionPart(p))
  {
    PartKeys();
    LeavesAreClean();
    AccountHarmless(p.gates.account);
    PrecheckHarmless(p.gates.precheckPassed);
    OrderHarmless(p.gates.params);
    ProtectionHarmless(p.report, p.gates.params.attach);
    hide AccountEntries, LeverageEntries, OrderEntries, PrecheckEntries, ProtectionEntries, Build, HarmlessKey, Clean;
    EntriesClean(AccountEntries(p.gates.account));
    if p.gates.leverage.Some? {
      LeverageHarmless(p.gates.leverage.value);
      EntriesClean(LeverageEntries(p.gates.leverage.value));
    }
    EntriesClean(OrderEntries(p.gates.params));
    EntriesClean(PrecheckEntries(p.gates.precheckPassed));
    EntriesClean(ProtectionEntries(p.report, p.gates.params.attach));
  }

  lemma FactKeys()
    ensures HarmlessKey("adapter") && HarmlessKey("executorAction") && HarmlessKey("idempotencyRecovery")
    ensures HarmlessKey("mainnet") && HarmlessKey("market") && HarmlessKey("protectionStatus")
    ensures HarmlessKey("provider") && HarmlessKey("providerStatus") && HarmlessKey("providerResultCode")
    ensures HarmlessKey("providerMessage") && HarmlessKey("clientOrderId") && HarmlessKey("providerOrderId")
  {
  }

  lemma FactsHarmless(p: Placed)
    ensures Harmless(FactEntries(p)) && Harmless(NameEntries(p))
  {
    FactKeys();
    LeavesAreClean();
    hide HarmlessKey, Clean, Status;
  }

  /** Whatever the exchange answered, the guard on the adapter's payload lets it pass. */
  lemma AdapterPayloadPasses(p: Placed)
    ensures Guarded(AdapterPayload(p)) == Ok(AdapterPayload(p))
  {
    PartsHarmless(p);
    FactsHarmless(p);
    hide PartEntries, FactEntries, NameEntries, ProtectionPart, HarmlessKey, Clean, Build, Harmless;
    HarmlessConcat(PartEntries(p), FactEntries(p));
    HarmlessConcat(PartEntries(p) + FactEntries(p), ProtectionPart(p));
    HarmlessConcat(PartEntries(p) + FactEntries(p) + ProtectionPart(p), NameEntries(p));
    EntriesClean(PartEntries(p) + FactEntries(p) + ProtectionPart(p) + NameEntries(p));
  }

  lemma RejectionKeys()
    ensures HarmlessKey("executorAction") && HarmlessKey("preflight") && HarmlessKey("preflightReasonCode")
    ensures HarmlessKey("reason") && HarmlessKey("zeroSecret")
    ensures HarmlessKey("adapterPreflight") && HarmlessKey("riskPreflight") && HarmlessKey("finalRiskPreflight")
    ensures HarmlessKey("adapterResult")
  {
  }

  /** A rejection whose extra fields have harmless names gets out. */
  lemma RejectionPasses(code: string, reason: string, extra: Entries)
    requires Harmless(extra)
    ensures Rejection(code, reason, extra).Ok? && Rejection(code, reason, extra).value.status == "rejected"
  {
    hide HarmlessKey, Clean, Build;
    RejectionKeys();
    LeavesAreClean();
    EntriesClean(RejectionFacts(code, reason) + extra);
  }

  lemma AckKeys()
    ensures HarmlessKey("adapterPreflight") && HarmlessKey("executionMode") && HarmlessKey("finalRiskPreflight")
    ensures HarmlessKey("preflight") && HarmlessKey("provider") && HarmlessKey("riskPreflight")
    ensures HarmlessKey("zeroSecret") && HarmlessKey("adapterResult") && HarmlessKey("executorAction")
    ensures HarmlessKey("providerStatus") && HarmlessKey("clientOrderId") && HarmlessKey("providerOrderId")
  {
  }

  lemma AckFactsHarmless(provider: string)
    ensures Harmless(AckFacts(provider))
  {
    hide HarmlessKey, Clean;
    AckKeys();
    LeavesAreClean();
  }

  lemma CopiedHarmless(payload: Fields, key: string)
    requires HarmlessKey(key)
    ensures Harmless(Copied(payload, key))
  {
    LeavesAreClean();
  }

  lemma ResultHarmless(adapterPayload: Fields)
    requires Clean(Obj(adapterPayload))
    ensures Harmless(ResultEntries(adapterPayload))
  {
    hide HarmlessKey, Clean, PyStr;
    AckKeys();
    LeavesAreClean();
  }

  /** Nor does the guard on the final decision fire: with a clean adapter payload, an
      acknowledgement always gets out. */
  lemma AcknowledgementPasses(adapterPayload: Fields, provider: string)
    requires Clean(Obj(adapterPayload))
    ensures Acknowledgement(adapterPayload, provider).Ok?
    ensures Acknowledgement(adapterPayload, provider).value.status == "acknowledged"
  {
    AckFactsHarmless(provider);
    ResultHarmless(adapterPayload);
    AckKeys();
    CopiedHarmless(adapterPayload, "providerStatus");
    CopiedHarmless(adapterPayload, "clientOrderId");
    CopiedHarmless(adapterPayload, "providerOrderId");
    hide AckFacts, ResultEntries, Copied, Build, Harmless, Clean, HarmlessKey;
    HarmlessConcat(AckFacts(provider), ResultEntries(adapterPayload));
    HarmlessConcat(AckFacts(provider) + ResultEntries(adapterPayload), Copied(adapterPayload, "providerStatus"));
    HarmlessConcat(AckFacts(provider) + ResultEntries(adapterPayload) + Copied(adapterPayload, "providerStatus"),
                   Copied(adapterPayload, "clientOrderId"));
    HarmlessConcat(AckEntries(adapterPayload, provider), Copied(adapterPayload, "providerOrderId"));
    EntriesClean(AckEntries(adapterPayload, provider) + Copied(adapterPayload, "providerOrderId"));
  }

  // ----- what an acknowledgement names ----------------------------------------------------

  lemma BuildLast(entries: Entries, key: string, value: Json)
    ensures Get(Build(entries + [(key, value)]), key) == value
  {
    var all := entries + [(key, value)];
    assert all[..|all| - 1] == entries;
  }

  lemma BuildOther(entries: Entries, key: string, value: Json, other: string)
    requires other != key
    ensures Get(Build(entries + [(key, value)]), other) == Get(Build(entries), other)
  {
    var all := entries + [(key, value)];
    assert all[..|all| - 1] == entries;
  }

  /** The last of several different keys to be set are the ones found. */
  lemma BuildFour(entries: Entries, a: (string, Json), b: (string, Json), c: (string, Json), d: (string, Json))
    requires a.0 != b.0 && a.0 != c.0 && a.0 != d.0 && b.0 != c.0 && b.0 != d.0 && c.0 != d.0
    ensures var built := Build(entries + [a, b, c, d]);
            Get(built, a.0) == a.1 && Get(built, b.0) == b.1 && Get(built, c.0) == c.1 && Get(built, d.0) == d.1
  {
    var one := entries + [a];
    var two, three := one + [b], one + [b] + [c];
    assert entries + [a, b, c, d] == three + [d];
    hide Build, Get;
    BuildLast(entries, a.0, a.1);
    BuildLast(one, b.0, b.1);
    BuildLast(two, c.0, c.1);
    BuildLast(three, d.0, d.1);
    BuildOther(one, b.0, b.1, a.0);
    BuildOther(two, c.0, c.1, a.0);
    BuildOther(two, c.0, c.1, b.0);
    BuildOther(three, d.0, d.1, a.0);
    BuildOther(three, d.0, d.1, b.0);
    BuildOther(three, d.0, d.1, c.0);
  }

  /** The adapter's payload says which order it is, whether it was found again, and how it is
      protected. */
  lemma AdapterPayloadNames(p: Placed)
    ensures Get(AdapterPayload(p), "idempotencyRecovery") == Bool(p.recovered)
    ensures Get(AdapterPayload(p), "protectionStatus") == Str(Status(p.report))
    ensures Get(AdapterPayload(p), "clientOrderId") == Str(p.gates.params.clOrdId)
    ensures Get(AdapterPayload(p), "providerOrderId") == Str(p.ordId)
  {
    hide PartEntries, FactEntries, ProtectionPart, Build, Status, Get;
    BuildFour(PartEntries(p) + FactEntries(p) + ProtectionPart(p),
              ("idempotencyRecovery", Bool(p.recovered)), ("protectionStatus", Str(Status(p.report))),
              ("clientOrderId", Str(p.gates.params.clOrdId)), ("providerOrderId", Str(p.ordId)));
  }

  lemma CopiedId(payload: Fields, provider: string, key: string, id: string)
    requires Get(payload, key) == Str(id) && id != ""
    ensures Get(Build(AckEntries(payload, provider) + Copied(payload, key)), key) == Str(id)
  {
    hide AckEntries, Build;
    assert Copied(payload, key) == [(key, Str(id))];
    BuildLast(AckEntries(payload, provider), key, Str(id));
  }

  lemma CopiedOther(entries: Entries, payload: Fields, key: string, other: string)
    requires other != key
    ensures Get(Build(entries + Copied(payload, key)), other) == Get(Build(entries), other)
  {
    hide Build, Get;
    if Copied(payload, key) == [] {
      assert entries + [] == entries;
    } else {
      BuildOther(entries, key, Copied(payload, key)[0].1, other);
    }
  }

  lemma ResultLast(payload: Fields)
    ensures ResultEntries(payload)[0..1] + [("adapterResult", Obj(payload))] == ResultEntries(payload)
  {
    hide PyStr;
  }

  /** The acknowledgement carries the adapter's payload as it is. */
  lemma AckCarries(payload: Fields, provider: string)
    ensures Get(Build(AckEntries(payload, provider) + Copied(payload, "providerOrderId")), "adapterResult")
         == Obj(payload)
  {
    ResultLast(payload);
    hide AckFacts, Build, Get, ResultEntries, Copied;
    var facts, result := AckFacts(provider), ResultEntries(payload);
    var before := facts + result[0..1];
    assert before + [("adapterResult", Obj(payload))] == facts + result;
    BuildLast(before, "adapterResult", Obj(payload));
    CopiedOther(facts + result, payload, "providerStatus", "adapterResult");
    CopiedOther(facts + result + Copied(payload, "providerStatus"), payload, "clientOrderId", "adapterResult");
    CopiedOther(AckEntries(payload, provider), payload, "providerOrderId", "adapterResult");
  }

  lemma AcknowledgementCopies(payload: Fields, provider: string, id: string)
    requires Clean(Obj(payload)) && Get(payload, "providerOrderId") == Str(id) && id != ""
    ensures var ack := Acknowledgement(payload, provider);
            && ack.Ok? && ack.value.status == "acknowledged"
            && Get(ack.value.payload, "providerOrderId") == Str(id)
            && Get(ack.value.payload, "adapterResult") == Obj(payload)
  {
    hide AckEntries, Copied, Build, Clean, Get;
    AcknowledgementPasses(payload, provider);
    CopiedId(payload, provider, "providerOrderId", id);
    AckCarries(payload, provider);
  }

  /** The acknowledgement of a placed order names the order, and carries the adapter's payload. */
  lemma AcknowledgementNames(p: Placed, provider: string)
    requires p.ordId != ""
    ensures var ack := Acknowledgement(AdapterPayload(p), provider);
            && ack.Ok? && ack.value.status == "acknowledged"
            && Get(ack.value.payload, "providerOrderId") == Str(p.ordId)
            && Get(ack.value.payload, "adapterResult") == Obj(AdapterPayload(p))
  {
    AdapterPayloadPasses(p);
    AdapterPayloadNames(p);
    hide AdapterPayload, Acknowledgement, Clean, Get;
    AcknowledgementCopies(AdapterPayload(p), provider, p.ordId);
  }

  // ----- reading a payload back -----------------------------------------------------------

  /** None of the entries is under this key. */
  predicate Without(entries: Entries, key: string) {
    forall i | 0 <= i < |entries| :: entries[i].0 != key
  }

  lemma {:induction false} BuildSkips(before: Entries, after: Entries, key: string)
    requires Without(after, key)
    ensures Get(Build(before + after), key) == Get(Build(before), key)
  {
    if after == [] {
      assert before + after == before;
    } else {
      hide Build, Get;
      var front, last := after[..|after| - 1], after[|after| - 1];
      assert before + after == (before + front) + [(last.0, last.1)];
      BuildSkips(before, front, key);
      BuildOther(before + front, last.0, last.1, key);
    }
  }

  /** An entry that no later one overwrites is found. */
  lemma BuildFinds(entries: Entries, i: int)
    requires 0 <= i < |entries| && Without(entries[i + 1..], entries[i].0)
    ensures Get(Build(entries), entries[i].0) == entries[i].1
  {
    hide Build, Get;
    assert entries == (entries[..i] + [(entries[i].0, entries[i].1)]) + entries[i + 1..];
    BuildSkips(entries[..i] + [(entries[i].0, entries[i].1)], entries[i + 1..], entries[i].0);
    BuildLast(entries[..i], entries[i].0, entries[i].1);
  }

  /** The protection part of the payload says the same status as the payload. */
  lemma StatusTwice(p: Placed)
    ensures Get(AdapterPayload(p), "protectionStatus") == Str(Status(p.report))
    ensures Get(AdapterPayload(p), "protection").Obj?
    ensures Get(GetFields(AdapterPayload(p), "protection"), "status") == Str(Status(p.report))
  {
    AdapterPayloadNames(p);
    NamesAreOthers(p);
    hide PartEntries, FactEntries, NameEntries, ProtectionEntries, Build, Status, Get, Without;
    var inner := Obj(Build(ProtectionEntries(p.report, p.gates.params.attach)));
    BuildSkips(PartEntries(p) + FactEntries(p) + ProtectionPart(p), NameEntries(p), "protection");
    BuildLast(PartEntries(p) + FactEntries(p), "protection", inner);
    StatusLast(p.report, p.gates.params.attach);
  }

  lemma NamesAreOthers(p: Placed)
    ensures Without(NameEntries(p), "protection") && Without(NameEntries(p), "normalizedOrder")
    ensures Without(ProtectionPart(p), "normalizedOrder") && Without(FactEntries(p), "normalizedOrder")
  {
    hide Status, Build, ProtectionEntries;
  }

  lemma StatusLast(report: Report, attach: Option<Attach>)
    ensures Get(Build(ProtectionEntries(report, attach)), "status") == Str(Status(report))
  {
    hide Build, Get, Status, ReportEntries, StopEntries, TargetEntries;
    BuildLast(if attach.None? then [("reasonCode", Str("protection_not_required"))]
              else ReportEntries(report, attach.value) + StopEntries(attach.value) + TargetEntries(attach.value),
              "status", Str(Status(report)));
  }

  /** The status texts, each for one kind of report, and all different. */
  lemma StatusTexts(report: Report)
    ensures Status(report) == "not_required" <==> report.NotRequired?
    ensures Status(report) == "protected" <==> report.Protected?
    ensures Status(report) == "pending_activation" <==> report.PendingActivation?
    ensures Status(report) == "protected_remediated" <==> report.Remediated?
    ensures Status(report) == "unprotected" <==> report.Unprotected?
    ensures Status(report) == "verification_failed" <==> report.VerificationFailed?
  {
    TextsDiffer();
  }

  lemma TextsDiffer()
    ensures |"not_required"| == 12 && |"protected"| == 9 && |"pending_activation"| == 18
    ensures |"protected_remediated"| == 20 && |"unprotected"| == 11 && |"verification_failed"| == 19
  {
  }

  /** What the text that is reported as the protection status means, in terms of the exchange's answers
      and of the stops that were tried. */
  ghost predicate StatusSays(status: string, stops: seq<AlgoParams>, p: Placed, answers: Answers) {
    && status in {"not_required", "protected", "pending_activation", "protected_remediated", "unprotected",
                  "verification_failed"}
    && (status == "not_required" <==> p.gates.params.attach.None?)
    && (status == "protected" ==> stops == [] && exists algo ::
          SeenPending(answers, algo, p.gates.params.attach.value, p.ordId))
    && (status == "pending_activation" ==> stops == [] && SeenPosition(answers, p.gates.rules.instId).None?)
    && (status == "protected_remediated" <==> stops != [] && StopTaken(answers))
    && (status == "unprotected" <==> stops != [] && StopDeclined(answers))
    && (stops != [] ==> |stops| == 1 && SeenPosition(answers, p.gates.rules.instId).Some?)
  }

  /** Over any answers, both status texts of an acknowledged attempt say what the answers showed. */
  lemma ReportedStatusSound(r: OrderRequests.Request, answers: Answers, sha: string -> string)
    requires PrepareOrder(r, answers, sha).outcome.Ok?
    ensures var run := PrepareOrder(r, answers, sha);
            var payload := AdapterPayload(run.outcome.value);
            && Get(payload, "protectionStatus").Str?
            && Get(GetFields(payload, "protection"), "status") == Get(payload, "protectionStatus")
            && StatusSays(Get(payload, "protectionStatus").text, AlgoPlacements(run.calls), run.outcome.value, answers)
  {
    hide PrepareOrder, PassGates, Lookup, PlaceAnswer, OrdId, SafeVerify, OrderParams, OrderRow, RulesOk,
      AdapterPayload, Get, GetFields, Status, AlgoPlacements, StatusSays;
    var p := PrepareOrder(r, answers, sha).outcome.value;
    StatusTwice(p);
    AcknowledgedMeans(r, answers, sha);
    AttemptTries(r, answers, p.gates, p.ordId, sha);
    OpenNeedsProtection(r, p.gates.rules, sha);
    var row := OrderRow(answers).value;
    var check := SafeVerify(r, p.gates.params, row, p.ordId, p.gates.rules, answers, sha);
    ProtectionSound(r, p.gates.params, row, p.ordId, p.gates.rules, answers, sha);
    ReportOfStop(r, p.gates.params, row, p.ordId, p.gates.rules, answers, sha);
    StatusOfReport(p, AlgoPlacements(check.calls), row, answers);
  }

  lemma StatusOfReport(p: Placed, stops: seq<AlgoParams>, row: Fields, answers: Answers)
    requires ReportMeans(p.report, stops, p.gates.params, row, p.ordId, p.gates.rules, answers)
    requires p.report.Remediated? ==> StopTaken(answers)
    requires p.report.Unprotected? ==> StopDeclined(answers)
    ensures StatusSays(Status(p.report), stops, p, answers)
  {
    StatusTexts(p.report);
    TakenOrDeclined(answers);
    StatusIsOne(p.report);
    hide Status, SeenPending, NonePending, SeenPosition, ClosesPosition, StopTaken, StopDeclined, Refusal;
  }

  lemma StatusIsOne(report: Report)
    ensures Status(report) in {"not_required", "protected", "pending_activation", "protected_remediated", "unprotected",
                               "verification_failed"}
  {
  }

  lemma TakenOrDeclined(answers: Answers)
    ensures !(StopTaken(answers) && StopDeclined(answers))
  {
    hide ResponseData, SaysRefusal;
  }

  // ----- the order as reported ------------------------------------------------------------

  lemma BaseFinds(params: Params)
    ensures var base := Build(OrderBase(params));
            && Get(base, "instId") == Str(params.instId) && Get(base, "ordType") == Str(params.ordType)
            && Get(base, "side") == Str(params.side) && Get(base, "sz") == Str(WireText(params.sz))
            && Get(base, "tdMode") == Str(params.tdMode)
  {
    hide Build, Get, WireText;
    var base := OrderBase(params);
    BuildFinds(base, 0);
    BuildFinds(base, 1);
    BuildFinds(base, 3);
    BuildFinds(base, 4);
    BuildFinds(base, 5);
  }

  lemma OptionsAreOthers(params: Params)
    ensures forall key | key in {"instId", "ordType", "side", "sz", "tdMode"} :: Without(OrderOptions(params), key)
    ensures forall key | key in {"instId", "ordType", "side", "sz", "tdMode", "px", "reduceOnly"} ::
              Without(AttachedEntries(params.attach), key)
    ensures Without(OrderBase(params), "px") && Without(OrderBase(params), "reduceOnly")
    ensures forall text :: Without(IfPresent("reduceOnly", text), "px") && Without(IfPresent("px", text), "reduceOnly")
  {
    hide Build, WireText, AttachedStop, AttachedTarget;
  }

  lemma PresentFinds(entries: Entries, key: string, text: Option<string>)
    requires Without(entries, key)
    ensures Get(Build(entries + IfPresent(key, text)), key) == MaybeText(text)
  {
    hide Build;
    if text.Some? {
      BuildLast(entries, key, Str(text.value));
    } else {
      assert entries + [] == entries && [] + entries == entries;
      BuildSkips([], entries, key);
      BuildNothing(key);
    }
  }

  lemma BuildNothing(key: string)
    ensures Get(Build([]), key) == Null
  {
  }

  /** A price is reported exactly if there is one, and so is the flag. */
  lemma OptionsFind(params: Params)
    ensures var o := Build(OrderBase(params) + OrderOptions(params));
            && Get(o, "px") == (if params.px.Some? then Str(WireText(params.px.value)) else Null)
            && Get(o, "reduceOnly") == (if params.reduceOnly then Str("true") else Null)
  {
    OptionsAreOthers(params);
    hide Build, Get, OrderBase, IfPresent, WireText, Without;
    var px := if params.px.Some? then Some(WireText(params.px.value)) else None;
    var reduce := if params.reduceOnly then Some("true") else None;
    var base := OrderBase(params);
    assert OrderBase(params) + OrderOptions(params) == (base + IfPresent("px", px)) + IfPresent("reduceOnly", reduce);
    PresentFinds(base, "px", px);
    BuildSkips(base + IfPresent("px", px), IfPresent("reduceOnly", reduce), "px");
    WithoutBoth(base, IfPresent("px", px), "reduceOnly");
    PresentFinds(base + IfPresent("px", px), "reduceOnly", reduce);
  }

  lemma WithoutBoth(a: Entries, b: Entries, key: string)
    requires Without(a, key) && Without(b, key)
    ensures Without(a + b, key)
  {
  }

  /** The normalized order that is reported is the one that was sent: instrument, type, side, margin mode,
      size and price, and the flag. */
  lemma ReportedOrderIsSent(p: Placed)
    ensures var o := GetFields(AdapterPayload(p), "normalizedOrder");
            && Get(o, "instId") == Str(p.gates.params.instId) && Get(o, "ordType") == Str(p.gates.params.ordType)
            && Get(o, "side") == Str(p.gates.params.side) && Get(o, "tdMode") == Str(p.gates.params.tdMode)
            && Get(o, "sz") == Str(WireText(p.gates.params.sz))
            && Get(o, "px") == (if p.gates.params.px.Some? then Str(WireText(p.gates.params.px.value)) else Null)
            && Get(o, "reduceOnly") == (if p.gates.params.reduceOnly then Str("true") else Null)
  {
    NormalizedOrder(p);
    OptionsFind(p.gates.params);
    BaseFinds(p.gates.params);
    OptionsAreOthers(p.gates.params);
    hide AdapterPayload, Build, Get, GetFields, OrderBase, OrderOptions, AttachedEntries, WireText, Without;
    var params := p.gates.params;
    forall key | key in {"instId", "ordType", "side", "sz", "tdMode"}
      ensures Get(Build(OrderEntries(params)), key) == Get(Build(OrderBase(params)), key) {
      BuildSkips(OrderBase(params), OrderOptions(params), key);
      BuildSkips(OrderBase(params) + OrderOptions(params), AttachedEntries(params.attach), key);
    }
    BuildSkips(OrderBase(params) + OrderOptions(params), AttachedEntries(params.attach), "px");
    BuildSkips(OrderBase(params) + OrderOptions(params), AttachedEntries(params.attach), "reduceOnly");
  }

  /** A rejection says why: the code is under its key. */
  lemma RejectionSays(code: string, reason: string, extra: Entries)
    requires Harmless(extra) && Without(extra, "preflightReasonCode")
    ensures Rejection(code, reason, extra).Ok?
    ensures Get(Rejection(code, reason, extra).value.payload, "preflightReasonCode") == Str(code)
  {
    RejectionPasses(code, reason, extra);
    CodeIsApart(code, reason);
    hide Build, Get, Without, Clean, Harmless;
    BuildSkips(RejectionFacts(code, reason), extra, "preflightReasonCode");
    BuildFinds(RejectionFacts(code, reason), 2);
  }

  lemma CodeIsApart(code: string, reason: string)
    ensures Without(RejectionFacts(code, reason)[3..], "preflightReasonCode")
  {
  }

  // ----- the bracket as reported ----------------------------------------------------------

  /** The two triggers that are reported are those of the bracket. */
  lemma ReportedBracket(report: Report, attach: Attach)
    ensures var o := Build(ProtectionEntries(report, Some(attach)));
            && Get(o, "slTriggerPx") == Str(WireText(attach.stopLoss))
            && (attach.takeProfit.Some? ==> Get(o, "tpTriggerPx") == Str(WireText(attach.takeProfit.value)))
  {
    BracketIsApart(report, attach);
    hide Build, Get, WireText, Status, ReportEntries, Without;
    var after := [("status", Str(Status(report)))];
    var stop, target := ReportEntries(report, attach) + StopEntries(attach), TargetEntries(attach);
    assert ProtectionEntries(report, Some(attach)) == stop + target + after;
    BuildSkips(stop + target, after, "slTriggerPx");
    BuildSkips(stop, target, "slTriggerPx");
    Found(ReportEntries(report, attach), StopEntries(attach), 1);
    if attach.takeProfit.Some? {
      BuildSkips(stop + target, after, "tpTriggerPx");
      Found(stop, target, 1);
    }
  }

  /** An entry of the last part that no later one overwrites is found. */
  lemma Found(before: Entries, last: Entries, i: int)
    requires 0 <= i < |last| && Without(last[i + 1..], last[i].0)
    ensures Get(Build(before + last), last[i].0) == last[i].1
  {
    hide Build, Get, Without;
    assert before + last == (before + last[..i + 1]) + last[i + 1..];
    BuildSkips(before + last[..i + 1], last[i + 1..], last[i].0);
    assert before + last[..i + 1] == (before + last[..i]) + [(last[i].0, last[i].1)];
    BuildLast(before + last[..i], last[i].0, last[i].1);
  }

  lemma BracketIsApart(report: Report, attach: Attach)
    ensures Without([("status", Str(Status(report)))], "slTriggerPx")
    ensures Without([("status", Str(Status(report)))], "tpTriggerPx")
    ensures Without(TargetEntries(attach), "slTriggerPx") && Without(StopEntries(attach)[2..], "slTriggerPx")
    ensures attach.takeProfit.Some? ==> Without(TargetEntries(attach)[2..], "tpTriggerPx")
  {
    hide WireText, Status;
  }

  lemma NormalizedOrder(p: Placed)
    ensures GetFields(AdapterPayload(p), "normalizedOrder") == Build(OrderEntries(p.gates.params))
  {
    NamesAreOthers(p);
    PartsFind(p);
    hide PartEntries, FactEntries, ProtectionPart, NameEntries, Build, Get, Without, OrderEntries;
    var key := "normalizedOrder";
    BuildSkips(PartEntries(p), FactEntries(p), key);
    BuildSkips(PartEntries(p) + FactEntries(p), ProtectionPart(p), key);
    BuildSkips(PartEntries(p) + FactEntries(p) + ProtectionPart(p), NameEntries(p), key);
  }

  lemma PartsFind(p: Placed)
    ensures Get(Build(PartEntries(p)), "normalizedOrder") == Obj(Build(OrderEntries(p.gates.params)))
  {
    hide Build, Get, OrderEntries, AccountEntries, LeverageEntries, PrecheckEntries;
    BuildFinds(PartEntries(p), 2);
  }
}
