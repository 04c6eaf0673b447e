/** `risk.py`: the local fail-safe policy, its file, and the gate every command passes. */
module Risk {
  import opened Wrappers
  import opened Texts
  import opened JsonValues
  import opened Decimals
  import opened DecimalText
  import Guards

  // ----- policy ---------------------------------------------------------------------------

  /** `appOwned` holds the trading limits YTM owns (symbols, notional, leverage, ...): the
      executor parses them but never decides by them. */
  datatype Policy = Policy(
    configured: bool, enabled: bool, killSwitch: bool, paperOnly: bool,
    maxDailyLoss: Option<Dec>, maxTotalDrawdown: Option<Dec>,
    appOwned: Fields)

  const MISSING_POLICY := Policy(false, false, true, true, None, None, map[])

  predicate AppOwnedKey(key: string) {
    key in {
      "allowedMarkets", "allowedMarginModes", "allowedSymbols", "allowedOrderTypes",
      "maxOrderNotional", "maxPositionNotional", "maxSymbolNotional", "maxLeverage", "positionMode"
    }
  }

  function NormalLower(s: string): string {
    Replace(Lower(Strip(s)), '-', '_')
  }

  /** `_normalized_lower_text`. */
  function LowerText(j: Json, default: string): string {
    if j.Str? then NormalLower(j.text) else default
  }

  /** `_positive_decimal`. */
  function PositiveDecimal(j: Json): Try<Dec> {
    if !j.Str? && !j.Num? then ValueError(NotNumeric)
    else match ReadDecimal(j.text)
      case None => ValueError(NotNumeric)
      case Some(d) => if d.coeff <= 0 then ValueError(NotPositive) else Ok(d)
  }

  /** `_optional_decimal`. */
  function OptionalDecimal(j: Json): Try<Option<Dec>> {
    if j.Null? then Ok(None)
    else
      var d :- PositiveDecimal(j);
      Ok(Some(d))
  }

  /** `_bool`: the default applies only when the key is absent. */
  function Flag(payload: Fields, key: string, default: bool): Try<bool> {
    if key !in payload then Ok(default)
    else if payload[key].Bool? then Ok(payload[key].b)
    else ValueError(Malformed)
  }

  /** A list field whose normalized entries are all supported. */
  predicate ListWithin(j: Json, supported: set<string>) {
    j.Null? || (j.Arr? && forall item | item in j.items ::
                  item.Str? && (NormalLower(item.text) == "" || NormalLower(item.text) in supported))
  }

  predicate AppOwnedOk(fields: Fields) {
    && ListWithin(Get(fields, "allowedMarkets"), {"okx_swap", "usdm_futures"})
    && ListWithin(Get(fields, "allowedMarginModes"), {"cross", "isolated"})
    && ListWithin(Get(fields, "allowedOrderTypes"),
                  {"limit", "market", "stop", "stop_limit", "stop_market"})
    && (var symbols := Get(fields, "allowedSymbols");
        symbols.Null? || (symbols.Arr? && forall item | item in symbols.items :: item.Str?))
    && OptionalDecimal(Get(fields, "maxOrderNotional")).Ok?
    && OptionalDecimal(Get(fields, "maxPositionNotional")).Ok?
    && (var bySymbol := Get(fields, "maxSymbolNotional");
        bySymbol.Null? || (bySymbol.Obj? && forall key | key in bySymbol.fields ::
                             Strip(key) != "" && PositiveDecimal(bySymbol.fields[key]).Ok?))
    && ("maxLeverage" in fields ==> PositiveDecimal(fields["maxLeverage"]).Ok?)
    && LowerText(Get(fields, "positionMode"), "one_way") == "one_way"
  }

  predicate LimitOk(limit: Option<Dec>) {
    limit.Some? ==> limit.value.coeff > 0
  }

  /** `policy_configuration_errors` is empty. */
  predicate ConfigurationOk(p: Policy) {
    && (p.enabled || p.killSwitch)
    && LimitOk(p.maxDailyLoss) && LimitOk(p.maxTotalDrawdown)
    && AppOwnedOk(p.appOwned)
  }

  // ----- policy file ----------------------------------------------------------------------

  /** `version != 1` is false: Python also equates `True` and `1.0` with 1. */
  predicate IsOne(j: Json) {
    j == Num("1") || j == Num("1.0") || j == Bool(true)
  }

  function ReadPolicy(file: JsonFile): Try<Policy> {
    match file
    case Absent => Ok(MISSING_POLICY)
    case Unreadable => ValueError(Malformed)
    case Holding(content) =>
      if !content.Obj? then ValueError(Malformed)
      else if !Guards.Clean(content) then ValueError(SecretField)
      else DecodePolicy(content.fields)
  }

  function DecodePolicy(payload: Fields): Try<Policy> {
    if "version" in payload && !IsOne(payload["version"]) then
      ValueError(Malformed)
    else
      var enabled :- Flag(payload, "enabled", true);
      var killSwitch :- Flag(payload, "killSwitch", true);
      var paperOnly :- Flag(payload, "paperOnly", true);
      var daily :- OptionalDecimal(Get(payload, "maxDailyLoss"));
      var total :- OptionalDecimal(Get(payload, "maxTotalDrawdown"));
      var policy := Policy(true, enabled, killSwitch, paperOnly, daily, total, AppOwnedPart(payload));
      if ConfigurationOk(policy) then Ok(policy)
      else ValueError(Malformed)
  }

  function AppOwnedPart(payload: Fields): Fields {
    map key | key in payload && AppOwnedKey(key) :: payload[key]
  }

  function LimitField(key: string, limit: Option<Dec>): Fields
    requires LimitOk(limit)
  {
    match limit
    case None => map[]
    case Some(d) => map[key := Str(Text(d))]
  }

  function PolicyFlags(p: Policy): Fields {
    map["enabled" := Bool(p.enabled), "killSwitch" := Bool(p.killSwitch),
        "paperOnly" := Bool(p.paperOnly), "version" := Num("1")]
  }

  /** `risk_policy_to_file_payload`: the app-owned limits are not written. */
  function PolicyPayload(p: Policy): Fields
    requires LimitOk(p.maxDailyLoss) && LimitOk(p.maxTotalDrawdown)
  {
    PolicyFlags(p)
    + LimitField("maxDailyLoss", p.maxDailyLoss)
    + LimitField("maxTotalDrawdown", p.maxTotalDrawdown)
  }

  /** `write_risk_policy`. */
  function WritePolicy(p: Policy): Try<JsonFile> {
    if ConfigurationOk(p) then Ok(Holding(Obj(PolicyPayload(p))))
    else ValueError(Malformed)
  }

  // ----- the gate -------------------------------------------------------------------------

  type Day = string

  datatype RiskState = RiskState(
    lossByDay: map<Day, real>, openByDay: map<Day, real>,
    initial: Option<real>, current: Option<real>)

  const EMPTY_STATE := RiskState(map[], map[], None, None)

  datatype RiskDecision = Passed | Blocked(code: string)

  /** `_first`: for each key in turn, the command itself before its payload. */
  function First(command: Fields, payload: Fields, keys: seq<string>): Json {
    if keys == [] then Null
    else if keys[0] in command then command[keys[0]]
    else if keys[0] in payload then payload[keys[0]]
    else First(command, payload, keys[1..])
  }

  /** `_bool_like`. */
  function BoolLike(j: Json): Option<bool> {
    match j
    case Bool(b) => Some(b)
    case Str(text) =>
      var s := Lower(Strip(text));
      if s in {"true", "1", "yes"} then Some(true)
      else if s in {"false", "0", "no"} then Some(false)
      else None
    case _ => None
  }

  function Market(command: Fields, payload: Fields): string {
    LowerText(First(command, payload, ["market", "brokerMarket", "exchangeMarket"]), "")
  }

  /** `_evaluate_futures_risk`. */
  function FuturesDecision(command: Fields, payload: Fields, market: string): RiskDecision {
    if market !in {"okx_swap", "usdm_futures"} then Passed
    else
      var marginMode := LowerText(First(command, payload, ["marginMode", "marginType"]), "");
      var positionMode := LowerText(First(command, payload, ["positionMode"]), "one_way");
      var reduceOnly := BoolLike(First(command, payload, ["reduceOnly"]));
      var effect := LowerText(First(command, payload, ["positionEffect", "effect"]), "");
      if marginMode == "" then Blocked("risk_futures_margin_mode_missing")
      else if marginMode !in {"cross", "isolated"} then Blocked("risk_futures_margin_mode_unsupported")
      else if positionMode != "one_way" then Blocked("risk_futures_position_mode_unsupported")
      else if BoolLike(First(command, payload, ["closePosition"])) == Some(true) then
        Blocked("risk_futures_close_position_unsupported")
      else if effect == "open" && reduceOnly == Some(true) then Blocked("risk_futures_reduce_only_open")
      else if effect in {"reduce", "close"} && reduceOnly == Some(false) then
        Blocked("risk_futures_reduce_only_required")
      else Passed
  }

  function DailyDecision(limit: Option<Dec>, state: RiskState, today: Day): RiskDecision {
    if limit.None? then Passed
    else if today !in state.lossByDay then Blocked("risk_state_missing")
    else if state.lossByDay[today] >= Value(limit.value) then Blocked("risk_daily_loss_exceeded")
    else Passed
  }

  function TotalDecision(limit: Option<Dec>, state: RiskState): RiskDecision {
    if limit.None? then Passed
    else if state.initial.None? || state.current.None? then Blocked("risk_state_missing")
    else if state.initial.value - state.current.value >= Value(limit.value) then
      Blocked("risk_total_drawdown_exceeded")
    else Passed
  }

  /** The YTM attestation a real command must carry. */
  predicate Attested(payload: Fields) {
    Get(payload, "riskControls").Obj? && Get(GetFields(payload, "riskControls"), "source") == Str("ytm")
  }

  /** `evaluate_command_risk`. */
  function Evaluate(command: Fields, mode: string, policy: Policy, state: RiskState, today: Day): RiskDecision {
    var payload := GetFields(command, "commandPayload");
    if !policy.configured then Blocked("risk_policy_missing")
    else if !policy.enabled then Blocked("risk_policy_disabled")
    else if policy.killSwitch then Blocked("risk_kill_switch_enabled")
    else if mode == "real" && policy.paperOnly then Blocked("risk_paper_only")
    else if mode == "real" && !Attested(payload) then Blocked("risk_controls_missing")
    else if Market(command, payload) == "" then Blocked("risk_market_missing")
    else if FuturesDecision(command, payload, Market(command, payload)).Blocked? then
      FuturesDecision(command, payload, Market(command, payload))
    else if mode != "real" then Passed
    else if DailyDecision(policy.maxDailyLoss, state, today).Blocked? then
      DailyDecision(policy.maxDailyLoss, state, today)
    else TotalDecision(policy.maxTotalDrawdown, state)
  }

  /** The policy lets real commands through at all. */
  predicate Live(p: Policy) {
    p.configured && p.enabled && !p.killSwitch && !p.paperOnly
  }

  /** What a passed gate says about a real command, in terms of the policy and the state. */
  predicate WithinLimits(p: Policy, state: RiskState, today: Day) {
    && (p.maxDailyLoss.Some? ==>
          today in state.lossByDay && state.lossByDay[today] < Value(p.maxDailyLoss.value))
    && (p.maxTotalDrawdown.Some? ==>
          && state.initial.Some? && state.current.Some?
          && state.initial.value - state.current.value < Value(p.maxTotalDrawdown.value))
  }

  /** The gate is fail-closed: a real command passes iff every condition holds. */
  lemma GateExactly(command: Fields, policy: Policy, state: RiskState, today: Day)
    ensures Evaluate(command, "real", policy, state, today).Passed? <==>
      var payload := GetFields(command, "commandPayload");
      && Live(policy) && Attested(payload) && Market(command, payload) != ""
      && FuturesDecision(command, payload, Market(command, payload)).Passed?
      && WithinLimits(policy, state, today)
  {
  }

  // ----- monotonicity ---------------------------------------------------------------------

  /** An absent limit is an infinite one. */
  predicate LimitAtMost(p: Option<Dec>, q: Option<Dec>) {
    q.Some? ==> p.Some? && Value(p.value) <= Value(q.value)
  }

  predicate AtLeastAsPermissive(q: Policy, p: Policy) {
    && (p.configured ==> q.configured) && (p.enabled ==> q.enabled)
    && (q.killSwitch ==> p.killSwitch) && (q.paperOnly ==> p.paperOnly)
    && LimitAtMost(p.maxDailyLoss, q.maxDailyLoss)
    && LimitAtMost(p.maxTotalDrawdown, q.maxTotalDrawdown)
  }

  /** Missing figures count as the worst ones. */
  predicate NoWorse(t: RiskState, s: RiskState, today: Day) {
    && (today in s.lossByDay ==> today in t.lossByDay && t.lossByDay[today] <= s.lossByDay[today])
    && (s.initial.Some? && s.current.Some? ==>
          && t.initial.Some? && t.current.Some?
          && t.initial.value - t.current.value <= s.initial.value - s.current.value)
  }

  /** Tightening the policy, or a worse day, never turns a block into a pass. */
  lemma GateMonotone(command: Fields, mode: string, p: Policy, q: Policy, s: RiskState, t: RiskState, today: Day)
    requires AtLeastAsPermissive(q, p) && NoWorse(t, s, today)
    requires Evaluate(command, mode, p, s, today).Passed?
    ensures Evaluate(command, mode, q, t, today).Passed?
  {
  }

  // ----- fail-safe defaults ---------------------------------------------------------------

  /** Nothing is live by default: a live policy comes from a file that says in so many words that
      the kill switch is off and real commands are allowed, and does not disable itself. */
  lemma LiveIsExplicit(file: JsonFile)
    requires ReadPolicy(file).Ok? && Live(ReadPolicy(file).value)
    ensures file.Holding? && file.content.Obj? && Guards.Clean(file.content)
    ensures Get(file.content.fields, "killSwitch") == Bool(false)
    ensures Get(file.content.fields, "paperOnly") == Bool(false)
    ensures Get(file.content.fields, "enabled") in {Null, Bool(true)}
  {
    hide Guards.Clean, OptionalDecimal, ConfigurationOk, AppOwnedPart;
  }

  /** The flag is what the file says, or the default if it says nothing. */
  predicate FlagSaid(flag: bool, fields: Fields, key: string, default: bool) {
    if key in fields then fields[key] == Bool(flag) else flag == default
  }

  /** The limit is the positive number the file gives, as a text or as a number, or none if it gives none. */
  predicate LimitSaid(limit: Option<Dec>, fields: Fields, key: string) {
    if Get(fields, key).Null? then limit.None?
    else
      && (Get(fields, key).Str? || Get(fields, key).Num?) && limit.Some?
      && ReadDecimal(Get(fields, key).text) == limit && limit.value.coeff > 0
  }

  /** A policy that is read says what its file says. */
  lemma PolicySaysFile(file: JsonFile)
    requires ReadPolicy(file).Ok?
    ensures var p := ReadPolicy(file).value;
            && (file.Absent? ==> !p.configured && !p.enabled && p.killSwitch && p.paperOnly)
            && (!file.Absent? ==>
                  && file.Holding? && file.content.Obj? && p.configured
                  && FlagSaid(p.enabled, file.content.fields, "enabled", true)
                  && FlagSaid(p.killSwitch, file.content.fields, "killSwitch", true)
                  && FlagSaid(p.paperOnly, file.content.fields, "paperOnly", true)
                  && LimitSaid(p.maxDailyLoss, file.content.fields, "maxDailyLoss")
                  && LimitSaid(p.maxTotalDrawdown, file.content.fields, "maxTotalDrawdown"))
  {
    hide Guards.Clean, ConfigurationOk, AppOwnedPart, ReadDecimal;
  }

  predicate Given(o: Fields, p: Fields, key: string) {
    key in o || key in p
  }

  /** A field is taken from the first of its names that is given at all, and from the command
      itself before its payload; given under none of them, it is null. */
  lemma {:induction false} FirstIsFirst(command: Fields, payload: Fields, keys: seq<string>)
    ensures (forall i | 0 <= i < |keys| :: !Given(command, payload, keys[i])) ==> First(command, payload, keys) == Null
    ensures forall i | 0 <= i < |keys| && Given(command, payload, keys[i])
                       && (forall j | 0 <= j < i :: !Given(command, payload, keys[j])) ::
              First(command, payload, keys) == if keys[i] in command then command[keys[i]] else payload[keys[i]]
  {
    if keys != [] && !Given(command, payload, keys[0]) {
      FirstIsFirst(command, payload, keys[1..]);
      forall i | 0 <= i < |keys| && Given(command, payload, keys[i])
                 && (forall j | 0 <= j < i :: !Given(command, payload, keys[j]))
        ensures First(command, payload, keys) == if keys[i] in command then command[keys[i]] else payload[keys[i]] {
        assert keys[1..][i - 1] == keys[i];
      }
      assert forall i | 0 <= i < |keys| - 1 :: keys[1..][i] == keys[i + 1];
    }
  }
}
