/** `risk.py`: what the gate decides, in terms of the fields a command gives. */
module GateFields {
  import opened Wrappers
  import opened Texts
  import opened JsonValues
  import opened Decimals
  import Risk
  import OrderRequests

  /** What the command says under the first of the names it gives; null if it gives none of them. */
  ghost predicate Under(command: Fields, names: seq<string>, said: Json) {
    || (OrderRequests.NotGiven(command, names) && said == Null)
    || exists i :: OrderRequests.FirstGiven(command, names, i) && said == OrderRequests.Said(command, names[i])
  }

  lemma {:induction false} UnderIsFirst(command: Fields, names: seq<string>, said: Json)
    requires Under(command, names, said)
    ensures said == Risk.First(command, GetFields(command, "commandPayload"), names)
  {
    var payload := GetFields(command, "commandPayload");
    Risk.FirstIsFirst(command, payload, names);
    hide Risk.First, GetFields;
  }

  /** The value is a text that spells the word. */
  ghost predicate Reads(j: Json, word: string) {
    j.Str? && Spells(j.text, word)
  }

  ghost predicate ReadsYes(j: Json) {
    j == Bool(true) || Reads(j, "true") || Reads(j, "1") || Reads(j, "yes")
  }

  ghost predicate ReadsNo(j: Json) {
    j == Bool(false) || Reads(j, "false") || Reads(j, "0") || Reads(j, "no")
  }

  lemma LowerTextReads(j: Json, default: string, word: string)
    requires Stripped(word)
    ensures Risk.LowerText(j, default) == word <==> if j.Str? then Reads(j, word) else default == word
  {
    hide Strip, Lower, Replace, Spells;
    if j.Str? {
      NormalizedSpells(j.text, word);
    }
  }

  lemma BoolLikeReads(j: Json)
    ensures Risk.BoolLike(j) == Some(true) <==> ReadsYes(j)
    ensures Risk.BoolLike(j) == Some(false) <==> ReadsNo(j)
  {
    hide Strip, Lower, Spells;
    if j.Str? {
      forall word | word in {"true", "1", "yes", "false", "0", "no"}
        ensures Lower(Strip(j.text)) == word <==> Reads(j, word) {
        LoweredSpells(j.text, word);
      }
    }
  }

  /** What a command for a futures market has to say: a margin mode that is supported, no other position
      mode than one-way, not to close the position, and nothing against its effect about reducing. */
  ghost predicate FuturesAllowed(margin: Json, position: Json, close: Json, reduce: Json, effect: Json) {
    && (Reads(margin, "cross") || Reads(margin, "isolated"))
    && (position.Str? ==> Reads(position, "one_way"))
    && !ReadsYes(close)
    && !(Reads(effect, "open") && ReadsYes(reduce))
    && !((Reads(effect, "reduce") || Reads(effect, "close")) && ReadsNo(reduce))
  }

  /** The fields the gate looks at. */
  datatype Said = Said(market: Json, margin: Json, position: Json, close: Json, reduce: Json, effect: Json)

  ghost predicate Says(command: Fields, said: Said) {
    && Under(command, ["market", "brokerMarket", "exchangeMarket"], said.market)
    && Under(command, ["marginMode", "marginType"], said.margin)
    && Under(command, ["positionMode"], said.position)
    && Under(command, ["closePosition"], said.close)
    && Under(command, ["reduceOnly"], said.reduce)
    && Under(command, ["positionEffect", "effect"], said.effect)
  }

  ghost predicate FieldsAllowed(command: Fields, said: Said) {
    && Get(GetFields(GetFields(command, "commandPayload"), "riskControls"), "source") == Str("ytm")
    && said.market.Str? && !Spells(said.market.text, "")
    && (Reads(said.market, "okx_swap") || Reads(said.market, "usdm_futures") ==>
          FuturesAllowed(said.margin, said.position, said.close, said.reduce, said.effect))
  }

  lemma FuturesExactly(command: Fields, market: string, said: Said)
    requires Says(command, said)
    ensures Risk.FuturesDecision(command, GetFields(command, "commandPayload"), market).Passed? <==>
      (market in {"okx_swap", "usdm_futures"} ==>
         FuturesAllowed(said.margin, said.position, said.close, said.reduce, said.effect))
  {
    hide Under, GetFields, Risk.First, Risk.LowerText, Risk.BoolLike, Reads, ReadsYes, ReadsNo;
    UnderIsFirst(command, ["marginMode", "marginType"], said.margin);
    UnderIsFirst(command, ["positionMode"], said.position);
    UnderIsFirst(command, ["closePosition"], said.close);
    UnderIsFirst(command, ["reduceOnly"], said.reduce);
    UnderIsFirst(command, ["positionEffect", "effect"], said.effect);
    LowerTextReads(said.margin, "", "cross");
    LowerTextReads(said.margin, "", "isolated");
    LowerTextReads(said.position, "one_way", "one_way");
    LowerTextReads(said.effect, "", "open");
    LowerTextReads(said.effect, "", "reduce");
    LowerTextReads(said.effect, "", "close");
    OnlyTextsRead();
    BoolLikeReads(said.close);
    BoolLikeReads(said.reduce);
  }

  lemma OnlyTextsRead()
    ensures forall j, word | Reads(j, word) :: j.Str?
  {
  }

  lemma AttestedSays(payload: Fields)
    ensures Risk.Attested(payload) <==> Get(GetFields(payload, "riskControls"), "source") == Str("ytm")
  {
  }

  /** A real command passes the gate exactly when the policy is live, the limits are kept, YTM attests its
      risk controls, and what the command says under its names is allowed. */
  lemma GateByFields(command: Fields, policy: Risk.Policy, state: Risk.RiskState, today: Risk.Day, said: Said)
    requires Says(command, said)
    ensures Risk.Evaluate(command, "real", policy, state, today).Passed? <==>
      && policy.configured && policy.enabled && !policy.killSwitch && !policy.paperOnly
      && FieldsAllowed(command, said) && Risk.WithinLimits(policy, state, today)
  {
    Risk.GateExactly(command, policy, state, today);
    hide Risk.Evaluate, Risk.FuturesDecision, Risk.WithinLimits, Risk.First, Risk.LowerText, Under, Reads,
      FuturesAllowed, Get, GetFields, Risk.Attested, Spells;
    var payload := GetFields(command, "commandPayload");
    AttestedSays(payload);
    UnderIsFirst(command, ["market", "brokerMarket", "exchangeMarket"], said.market);
    FuturesExactly(command, Risk.Market(command, payload), said);
    LowerTextReads(said.market, "", "");
    LowerTextReads(said.market, "", "okx_swap");
    LowerTextReads(said.market, "", "usdm_futures");
    EmptyReads(said.market);
    OnlyTextsRead();
  }

  lemma EmptyReads(j: Json)
    ensures Reads(j, "") <==> j.Str? && Spells(j.text, "")
  {
  }

  // ----- the codes ------------------------------------------------------------------------

  /** The refusal names the first condition that fails: of the policy, of the command, of the limits. */
  lemma RefusalCodes(command: Fields, policy: Risk.Policy, state: Risk.RiskState, today: Risk.Day, said: Said)
    requires Says(command, said)
    ensures var risk := Risk.Evaluate(command, "real", policy, state, today);
            if !policy.configured then risk == Risk.Blocked("risk_policy_missing")
            else if !policy.enabled then risk == Risk.Blocked("risk_policy_disabled")
            else if policy.killSwitch then risk == Risk.Blocked("risk_kill_switch_enabled")
            else if policy.paperOnly then risk == Risk.Blocked("risk_paper_only")
            else if Get(GetFields(GetFields(command, "commandPayload"), "riskControls"), "source") != Str("ytm") then
              risk == Risk.Blocked("risk_controls_missing")
            else FieldsAllowed(command, said) ==> LimitCodes(risk, policy, state, today)
  {
    hide Risk.Evaluate, Says, FieldsAllowed, Get, GetFields, LimitCodes, Risk.Attested;
    AttestedSays(GetFields(command, "commandPayload"));
    PolicyCodes(command, policy, state, today);
    if FieldsAllowed(command, said) && Risk.Live(policy) {
      LimitsDecide(command, policy, state, today, said);
    }
  }

  ghost predicate LimitCodes(risk: Risk.RiskDecision, policy: Risk.Policy, state: Risk.RiskState, today: Risk.Day) {
    var daily, total := policy.maxDailyLoss, policy.maxTotalDrawdown;
    if daily.Some? && today !in state.lossByDay then risk == Risk.Blocked("risk_state_missing")
    else if daily.Some? && state.lossByDay[today] >= Value(daily.value) then
      risk == Risk.Blocked("risk_daily_loss_exceeded")
    else if total.Some? && (state.initial.None? || state.current.None?) then
      risk == Risk.Blocked("risk_state_missing")
    else if total.Some? && state.initial.value - state.current.value >= Value(total.value) then
      risk == Risk.Blocked("risk_total_drawdown_exceeded")
    else risk == Risk.Passed
  }

  lemma PolicyCodes(command: Fields, policy: Risk.Policy, state: Risk.RiskState, today: Risk.Day)
    ensures var risk := Risk.Evaluate(command, "real", policy, state, today);
            if !policy.configured then risk == Risk.Blocked("risk_policy_missing")
            else if !policy.enabled then risk == Risk.Blocked("risk_policy_disabled")
            else if policy.killSwitch then risk == Risk.Blocked("risk_kill_switch_enabled")
            else if policy.paperOnly then risk == Risk.Blocked("risk_paper_only")
            else !Risk.Attested(GetFields(command, "commandPayload")) ==> risk == Risk.Blocked("risk_controls_missing")
  {
    hide Risk.FuturesDecision, Risk.DailyDecision, Risk.TotalDecision, Risk.Market, Risk.Attested, GetFields;
  }

  lemma LimitsDecide(command: Fields, policy: Risk.Policy, state: Risk.RiskState, today: Risk.Day, said: Said)
    requires Says(command, said) && FieldsAllowed(command, said) && Risk.Live(policy)
    ensures LimitCodes(Risk.Evaluate(command, "real", policy, state, today), policy, state, today)
  {
    var boundless := policy.(maxDailyLoss := None, maxTotalDrawdown := None);
    GateByFields(command, boundless, state, today, said);
    Risk.GateExactly(command, boundless, state, today);
    hide Says, FieldsAllowed, Risk.FuturesDecision, Risk.Market, Risk.Attested, GetFields, Value;
  }
}
