/** Writing a policy to disk and reading it back: the app-owned limits are dropped, the drawdown limits
    go through their printed text, and decisions stay the same exactly when that text loses nothing. */
module PolicyPersistence {
  import opened Wrappers
  import opened Texts
  import opened JsonValues
  import opened Decimals
  import opened DecimalText
  import opened Risk
  import Guards
  import RiskHistory

  /** Printing the limit loses nothing; every limit of at most 28 digits is printable. */
  predicate Printable(limit: Option<Dec>) {
    limit.Some? ==> limit.value.coeff >= 0 && Value(Fit(limit.value)) == Value(limit.value)
  }

  lemma ShortIsPrintable(limit: Option<Dec>)
    requires limit.Some? ==> 0 <= limit.value.coeff < LIMIT
    ensures Printable(limit)
  {
  }

  lemma {:induction false} DroppedBound(c: nat)
    ensures Dropped(c) > 0 ==> c >= Pow10(Dropped(c))
  {
    if c >= LIMIT {
      DroppedBound(c / 10);
    }
  }

  lemma AtLeastOne(c: nat, p: nat)
    requires 0 < p <= c
    ensures c as real / p as real >= 1.0
  {
  }

  lemma FitPositive(d: Dec)
    requires d.coeff > 0
    ensures Value(Fit(d)) > 0.0
  {
    DroppedBound(d.coeff);
    AtLeastOne(d.coeff, Pow10(Dropped(d.coeff)));
    PositiveValue(Fit(d));
  }

  /** The limit as it comes back from the file. */
  ghost predicate Restored(limit: Option<Dec>, back: Option<Dec>) {
    && (limit.None? <==> back.None?)
    && (limit.Some? ==> limit.value.coeff >= 0 && Value(back.value) == Value(Fit(limit.value)))
  }

  lemma LimitRoundTrip(limit: Option<Dec>, key: string)
    requires LimitOk(limit)
    ensures OptionalDecimal(Get(LimitField(key, limit), key)).Ok?
    ensures Restored(limit, OptionalDecimal(Get(LimitField(key, limit), key)).value)
    ensures LimitOk(OptionalDecimal(Get(LimitField(key, limit), key)).value)
  {
    hide Text, ReadDecimal, Fit, Ten;
    if limit.Some? {
      ReadsOwnText(limit.value);
      FitPositive(limit.value);
      PositiveOrNot(ReadDecimal(Text(limit.value)).value);
    }
  }

  lemma PositiveOrNot(d: Dec)
    ensures Value(d) > 0.0 ==> d.coeff > 0
  {
  }

  lemma PayloadIsClean(p: Policy)
    requires LimitOk(p.maxDailyLoss) && LimitOk(p.maxTotalDrawdown)
    ensures Guards.Clean(Obj(PolicyPayload(p)))
  {
    hide Text;
    LimitIsClean("maxDailyLoss", p.maxDailyLoss);
    LimitIsClean("maxTotalDrawdown", p.maxTotalDrawdown);
    FlagsAreClean(p);
    Guards.UnionIsClean(PolicyFlags(p), LimitField("maxDailyLoss", p.maxDailyLoss));
    Guards.UnionIsClean(PolicyFlags(p) + LimitField("maxDailyLoss", p.maxDailyLoss),
                        LimitField("maxTotalDrawdown", p.maxTotalDrawdown));
  }

  lemma LimitIsClean(key: string, limit: Option<Dec>)
    requires LimitOk(limit) && Guards.HarmlessKey(key)
    ensures Guards.Clean(Obj(LimitField(key, limit)))
  {
    hide Text;
    Guards.HarmlessIsSafe(key);
  }

  lemma FlagsAreClean(p: Policy)
    ensures Guards.Clean(Obj(PolicyFlags(p)))
  {
    hide Guards.SafeKey;
    forall key | key in PolicyFlags(p) ensures Guards.SafeKey(key) {
      Guards.HarmlessIsSafe(key);
    }
  }

  lemma PayloadFlags(p: Policy)
    requires LimitOk(p.maxDailyLoss) && LimitOk(p.maxTotalDrawdown)
    ensures var payload := PolicyPayload(p);
            && Flag(payload, "enabled", true) == Ok(p.enabled)
            && Flag(payload, "killSwitch", true) == Ok(p.killSwitch)
            && Flag(payload, "paperOnly", true) == Ok(p.paperOnly)
            && "version" in payload && payload["version"] == Num("1")
  {
    hide Text;
  }

  lemma PayloadLimits(p: Policy)
    requires LimitOk(p.maxDailyLoss) && LimitOk(p.maxTotalDrawdown)
    ensures var payload := PolicyPayload(p);
            && Get(payload, "maxDailyLoss") == Get(LimitField("maxDailyLoss", p.maxDailyLoss), "maxDailyLoss")
            && Get(payload, "maxTotalDrawdown")
               == Get(LimitField("maxTotalDrawdown", p.maxTotalDrawdown), "maxTotalDrawdown")
  {
    hide Text;
  }

  lemma PayloadKey(p: Policy, key: string)
    requires LimitOk(p.maxDailyLoss) && LimitOk(p.maxTotalDrawdown)
    requires key in PolicyPayload(p)
    ensures !AppOwnedKey(key)
  {
    hide Text;
    assert key in {"enabled", "killSwitch", "paperOnly", "version", "maxDailyLoss", "maxTotalDrawdown"};
  }

  lemma PayloadHasNoAppLimits(p: Policy)
    requires LimitOk(p.maxDailyLoss) && LimitOk(p.maxTotalDrawdown)
    ensures AppOwnedPart(PolicyPayload(p)) == map[]
  {
    forall key | key in PolicyPayload(p) ensures !AppOwnedKey(key) {
      PayloadKey(p, key);
    }
  }

  /** What a written policy reads back as. */
  lemma PolicyRoundTrip(p: Policy)
    requires ConfigurationOk(p)
    ensures WritePolicy(p).Ok? && ReadPolicy(WritePolicy(p).value).Ok?
    ensures var q := ReadPolicy(WritePolicy(p).value).value;
            && q == p.(configured := true, appOwned := map[],
                       maxDailyLoss := q.maxDailyLoss, maxTotalDrawdown := q.maxTotalDrawdown)
            && Restored(p.maxDailyLoss, q.maxDailyLoss)
            && Restored(p.maxTotalDrawdown, q.maxTotalDrawdown)
  {
    hide PolicyPayload, Guards.Clean, LimitField, Restored, Flag, OptionalDecimal, AppOwnedPart, AppOwnedOk;
    PayloadIsClean(p);
    PayloadFlags(p);
    PayloadLimits(p);
    LimitRoundTrip(p.maxDailyLoss, "maxDailyLoss");
    LimitRoundTrip(p.maxTotalDrawdown, "maxTotalDrawdown");
    PayloadHasNoAppLimits(p);
    NoAppLimitsOk();
    assert DecodePolicy(PolicyPayload(p)).Ok?;
  }

  lemma NoAppLimitsOk()
    ensures AppOwnedOk(map[])
  {
  }

  ghost predicate SameDecisions(p: Policy, q: Policy) {
    forall command: Fields, mode: string, state: RiskState, today: Day ::
      Evaluate(command, mode, p, state, today) == Evaluate(command, mode, q, state, today)
  }

  /** The same for the risk states a file can hold. */
  ghost predicate SameOnReadable(p: Policy, q: Policy) {
    forall command: Fields, mode: string, state: RiskState, today: Day | RiskHistory.Readable(state) ::
      Evaluate(command, mode, p, state, today) == Evaluate(command, mode, q, state, today)
  }

  /** Printable limits: every decision survives the file. */
  lemma PersistenceKeepsDecisions(p: Policy)
    requires p.configured && ConfigurationOk(p)
    requires Printable(p.maxDailyLoss) && Printable(p.maxTotalDrawdown)
    ensures WritePolicy(p).Ok? && ReadPolicy(WritePolicy(p).value).Ok?
    ensures SameDecisions(p, ReadPolicy(WritePolicy(p).value).value)
  {
    hide ReadPolicy, WritePolicy, Value, Fit;
    PolicyRoundTrip(p);
  }

  const PROBE: Fields := map[
    "market" := Str("spot"),
    "commandPayload" := Obj(map["riskControls" := Obj(map["source" := Str("ytm")])])]

  lemma ProbeReachesLimits(policy: Policy, state: RiskState, today: Day)
    requires Live(policy)
    ensures Evaluate(PROBE, "real", policy, state, today)
         == if DailyDecision(policy.maxDailyLoss, state, today).Blocked?
            then DailyDecision(policy.maxDailyLoss, state, today)
            else TotalDecision(policy.maxTotalDrawdown, state)
  {
    assert Strip("spot") == "spot";
    assert Market(PROBE, GetFields(PROBE, "commandPayload")) == "spot";
  }

  /** For a policy that lets real commands through, the file keeps every decision exactly when both
      limits survive printing; and if one does not, a decision changes in a risk state that a file can
      hold. */
  lemma PersistenceExactly(p: Policy)
    requires Live(p) && ConfigurationOk(p)
    ensures WritePolicy(p).Ok? && ReadPolicy(WritePolicy(p).value).Ok?
    ensures SameDecisions(p, ReadPolicy(WritePolicy(p).value).value)
            <==> Printable(p.maxDailyLoss) && Printable(p.maxTotalDrawdown)
    ensures SameOnReadable(p, ReadPolicy(WritePolicy(p).value).value)
            <==> Printable(p.maxDailyLoss) && Printable(p.maxTotalDrawdown)
  {
    hide ReadPolicy, WritePolicy, Value, Fit, Evaluate, RiskHistory.Readable;
    PolicyRoundTrip(p);
    var q := ReadPolicy(WritePolicy(p).value).value;
    if Printable(p.maxDailyLoss) && Printable(p.maxTotalDrawdown) {
      PersistenceKeepsDecisions(p);
    } else {
      LimitIsPositive(p.maxDailyLoss);
      LimitIsPositive(p.maxTotalDrawdown);
      RestoredIsPositive(p.maxDailyLoss, q.maxDailyLoss);
      RestoredIsPositive(p.maxTotalDrawdown, q.maxTotalDrawdown);
      var state := TellingState(p, q);
      TellingStateReadable(p, q);
      ProbeReachesLimits(p, state, "d");
      ProbeReachesLimits(q, state, "d");
    }
  }

  lemma RestoredIsPositive(limit: Option<Dec>, back: Option<Dec>)
    requires LimitOk(limit) && Restored(limit, back)
    ensures back.Some? ==> Value(back.value) > 0.0
  {
    hide Value, Fit;
    if limit.Some? {
      FitPositive(limit.value);
    }
  }

  /** A risk state between the limits of two policies: a loss between the daily ones if they differ,
      otherwise no loss today and a drawdown between the total ones. */
  function TellingState(p: Policy, q: Policy): RiskState
    requires p.maxDailyLoss.Some? <==> q.maxDailyLoss.Some?
    requires p.maxTotalDrawdown.Some? <==> q.maxTotalDrawdown.Some?
  {
    if p.maxDailyLoss.Some? && Value(p.maxDailyLoss.value) != Value(q.maxDailyLoss.value) then
      RiskState(map["d" := Lesser(Value(p.maxDailyLoss.value), Value(q.maxDailyLoss.value))], map[],
                Some(1.0), Some(1.0))
    else
      RiskState(map["d" := 0.0], map[],
                Some(1.0 + if p.maxTotalDrawdown.None? then 0.0
                           else Lesser(Value(p.maxTotalDrawdown.value), Value(q.maxTotalDrawdown.value))),
                Some(1.0))
  }

  lemma TellingStateReadable(p: Policy, q: Policy)
    requires p.maxDailyLoss.Some? <==> q.maxDailyLoss.Some?
    requires p.maxTotalDrawdown.Some? <==> q.maxTotalDrawdown.Some?
    requires p.maxDailyLoss.Some? ==> Value(p.maxDailyLoss.value) > 0.0 && Value(q.maxDailyLoss.value) > 0.0
    requires p.maxTotalDrawdown.Some? ==> Value(p.maxTotalDrawdown.value) > 0.0 && Value(q.maxTotalDrawdown.value) > 0.0
    ensures RiskHistory.Readable(TellingState(p, q))
  {
    hide Value;
  }

  function Lesser(x: real, y: real): real {
    if x < y then x else y
  }

  lemma LimitIsPositive(limit: Option<Dec>)
    requires LimitOk(limit)
    ensures limit.Some? ==> Value(limit.value) > 0.0
  {
  }

  /** A policy with limits of at most 28 digits: written and read back, it decides as before. */
  lemma ShortLimitsKeepDecisions(p: Policy)
    requires p.configured && ConfigurationOk(p)
    requires p.maxDailyLoss.Some? ==> p.maxDailyLoss.value.coeff < LIMIT
    requires p.maxTotalDrawdown.Some? ==> p.maxTotalDrawdown.value.coeff < LIMIT
    ensures WritePolicy(p).Ok? && ReadPolicy(WritePolicy(p).value).Ok?
    ensures SameDecisions(p, ReadPolicy(WritePolicy(p).value).value)
  {
    hide ReadPolicy, WritePolicy, Printable, SameDecisions, AppOwnedOk;
    ShortIsPrintable(p.maxDailyLoss);
    ShortIsPrintable(p.maxTotalDrawdown);
    PersistenceKeepsDecisions(p);
  }

  // ----- a limit of 29 digits -------------------------------------------------------------

  /** A live policy whose daily limit is 10^28 + 1. */
  const LONG_LIMIT := Policy(true, true, false, false, Some(Dec(LIMIT + 1, 0)), None, map[])

  /** A day on which exactly 10^28 has been lost. */
  const LONG_LOSS := RiskState(map["d" := LIMIT as real], map[], None, None)

  lemma LongLimitRounded()
    ensures Value(Dec(LIMIT + 1, 0)) == LIMIT as real + 1.0
    ensures Value(Fit(Dec(LIMIT + 1, 0))) == LIMIT as real
  {
    FitOneDigit(LIMIT + 1, LIMIT / 10);
    assert Ten(0) == 1.0 && Ten(1) == 10.0;
    hide Fit, Ten;
  }

  /** On that day the policy lets a command pass that it blocks once it has been written and read. */
  lemma LongLimitChangesDecision()
    ensures Live(LONG_LIMIT) && RiskHistory.Readable(LONG_LOSS)
    ensures WritePolicy(LONG_LIMIT).Ok? && ReadPolicy(WritePolicy(LONG_LIMIT).value).Ok?
    ensures Evaluate(PROBE, "real", LONG_LIMIT, LONG_LOSS, "d").Passed?
    ensures Evaluate(PROBE, "real", ReadPolicy(WritePolicy(LONG_LIMIT).value).value, LONG_LOSS, "d")
         == Blocked("risk_daily_loss_exceeded")
  {
    NoAppLimitsOk();
    LongLimitRounded();
    hide ReadPolicy, WritePolicy, Value, Fit, Evaluate, AppOwnedOk;
    PolicyRoundTrip(LONG_LIMIT);
    ProbeReachesLimits(LONG_LIMIT, LONG_LOSS, "d");
    ProbeReachesLimits(ReadPolicy(WritePolicy(LONG_LIMIT).value).value, LONG_LOSS, "d");
  }
}
