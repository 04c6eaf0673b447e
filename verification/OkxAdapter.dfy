/** `OkxSwapMainnetOrderPlacementAdapter.prepare_order`: the gates, the idempotent lookup, the
    placement and the protection check, as one attempt against arbitrary exchange answers. */
module OkxAdapter {
  import opened Wrappers
  import opened Sequences
  import opened Texts
  import opened JsonValues
  import opened OrderRequests
  import opened OkxOrders
  import opened OkxReplies
  import opened OkxProtection
  import opened OkxBracket

  /** What the gates establish before the order book is touched. */
  datatype Gates = Gates(
    account: Account, rules: Rules, leverage: Option<Leverage>, params: Params, precheckPassed: bool)

  datatype Placed = Placed(
    ordId: string, recovered: bool, gates: Gates, report: Report,
    resultCode: Option<string>, resultMessage: Option<string>)

  function ReadAccount(answer: Answer): Try<Account> {
    var rows :- ResponseData(answer);
    AccountConfig(rows)
  }

  function AccountAnswer(answers: Answers): Try<Account> {
    ReadAccount(answers.config)
  }

  function ReadRules(r: Request, answer: Answer): Try<Rules> {
    var rows :- ResponseData(answer);
    InstrumentRules(rows, InstrumentId(r.symbol))
  }

  function RulesAnswer(r: Request, answers: Answers): Try<Rules> {
    ReadRules(r, answers.instruments)
  }

  function ReadLeverage(expected: LeverageParams, answer: Answer): Try<Leverage> {
    var rows :- ResponseData(answer);
    VerifiedLeverage(rows, expected)
  }

  function LeverageAnswer(expected: LeverageParams, answers: Answers): Try<Leverage> {
    ReadLeverage(expected, answers.leverage)
  }

  /** The call to set the leverage, when one is requested. */
  function SetUpLeverage(r: Request, rules: Rules, answers: Answers): Run<Option<Leverage>> {
    match LeverageRequest(r, rules)
    case Crash => Run(Crash, [])
    case ValueError(reason) => Run(ValueError(reason), [])
    case Ok(None) => Run(Ok(None), [])
    case Ok(Some(expected)) =>
      match LeverageAnswer(expected, answers)
      case Crash => Run(Crash, [SetLeverage(expected)])
      case ValueError(reason) => Run(ValueError(reason), [SetLeverage(expected)])
      case Ok(leverage) => Run(Ok(Some(leverage)), [SetLeverage(expected)])
  }

  /** `_order_precheck_payload`: skipped in futures mode. */
  function Precheck(account: Account, params: Params, answers: Answers): Run<bool> {
    if account.acctLv == "2" then Run(Ok(false), [])
    else
      match ResponseData(answers.precheck)
      case Crash => Run(Crash, [OrderPrecheck(params)])
      case ValueError(reason) => Run(ValueError(reason), [OrderPrecheck(params)])
      case Ok(_) => Run(Ok(true), [OrderPrecheck(params)])
  }

  /** Parameters and precheck, once account and rules are known. */
  function FinishGates(r: Request, account: Account, rules: Rules, leverage: Option<Leverage>, answers: Answers,
                       sha: string -> string): Run<Gates>
    requires RulesOk(rules)
  {
    match OrderParams(r, rules, sha)
    case Crash => Run(Crash, [])
    case ValueError(reason) => Run(ValueError(reason), [])
    case Ok(params) =>
      var precheck := Precheck(account, params, answers);
      match precheck.outcome
      case Crash => Run(Crash, precheck.calls)
      case ValueError(reason) => Run(ValueError(reason), precheck.calls)
      case Ok(passed) => Run(Ok(Gates(account, rules, leverage, params, passed)), precheck.calls)
  }

  /** Everything before the lookup. */
  function PassGates(r: Request, answers: Answers, sha: string -> string): Run<Gates> {
    if r.provider != "okx" then Run(ValueError(Unsupported), [])
    else if r.executionMode != "real" then
      Run(ValueError(Unsupported), [])
    else
      match AccountAnswer(answers)
      case Crash => Run(Crash, [GetAccountConfig])
      case ValueError(reason) => Run(ValueError(reason), [GetAccountConfig])
      case Ok(account) =>
        var asked := [GetAccountConfig, GetInstruments(InstrumentId(r.symbol))];
        match RulesAnswer(r, answers)
        case Crash => Run(Crash, asked)
        case ValueError(reason) => Run(ValueError(reason), asked)
        case Ok(rules) =>
          RulesAnswerSound(r, answers);
          var leverage := SetUpLeverage(r, rules, answers);
          match leverage.outcome
          case Crash => Run(Crash, asked + leverage.calls)
          case ValueError(reason) => Run(ValueError(reason), asked + leverage.calls)
          case Ok(set_) =>
            var rest := FinishGates(r, account, rules, set_, answers, sha);
            Run(rest.outcome, asked + leverage.calls + rest.calls)
  }

  lemma RulesAnswerSound(r: Request, answers: Answers)
    ensures RulesAnswer(r, answers).Ok? ==>
      RulesOk(RulesAnswer(r, answers).value) && RulesAnswer(r, answers).value.instId == InstrumentId(r.symbol)
  {
    hide InstrumentRules, InstrumentId, RulesOk;
    if ResponseData(answers.instruments).Ok? {
      InstrumentRulesSound(ResponseData(answers.instruments).value, r.symbol);
    }
  }

  /** `response` is the exchange's row for our order, new or found. */
  function Finish(r: Request, gates: Gates, response: Fields, recovered: bool, answers: Answers,
                  sha: string -> string): Run<Placed>
    requires RulesOk(gates.rules)
  {
    match OrdId(response)
    case None => Run(ValueError(Missing), [])
    case Some(ordId) =>
      var check := SafeVerify(r, gates.params, response, ordId, gates.rules, answers, sha);
      match check.outcome
      case Crash => Run(Crash, check.calls)
      case ValueError(reason) => Run(ValueError(reason), check.calls)
      case Ok(report) =>
        Run(Ok(Placed(ordId, recovered, gates, report,
                      TextOf(Get(response, "sCode")), TextOf(Get(response, "sMsg")))), check.calls)
  }

  function ReadOrder(answer: Answer): Try<Fields> {
    var rows :- ResponseData(answer);
    SingleOrder(rows)
  }

  function PlaceAnswer(answers: Answers): Try<Fields> {
    ReadOrder(answers.place)
  }

  /** Lookup, then placement if there is no such order yet. */
  function LookupOrPlace(r: Request, gates: Gates, answers: Answers, sha: string -> string): Run<Placed>
    requires RulesOk(gates.rules)
  {
    var asked := [GetOrder(gates.params.instId, gates.params.clOrdId)];
    match Lookup(answers.lookup)
    case Crash => Run(Crash, asked)
    case ValueError(reason) => Run(ValueError(reason), asked)
    case Ok(Some(existing)) =>
      var rest := Finish(r, gates, existing, true, answers, sha);
      Run(rest.outcome, asked + rest.calls)
    case Ok(None) =>
      var placing := asked + [PlaceOrder(gates.params)];
      match PlaceAnswer(answers)
      case Crash => Run(Crash, placing)
      case ValueError(reason) => Run(ValueError(reason), placing)
      case Ok(response) =>
        var rest := Finish(r, gates, response, false, answers, sha);
        Run(rest.outcome, placing + rest.calls)
  }

  /** `prepare_order`, up to the guard on its result. */
  function PrepareOrder(r: Request, answers: Answers, sha: string -> string): Run<Placed> {
    var gates := PassGates(r, answers, sha);
    match gates.outcome
    case Crash => Run(Crash, gates.calls)
    case ValueError(reason) => Run(ValueError(reason), gates.calls)
    case Ok(passed) =>
      GatesSound(r, answers, sha);
      var rest := LookupOrPlace(r, passed, answers, sha);
      Run(rest.outcome, gates.calls + rest.calls)
  }

  /** What the exchange knows an order by. */
  datatype OrderKey = OrderKey(instId: string, clOrdId: string)

  function KeyOf(params: Params): OrderKey {
    OrderKey(params.instId, params.clOrdId)
  }

  // ----- what the calls of one attempt say ------------------------------------------------

  function PlacedBy(call: Call): seq<Params> {
    if call.PlaceOrder? then [call.params] else []
  }

  /** The orders placed by these calls. */
  function Placements(calls: seq<Call>): seq<Params> {
    Flatten(PlacedBy, calls)
  }

  lemma PlacementsConcat(a: seq<Call>, b: seq<Call>)
    ensures Placements(a + b) == Placements(a) + Placements(b)
  {
    FlattenConcat(PlacedBy, a, b);
  }

  /** Everything that was checked at the exchange before an order may be placed. */
  ghost predicate Checked(r: Request, gates: Gates, answers: Answers, sha: string -> string) {
    && r.provider == "okx" && r.executionMode == "real"
    && AccountAnswer(answers) == Ok(gates.account)
    && gates.account.posMode == "net_mode" && gates.account.acctLv in {"2", "3"}
    && RulesOk(gates.rules) && gates.rules.instId == InstrumentId(r.symbol)
    && RulesAnswer(r, answers) == Ok(gates.rules)
    && (r.leverage.Some? ==>
          && LeverageRequest(r, gates.rules).Ok? && LeverageRequest(r, gates.rules).value.Some?
          && LeverageAnswer(LeverageRequest(r, gates.rules).value.value, answers).Ok?)
    && OrderParams(r, gates.rules, sha) == Ok(gates.params)
    && (gates.precheckPassed <==> gates.account.acctLv == "3")
    && (gates.precheckPassed ==> ResponseData(answers.precheck).Ok?)
  }

  lemma GatesSound(r: Request, answers: Answers, sha: string -> string)
    ensures var gates := PassGates(r, answers, sha);
            gates.outcome.Ok? ==> Checked(r, gates.outcome.value, answers, sha)
  {
    hide OrderParams, RulesAnswer, InstrumentId, RulesOk, LeverageAnswer, AccountConfig;
    RulesAnswerSound(r, answers);
  }

  // ----- one attempt ----------------------------------------------------------------------

  lemma NoPlacements()
    ensures Placements([]) == []
    ensures forall call: Call :: Placements([call]) == PlacedBy(call)
  {
    forall call: Call ensures Placements([call]) == PlacedBy(call) {
      FlattenOne(PlacedBy, call);
    }
  }

  lemma GatesPlaceNothing(r: Request, answers: Answers, sha: string -> string)
    ensures Placements(PassGates(r, answers, sha).calls) == []
  {
    hide OrderParams, RulesAnswer, InstrumentId, AccountAnswer, LeverageAnswer, ResponseData, LeverageRequest,
      RulesOk, Placements;
    NoPlacements();
    RulesAnswerSound(r, answers);
    var asked := [GetAccountConfig, GetInstruments(InstrumentId(r.symbol))];
    assert asked == [GetAccountConfig] + [GetInstruments(InstrumentId(r.symbol))];
    PlacementsConcat([GetAccountConfig], [GetInstruments(InstrumentId(r.symbol))]);
    assert Placements(asked) == [];
    if AccountAnswer(answers).Ok? && RulesAnswer(r, answers).Ok? {
      var rules := RulesAnswer(r, answers).value;
      var leverage := SetUpLeverage(r, rules, answers);
      PlacementsConcat(asked, leverage.calls);
      assert Placements(asked + leverage.calls) == [];
      if leverage.outcome.Ok? {
        var rest := FinishGates(r, AccountAnswer(answers).value, rules, leverage.outcome.value, answers, sha);
        PlacementsConcat(asked + leverage.calls, rest.calls);
      }
    }
  }

  lemma {:induction false} SearchPlacesNothing(answers: Answers, instId: string, expected: Attach, ordId: string,
                                               i: nat)
    requires i <= |ALGO_TYPES|
    ensures Placements(SearchAlgos(answers, instId, expected, ordId, i).calls) == []
    decreases |ALGO_TYPES| - i
  {
    hide ResponseData, AlgoAnswer, FirstMatch, Placements, Matches;
    NoPlacements();
    if i < |ALGO_TYPES| {
      SearchPlacesNothing(answers, instId, expected, ordId, i + 1);
      assert PlacedBy(AlgosPending(instId, ALGO_TYPES[i])) == [];
      PlacementsConcat([AlgosPending(instId, ALGO_TYPES[i])],
                       SearchAlgos(answers, instId, expected, ordId, i + 1).calls);
    }
  }

  lemma ProtectionPlacesNothing(r: Request, params: Params, response: Fields, ordId: string, rules: Rules,
                                answers: Answers, sha: string -> string)
    requires RulesOk(rules)
    ensures Placements(SafeVerify(r, params, response, ordId, rules, answers, sha).calls) == []
  {
    hide SearchAlgos, PositionAnswer, Refusal, RemediationParams, ResponseData, SingleOrder, Placements, RulesOk;
    NoPlacements();
    if params.attach.Some? {
      var expected := params.attach.value;
      var refused := Refusal(response, expected);
      SearchPlacesNothing(answers, rules.instId, expected, ordId, 0);
      var rest := CheckPosition(r, rules, expected, ordId, refused, answers, sha);
      PlacementsConcat(SearchAlgos(answers, rules.instId, expected, ordId, 0).calls, rest.calls);
      var seen := PositionAnswer(answers, rules.instId);
      if seen.Ok? && seen.value.Some? && seen.value.value.coeff != 0 {
        PlacementsConcat([GetPositions(rules.instId)],
                         PlaceStop(r, rules, expected, ordId, seen.value.value, refused, answers, sha).calls);
      }
    }
  }

  lemma FinishPlacesNothing(r: Request, gates: Gates, response: Fields, recovered: bool, answers: Answers,
                            sha: string -> string)
    requires RulesOk(gates.rules)
    ensures Placements(Finish(r, gates, response, recovered, answers, sha).calls) == []
  {
    hide SafeVerify, Placements, OrdId;
    NoPlacements();
    if OrdId(response).Some? {
      ProtectionPlacesNothing(r, gates.params, response, OrdId(response).value, gates.rules, answers, sha);
    }
  }

  /** The gates let the attempt through to the exchange's order book. */
  predicate ThroughGates(r: Request, answers: Answers, sha: string -> string) {
    PassGates(r, answers, sha).outcome.Ok?
  }

  /** The exchange's row for our order, found or newly placed. */
  function OrderRow(answers: Answers): Try<Fields> {
    match Lookup(answers.lookup)
    case Crash => Crash
    case ValueError(reason) => ValueError(reason)
    case Ok(Some(existing)) => Ok(existing)
    case Ok(None) => PlaceAnswer(answers)
  }

  /** An attempt places exactly when every exchange gate was passed and the lookup missed; it places
      the one order the request normalizes to, and no other. */
  lemma PlacesExactly(r: Request, answers: Answers, sha: string -> string)
    ensures var placed := Placements(PrepareOrder(r, answers, sha).calls);
            && (placed != [] <==> ThroughGates(r, answers, sha) && Lookup(answers.lookup) == Ok(None))
            && (placed != [] ==>
                  var gates := PassGates(r, answers, sha).outcome.value;
                  placed == [gates.params] && Checked(r, gates, answers, sha))
  {
    hide PassGates, Finish, Lookup, Placements, PlaceAnswer, Checked;
    NoPlacements();
    GatesSound(r, answers, sha);
    GatesPlaceNothing(r, answers, sha);
    if ThroughGates(r, answers, sha) {
      var gates := PassGates(r, answers, sha);
      CheckedRules(r, gates.outcome.value, answers, sha);
      var rest := LookupOrPlace(r, gates.outcome.value, answers, sha);
      PlacementsConcat(gates.calls, rest.calls);
      LookupOrPlacePlaces(r, gates.outcome.value, answers, sha);
      assert [] + Placements(rest.calls) == Placements(rest.calls);
    }
  }

  lemma CheckedRules(r: Request, gates: Gates, answers: Answers, sha: string -> string)
    requires Checked(r, gates, answers, sha)
    ensures RulesOk(gates.rules)
  {
  }

  lemma LookupOrPlacePlaces(r: Request, gates: Gates, answers: Answers, sha: string -> string)
    requires RulesOk(gates.rules)
    ensures Placements(LookupOrPlace(r, gates, answers, sha).calls)
         == if Lookup(answers.lookup) == Ok(None) then [gates.params] else []
  {
    hide Finish, Lookup, Placements, PlaceAnswer, RulesOk;
    NoPlacements();
    var look := GetOrder(gates.params.instId, gates.params.clOrdId);
    var place := PlaceOrder(gates.params);
    PlacementsConcat([look], [place]);
    assert [look] + [place] == [look, place];
    assert [] + [gates.params] == [gates.params];
    if OrderRow(answers).Ok? {
      var row := OrderRow(answers).value;
      var recovered := Lookup(answers.lookup).value.Some?;
      FinishPlacesNothing(r, gates, row, recovered, answers, sha);
      var rest := Finish(r, gates, row, recovered, answers, sha);
      PlacementsConcat([look], rest.calls);
      PlacementsConcat([look, place], rest.calls);
      assert [gates.params] + [] == [gates.params];
    }
  }

  /** What an acknowledged attempt promises. */
  ghost predicate AcceptedOrder(p: Placed, r: Request, answers: Answers, sha: string -> string) {
    && Checked(r, p.gates, answers, sha)
    && OrderRow(answers).Ok? && OrdId(OrderRow(answers).value) == Some(p.ordId)
    && (p.recovered <==> Lookup(answers.lookup) != Ok(None))
  }

  /** An attempt is rejected exactly when a gate rejects it, or when the order was not found and
      the answer to placing it was no well-formed acceptance.  In particular it is never rejected
      once the exchange has named the order, whatever the protection check runs into. */
  lemma RejectedExactly(r: Request, answers: Answers, sha: string -> string)
    ensures PrepareOrder(r, answers, sha).outcome.ValueError? <==>
      || PassGates(r, answers, sha).outcome.ValueError?
      || (&& ThroughGates(r, answers, sha) && Lookup(answers.lookup) == Ok(None)
          && !PlaceAnswer(answers).Crash?
          && (PlaceAnswer(answers).Ok? ==> OrdId(PlaceAnswer(answers).value).None?))
  {
    hide PassGates, Lookup, PlaceAnswer, OrdId, SafeVerify, Checked;
    GatesSound(r, answers, sha);
    if ThroughGates(r, answers, sha) {
      CheckedRules(r, PassGates(r, answers, sha).outcome.value, answers, sha);
    }
  }

  /** An acknowledged attempt names the order the exchange named, found or placed, and reports its
      protection as the exchange showed it. */
  lemma AcknowledgedMeans(r: Request, answers: Answers, sha: string -> string)
    requires PrepareOrder(r, answers, sha).outcome.Ok?
    ensures var p := PrepareOrder(r, answers, sha).outcome.value;
            && AcceptedOrder(p, r, answers, sha)
            && ThroughGates(r, answers, sha) && p.gates == PassGates(r, answers, sha).outcome.value
            && Some(p.report) == ReportOf(r, p, answers, sha)
  {
    hide PassGates, Lookup, PlaceAnswer, OrdId, SafeVerify, Checked;
    GatesSound(r, answers, sha);
    CheckedRules(r, PassGates(r, answers, sha).outcome.value, answers, sha);
  }

  /** The protection check an accepted order gets. */
  ghost function ReportOf(r: Request, p: Placed, answers: Answers, sha: string -> string): Option<Report> {
    if OrderRow(answers).Ok? && RulesOk(p.gates.rules) then
      var check := SafeVerify(r, p.gates.params, OrderRow(answers).value, p.ordId, p.gates.rules, answers, sha);
      if check.outcome.Ok? then Some(check.outcome.value) else None
    else None
  }

  /** Finding the order again places nothing and reports the order that was found. */
  lemma RecoveryPlacesNothing(r: Request, answers: Answers, sha: string -> string)
    requires Lookup(answers.lookup).Ok? && Lookup(answers.lookup).value.Some?
    ensures Placements(PrepareOrder(r, answers, sha).calls) == []
    ensures var run := PrepareOrder(r, answers, sha);
            && (ThroughGates(r, answers, sha) ==> !run.outcome.ValueError?)
            && (run.outcome.Ok? ==>
                  && run.outcome.value.recovered
                  && Some(run.outcome.value.ordId) == OrdId(Lookup(answers.lookup).value.value))
  {
    hide PrepareOrder, PassGates, Lookup, Checked;
    PlacesExactly(r, answers, sha);
    RejectedExactly(r, answers, sha);
    if PrepareOrder(r, answers, sha).outcome.Ok? {
      AcknowledgedMeans(r, answers, sha);
    }
  }

  /** An acknowledged real opening order always has its protection examined. */
  lemma RealOpenIsExamined(r: Request, answers: Answers, sha: string -> string)
    requires PrepareOrder(r, answers, sha).outcome.Ok? && r.effect == "open"
    ensures var p := PrepareOrder(r, answers, sha).outcome.value;
            && !p.report.NotRequired?
            && p.gates.params.attach.Some?
            && OrderRow(answers).Ok?
            && exists stops :: ReportMeans(p.report, stops, p.gates.params, OrderRow(answers).value, p.ordId,
                                           p.gates.rules, answers)
  {
    hide PrepareOrder, PassGates, Lookup, PlaceAnswer, OrdId, SafeVerify, OrderParams, ReportMeans, OrderRow, RulesOk;
    AcknowledgedMeans(r, answers, sha);
    var p := PrepareOrder(r, answers, sha).outcome.value;
    OpenNeedsProtection(r, p.gates.rules, sha);
    ProtectionSound(r, p.gates.params, OrderRow(answers).value, p.ordId, p.gates.rules, answers, sha);
    var check := SafeVerify(r, p.gates.params, OrderRow(answers).value, p.ordId, p.gates.rules, answers, sha);
    assert ReportMeans(p.report, AlgoPlacements(check.calls), p.gates.params, OrderRow(answers).value, p.ordId,
                       p.gates.rules, answers);
    NotRequiredMeans(p.report, AlgoPlacements(check.calls), p.gates.params, OrderRow(answers).value, p.ordId,
                     p.gates.rules, answers);
  }

  lemma NotRequiredMeans(report: Report, stops: seq<AlgoParams>, params: Params, response: Fields, ordId: string,
                         rules: Rules, answers: Answers)
    requires ReportMeans(report, stops, params, response, ordId, rules, answers)
    ensures report.NotRequired? <==> params.attach.None?
  {
  }

  lemma OpenNeedsProtection(r: Request, rules: Rules, sha: string -> string)
    requires RulesOk(rules) && OrderParams(r, rules, sha).Ok? && r.executionMode == "real"
    ensures TdMode(r.marginMode).Ok?
    ensures r.effect == "open" ==> OrderParams(r, rules, sha).value.attach.Some?
  {
    if r.effect == "open" {
      RealOpenShape(r, rules, sha);
    }
    hide Size, ToTick, Protection, RawPrice, OrderType;
  }

  // ----- two attempts at one order --------------------------------------------------------

  lemma NoStops()
    ensures AlgoPlacements([]) == []
    ensures forall call: Call | !call.PlaceAlgo? :: AlgoPlacements([call]) == []
  {
    forall call: Call | !call.PlaceAlgo? ensures AlgoPlacements([call]) == [] {
      NoAlgoPlaced(call);
    }
  }

  lemma GatesPlaceNoStop(r: Request, answers: Answers, sha: string -> string)
    ensures AlgoPlacements(PassGates(r, answers, sha).calls) == []
  {
    hide OrderParams, RulesAnswer, InstrumentId, AccountAnswer, LeverageAnswer, ResponseData, LeverageRequest,
      RulesOk, AlgoPlacements;
    NoStops();
    RulesAnswerSound(r, answers);
    var asked := [GetAccountConfig, GetInstruments(InstrumentId(r.symbol))];
    assert asked == [GetAccountConfig] + [GetInstruments(InstrumentId(r.symbol))];
    AlgoPlacementsConcat([GetAccountConfig], [GetInstruments(InstrumentId(r.symbol))]);
    assert AlgoPlacements(asked) == [];
    if AccountAnswer(answers).Ok? && RulesAnswer(r, answers).Ok? {
      var rules := RulesAnswer(r, answers).value;
      var leverage := SetUpLeverage(r, rules, answers);
      AlgoPlacementsConcat(asked, leverage.calls);
      assert AlgoPlacements(asked + leverage.calls) == [];
      if leverage.outcome.Ok? {
        var rest := FinishGates(r, AccountAnswer(answers).value, rules, leverage.outcome.value, answers, sha);
        AlgoPlacementsConcat(asked + leverage.calls, rest.calls);
      }
    }
  }

  /** The attempt got to an order of the exchange, found or new. */
  ghost predicate GotOrder(r: Request, answers: Answers, gates: Gates, ordId: string, sha: string -> string) {
    && ThroughGates(r, answers, sha) && PassGates(r, answers, sha).outcome.value == gates
    && OrderRow(answers).Ok? && OrdId(OrderRow(answers).value) == Some(ordId)
  }

  /** The stops an attempt tries are those of its protection check. */
  lemma AttemptTries(r: Request, answers: Answers, gates: Gates, ordId: string, sha: string -> string)
    requires GotOrder(r, answers, gates, ordId, sha)
    ensures RulesOk(gates.rules)
    ensures var check := SafeVerify(r, gates.params, OrderRow(answers).value, ordId, gates.rules, answers, sha);
            && AlgoPlacements(PrepareOrder(r, answers, sha).calls) == AlgoPlacements(check.calls)
            && (check.outcome.Ok? ==> PrepareOrder(r, answers, sha).outcome.Ok?
                                      && PrepareOrder(r, answers, sha).outcome.value.report == check.outcome.value)
  {
    hide PassGates, Lookup, SafeVerify, PlaceAnswer, OrdId, Checked, RulesOk, AlgoPlacements, Get, TextOf;
    NoStops();
    GatesSound(r, answers, sha);
    CheckedRules(r, gates, answers, sha);
    GatesPlaceNoStop(r, answers, sha);
    var check := SafeVerify(r, gates.params, OrderRow(answers).value, ordId, gates.rules, answers, sha);
    var look, place := [GetOrder(gates.params.instId, gates.params.clOrdId)], [PlaceOrder(gates.params)];
    var before := PassGates(r, answers, sha).calls;
    AlgoPlacementsConcat(look, check.calls);
    AlgoPlacementsConcat(look, place);
    AlgoPlacementsConcat(look + place, check.calls);
    AlgoPlacementsConcat(before, look + check.calls);
    AlgoPlacementsConcat(before, look + place + check.calls);
    assert [] + AlgoPlacements(check.calls) == AlgoPlacements(check.calls);
  }

  /** A run of two attempts at one order with a take-profit: the first finds an open position without
      its bracket and tries a stop; in the second, with the position unchanged, only such bare stops
      are pending.  The second tries the very same stop again, under the same client id; and if the
      exchange does not take it twice, it reports the order unprotected. */
  lemma SecondAttemptRepeatsStop(r: Request, first: Answers, second: Answers, gates: Gates, again: Gates,
                                 ordId: string, sha: string -> string)
    requires GotOrder(r, first, gates, ordId, sha) && GotOrder(r, second, again, ordId, sha)
    requires again.rules == gates.rules && r.effect == "open"
    requires SeenPosition(first, gates.rules.instId).Some?
    requires SeenPosition(second, gates.rules.instId) == SeenPosition(first, gates.rules.instId)
    requires gates.params.attach.Some? && NoBracket(OrderRow(first).value, gates.params.attach.value, ordId, first)
    requires OnlyBareStops(second)
    ensures var run1, run2 := PrepareOrder(r, first, sha), PrepareOrder(r, second, sha);
            && |AlgoPlacements(run1.calls)| == 1 && AlgoPlacements(run2.calls) == AlgoPlacements(run1.calls)
            && (StopDeclined(second) ==> run2.outcome.Ok? && run2.outcome.value.report.Unprotected?)
  {
    SameGates(r, first, second, gates, again, ordId, sha);
    AttemptTries(r, first, gates, ordId, sha);
    AttemptTries(r, second, again, ordId, sha);
    hide PassGates, Lookup, SafeVerify, PlaceAnswer, OrdId, Checked, RulesOk, AlgoPlacements, PrepareOrder, NoBracket,
      OnlyBareStops, SeenPosition, StopDeclined, OrderRow, ThroughGates, TdMode;
    SecondCheckRepeatsStop(r, gates.params, ordId, gates.rules, OrderRow(first).value, first,
                           OrderRow(second).value, second, sha);
  }

  lemma SameGates(r: Request, first: Answers, second: Answers, gates: Gates, again: Gates, ordId: string,
                  sha: string -> string)
    requires GotOrder(r, first, gates, ordId, sha) && GotOrder(r, second, again, ordId, sha)
    requires again.rules == gates.rules && r.effect == "open"
    ensures again.params == gates.params && TdMode(r.marginMode).Ok?
    ensures gates.params.attach.Some? && gates.params.attach.value.takeProfit.Some?
  {
    hide PassGates, OrderParams, Lookup, RulesOk, AccountAnswer, RulesAnswer, LeverageAnswer, PlaceAnswer, OrdId,
      TdMode;
    GatesSound(r, first, sha);
    GatesSound(r, second, sha);
    OpenNeedsProtection(r, gates.rules, sha);
    RealOpenShape(r, gates.rules, sha);
  }

  // ----- the calls, in order --------------------------------------------------------------

  /** Calls of the protection check. */
  predicate AboutProtection(call: Call) {
    call.AlgosPending? || call.GetPositions? || call.PlaceAlgo?
  }

  predicate AllProtection(calls: seq<Call>) {
    forall i | 0 <= i < |calls| :: AboutProtection(calls[i])
  }

  lemma {:induction false} SearchIsProtection(answers: Answers, instId: string, expected: Attach, ordId: string, i: nat)
    requires i <= |ALGO_TYPES|
    ensures AllProtection(SearchAlgos(answers, instId, expected, ordId, i).calls)
    decreases |ALGO_TYPES| - i
  {
    hide ResponseData, AlgoAnswer, FirstMatch, Matches;
    if i < |ALGO_TYPES| {
      SearchIsProtection(answers, instId, expected, ordId, i + 1);
    }
  }

  lemma FinishIsProtection(r: Request, gates: Gates, response: Fields, recovered: bool, answers: Answers,
                           sha: string -> string)
    requires RulesOk(gates.rules)
    ensures AllProtection(Finish(r, gates, response, recovered, answers, sha).calls)
  {
    hide SearchAlgos, PositionAnswer, Refusal, RemediationParams, ResponseData, SingleOrder, RulesOk, OrdId, Get,
      TextOf;
    if OrdId(response).Some? && gates.params.attach.Some? {
      SearchIsProtection(answers, gates.rules.instId, gates.params.attach.value, OrdId(response).value, 0);
    }
  }

  /** What is asked before the lookup, once every gate is passed. */
  function GateCalls(r: Request, gates: Gates): seq<Call> {
    [GetAccountConfig, GetInstruments(InstrumentId(r.symbol))]
    + (match LeverageRequest(r, gates.rules)
       case Ok(Some(asked)) => [SetLeverage(asked)]
       case _ => [])
    + (if gates.account.acctLv == "3" then [OrderPrecheck(gates.params)] else [])
  }

  lemma GateCallsExactly(r: Request, answers: Answers, sha: string -> string)
    requires ThroughGates(r, answers, sha)
    ensures PassGates(r, answers, sha).calls == GateCalls(r, PassGates(r, answers, sha).outcome.value)
  {
    hide OrderParams, RulesAnswer, InstrumentId, AccountAnswer, LeverageAnswer, ResponseData, LeverageRequest, RulesOk;
    RulesAnswerSound(r, answers);
    AccountLevel(answers);
  }

  lemma AccountLevel(answers: Answers)
    ensures AccountAnswer(answers).Ok? ==> AccountAnswer(answers).value.acctLv in {"2", "3"}
  {
  }

  /** The sequence of a placement: account, instrument, leverage if one is requested, precheck if the level
      is 3; the lookup under the order's own key; the order; and then nothing but the protection check. */
  lemma PlacementSequence(r: Request, answers: Answers, sha: string -> string)
    requires ThroughGates(r, answers, sha) && Lookup(answers.lookup) == Ok(None)
    ensures var gates := PassGates(r, answers, sha).outcome.value;
            exists rest :: AllProtection(rest) && PrepareOrder(r, answers, sha).calls
              == GateCalls(r, gates) + [GetOrder(gates.params.instId, gates.params.clOrdId)]
                 + [PlaceOrder(gates.params)] + rest
  {
    hide PassGates, Lookup, Finish, PlaceAnswer, Checked, RulesOk, GateCalls;
    GatesSound(r, answers, sha);
    var gates := PassGates(r, answers, sha).outcome.value;
    CheckedRules(r, gates, answers, sha);
    GateCallsExactly(r, answers, sha);
    var look, place := [GetOrder(gates.params.instId, gates.params.clOrdId)], [PlaceOrder(gates.params)];
    var rest: seq<Call> := [];
    if PlaceAnswer(answers).Ok? {
      FinishIsProtection(r, gates, PlaceAnswer(answers).value, false, answers, sha);
      rest := Finish(r, gates, PlaceAnswer(answers).value, false, answers, sha).calls;
    }
    assert GateCalls(r, gates) + (look + place + rest) == GateCalls(r, gates) + look + place + rest;
    assert look + place + [] == look + place;
    assert AllProtection(rest);
  }

  /** An account at level 2 is never prechecked, however far the attempt gets. */
  predicate NoPrecheck(calls: seq<Call>) {
    forall i | 0 <= i < |calls| :: !calls[i].OrderPrecheck?
  }

  lemma LevelTwoGates(r: Request, answers: Answers, sha: string -> string)
    requires AccountAnswer(answers).Ok? ==> AccountAnswer(answers).value.acctLv == "2"
    ensures NoPrecheck(PassGates(r, answers, sha).calls)
  {
    hide OrderParams, RulesAnswer, InstrumentId, AccountAnswer, LeverageAnswer, ResponseData, LeverageRequest, RulesOk;
    RulesAnswerSound(r, answers);
  }

  lemma LevelTwoNeverPrechecked(r: Request, answers: Answers, sha: string -> string)
    requires AccountAnswer(answers).Ok? ==> AccountAnswer(answers).value.acctLv == "2"
    ensures NoPrecheck(PrepareOrder(r, answers, sha).calls)
  {
    hide PassGates, Lookup, Finish, PlaceAnswer, Checked, RulesOk, AccountAnswer;
    LevelTwoGates(r, answers, sha);
    if ThroughGates(r, answers, sha) {
      GatesSound(r, answers, sha);
      var gates := PassGates(r, answers, sha).outcome.value;
      CheckedRules(r, gates, answers, sha);
      if OrderRow(answers).Ok? {
        FinishIsProtection(r, gates, OrderRow(answers).value, Lookup(answers.lookup).value.Some?, answers, sha);
      }
    }
  }

  /** The first account row of the exchange's answer states this level, in net mode. */
  ghost predicate AnswersLevel(answers: Answers, level: string) {
    && ResponseData(answers.config).Ok? && ResponseData(answers.config).value != []
    && SaysAccount(ResponseData(answers.config).value[0], level, "net_mode")
  }

  /** From the answer itself: an account at level 3 gets an order placed only after the exchange has
      prechecked that very order and answered with success; an account at level 2 is never prechecked;
      and at any other level nothing is placed. */
  lemma PrecheckByLevel(r: Request, answers: Answers, sha: string -> string)
    ensures AnswersLevel(answers, "2") ==> NoPrecheck(PrepareOrder(r, answers, sha).calls)
    ensures AnswersLevel(answers, "3") && Placements(PrepareOrder(r, answers, sha).calls) != [] ==>
              && ResponseData(answers.precheck).Ok?
              && PrechecksThenPlaces(PrepareOrder(r, answers, sha).calls)
    ensures !AnswersLevel(answers, "2") && !AnswersLevel(answers, "3") ==>
              Placements(PrepareOrder(r, answers, sha).calls) == []
  {
    hide PrepareOrder, PassGates, Lookup, Placements, OrderParams, RulesOk, RulesAnswer, LeverageAnswer,
      LeverageRequest, ResponseData, SaysAccount;
    PlacesExactly(r, answers, sha);
    AnswerIsAccount(answers);
    hide AnswersLevel;
    if AnswersLevel(answers, "2") {
      hide AccountAnswer;
      LevelTwoNeverPrechecked(r, answers, sha);
    }
    if AnswersLevel(answers, "3") && Placements(PrepareOrder(r, answers, sha).calls) != [] {
      PlacementSequence(r, answers, sha);
      var gates := PassGates(r, answers, sha).outcome.value;
      var rest :| AllProtection(rest) && PrepareOrder(r, answers, sha).calls
        == GateCalls(r, gates) + [GetOrder(gates.params.instId, gates.params.clOrdId)]
           + [PlaceOrder(gates.params)] + rest;
      LastGateCall(r, gates);
      Prechecked(PrepareOrder(r, answers, sha).calls, GateCalls(r, gates), gates.params, rest);
    }
  }

  /** Some order is prechecked, and placed later. */
  ghost predicate PrechecksThenPlaces(calls: seq<Call>) {
    exists i, j :: 0 <= i < j < |calls| && calls[j].PlaceOrder? && calls[i] == OrderPrecheck(calls[j].params)
  }

  lemma LastGateCall(r: Request, gates: Gates)
    requires gates.account.acctLv == "3"
    ensures var calls := GateCalls(r, gates); calls != [] && calls[|calls| - 1] == OrderPrecheck(gates.params)
  {
    hide InstrumentId, LeverageRequest;
  }

  lemma Prechecked(calls: seq<Call>, before: seq<Call>, params: Params, rest: seq<Call>)
    requires before != [] && before[|before| - 1] == OrderPrecheck(params)
    requires calls == before + [GetOrder(params.instId, params.clOrdId)] + [PlaceOrder(params)] + rest
    ensures PrechecksThenPlaces(calls)
  {
    var n := |before|;
    assert calls[n - 1] == OrderPrecheck(params) && calls[n + 1] == PlaceOrder(params);
  }

  lemma AnswerIsAccount(answers: Answers)
    ensures forall level | level in {"2", "3"} ::
              AnswersLevel(answers, level) <==> AccountAnswer(answers) == Ok(Account(level, "net_mode"))
    ensures AccountAnswer(answers).Ok? ==> AnswersLevel(answers, "2") || AnswersLevel(answers, "3")
  {
    hide ResponseData, Strip;
  }

  /** The id an acknowledged attempt reports is the text the exchange's row gives as the order id; code and
      message are the row's. */
  lemma ReportedIdIsTheRows(r: Request, answers: Answers, sha: string -> string)
    requires PrepareOrder(r, answers, sha).outcome.Ok?
    ensures var p := PrepareOrder(r, answers, sha).outcome.value;
            && OrderRow(answers).Ok?
            && var row := OrderRow(answers).value;
            && Get(row, "ordId").Str? && Strip(Get(row, "ordId").text) == p.ordId && p.ordId != ""
            && p.resultCode == TextOf(Get(row, "sCode")) && p.resultMessage == TextOf(Get(row, "sMsg"))
  {
    ResultIsTheRows(r, answers, sha);
    hide PrepareOrder, PassGates, Lookup, PlaceAnswer, Checked, ReportOf, Strip, OrderRow;
    AcknowledgedMeans(r, answers, sha);
    TextOfExactly(Get(OrderRow(answers).value, "ordId"), PrepareOrder(r, answers, sha).outcome.value.ordId);
    hide AcceptedOrder;
  }

  lemma ResultIsTheRows(r: Request, answers: Answers, sha: string -> string)
    requires PrepareOrder(r, answers, sha).outcome.Ok?
    ensures var p := PrepareOrder(r, answers, sha).outcome.value;
            OrderRow(answers).Ok? && p.resultCode == TextOf(Get(OrderRow(answers).value, "sCode"))
            && p.resultMessage == TextOf(Get(OrderRow(answers).value, "sMsg"))
  {
    hide PassGates, Lookup, PlaceAnswer, SafeVerify, TextOf, Get, Checked, RulesOk;
    GatesSound(r, answers, sha);
    CheckedRules(r, PassGates(r, answers, sha).outcome.value, answers, sha);
  }
}
