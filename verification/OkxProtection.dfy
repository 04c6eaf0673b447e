/** After an order is accepted: is its stop-loss active at the exchange, and if not, place one. */
module OkxProtection {
  import opened Wrappers
  import opened Sequences
  import opened Texts
  import opened JsonValues
  import opened Decimals
  import opened DecimalText
  import opened Grid
  import opened OrderRequests
  import opened OkxOrders
  import opened OkxReplies

  /** The stand-alone stop-loss order. */
  datatype AlgoParams = AlgoParams(
    algoClOrdId: string, instId: string, side: string, reduceOnly: bool,
    slTriggerPx: string, sz: Dec, tdMode: string)

  /** Every call the adapter makes. */
  datatype Call =
    | GetAccountConfig
    | GetInstruments(instId: string)
    | SetLeverage(leverage: LeverageParams)
    | OrderPrecheck(params: Params)
    | GetOrder(instId: string, clOrdId: string)
    | PlaceOrder(params: Params)
    | AlgosPending(instId: string, ordType: string)
    | GetPositions(instId: string)
    | PlaceAlgo(algo: AlgoParams)

  const ALGO_TYPES: seq<string> := ["conditional", "oco", "trigger", "move_order_stop"]

  /** What the exchange answers during one attempt.  No endpoint is called twice in an attempt,
      except the pending-algo query, once per type.  `accepted` says whether the exchange takes
      the order if it is placed; the answer to that call may still be lost. */
  datatype Answers = Answers(
    config: Answer, instruments: Answer, leverage: Answer, precheck: Answer, lookup: Answer,
    accepted: bool, acceptedId: string, place: Answer,
    algos: seq<Answer>, positions: Answer, placeAlgo: Answer)

  function AlgoAnswer(answers: Answers, i: nat): Answer {
    if i < |answers.algos| then answers.algos[i] else Raised
  }

  datatype Run<T> = Run(outcome: Try<T>, calls: seq<Call>)

  datatype Report =
    | NotRequired
    | Protected(algo: Fields)
    | PendingActivation(refused: Option<string>)
    | Remediated(refused: Option<string>, placed: AlgoParams, algoId: Option<string>)
    | Unprotected(refused: Option<string>, reason: Reason)
    | VerificationFailed(reason: Reason)

  // ----- the searches ---------------------------------------------------------------------

  /** A live algo order with exactly the expected trigger texts, linked to our order by either id. */
  predicate Matches(row: Fields, expected: Attach, ordId: string) {
    var state := TextOf(Get(row, "state"));
    && (state.Some? ==> Lower(state.value) in {"live", "effective", "partially_effective"})
    && TextOf(Get(row, "slTriggerPx")) == Some(WireText(expected.stopLoss))
    && TextOf(Get(row, "slOrdPx")) == Some("-1")
    && (expected.takeProfit.Some? ==>
          && TextOf(Get(row, "tpTriggerPx")) == Some(WireText(expected.takeProfit.value))
          && TextOf(Get(row, "tpOrdPx")) == Some("-1"))
    && (TextOf(Get(row, "algoClOrdId")) == Some(expected.clientId)
        || TextOf(Get(row, "ordId")) == Some(ordId))
  }

  function FirstMatch(rows: seq<Fields>, expected: Attach, ordId: string): (r: Option<Fields>)
    ensures r.Some? ==> r.value in rows && Matches(r.value, expected, ordId)
    ensures r.None? ==> forall row | row in rows :: !Matches(row, expected, ordId)
  {
    if rows == [] then None
    else if Matches(rows[0], expected, ordId) then Some(rows[0])
    else FirstMatch(rows[1..], expected, ordId)
  }

  /** The pending-algo queries from type `i` on, up to the first match or failure. */
  function SearchAlgos(answers: Answers, instId: string, expected: Attach, ordId: string, i: nat): Run<Option<Fields>>
    requires i <= |ALGO_TYPES|
    decreases |ALGO_TYPES| - i
  {
    if i == |ALGO_TYPES| then Run(Ok(None), [])
    else
      var call := AlgosPending(instId, ALGO_TYPES[i]);
      match ResponseData(AlgoAnswer(answers, i))
      case Crash => Run(Crash, [call])
      case ValueError(reason) => Run(ValueError(reason), [call])
      case Ok(rows) =>
        var found := FirstMatch(rows, expected, ordId);
        if found.Some? then Run(Ok(found), [call])
        else
          var rest := SearchAlgos(answers, instId, expected, ordId, i + 1);
          Run(rest.outcome, [call] + rest.calls)
  }

  /** The row's position size, if it is for this instrument. */
  function PositionSize(row: Fields, instId: string): Try<Option<Dec>> {
    if Upper(PyStrOrEmpty(Get(row, "instId"))) != instId then Ok(None)
    else if Get(row, "pos").Null? || Get(row, "pos") == Str("") then Ok(None)
    else
      var size :- AnyDecimal(Get(row, "pos"));
      Ok(if size.coeff == 0 then None else Some(size))
  }

  /** `_matching_open_position`: the first row with a non-zero position in the instrument. */
  function OpenPosition(rows: seq<Fields>, instId: string): (r: Try<Option<Dec>>)
    ensures !r.Crash?
    ensures r.Ok? && r.value.Some? ==>
      r.value.value.coeff != 0 && exists row | row in rows :: PositionSize(row, instId) == r
    ensures r == Ok(None) ==> forall row | row in rows :: PositionSize(row, instId) == Ok(None)
  {
    if rows == [] then Ok(None)
    else
      var size :- PositionSize(rows[0], instId);
      if size.Some? then Ok(size) else OpenPosition(rows[1..], instId)
  }

  function PositionAnswer(answers: Answers, instId: string): (r: Try<Option<Dec>>)
    ensures r.Crash? <==> answers.positions.Raised?
  {
    match ResponseData(answers.positions)
    case Crash => Crash
    case ValueError(reason) => ValueError(reason)
    case Ok(rows) => OpenPosition(rows, instId)
  }

  /** The exchange says an order's attached protection was refused. */
  function AttachedResponse(response: Fields, expected: Attach): Option<Fields> {
    var attached := Get(response, "attachAlgoOrds");
    if attached.Arr? then FirstAttached(attached.items, expected) else None
  }

  function FirstAttached(items: seq<Json>, expected: Attach): Option<Fields> {
    if items == [] then None
    else if items[0].Obj? && TextOf(Get(items[0].fields, "attachAlgoClOrdId")) == Some(expected.clientId)
    then Some(items[0].fields)
    else FirstAttached(items[1..], expected)
  }

  /** Why the attached protection was refused, if it was. */
  function Refusal(response: Fields, expected: Attach): Option<string> {
    var row := AttachedResponse(response, expected);
    if row.None? || TextOf(Get(row.value, "failCode")).None? then None
    else if TextOf(Get(row.value, "failReason")).Some? then TextOf(Get(row.value, "failReason"))
    else Some("failed with code " + TextOf(Get(row.value, "failCode")).value)
  }

  // ----- remediation ----------------------------------------------------------------------

  function Magnitude(d: Dec): Dec {
    Dec(if d.coeff < 0 then -d.coeff else d.coeff, d.exp)
  }

  /** `_remediation_stop_loss_params`: close the whole position, rounded down to lots. */
  function RemediationParams(r: Request, rules: Rules, expected: Attach, ordId: string, position: Dec,
                             sha: string -> string): Try<AlgoParams>
    requires RulesOk(rules) && position.coeff != 0
  {
    var tdMode :- TdMode(r.marginMode);
    Ok(AlgoParams(
         AlgoClientOrderId(r.clientOrderId + ":" + ordId, "sr", sha), rules.instId,
         if position.coeff < 0 then "buy" else "sell", true, WireText(expected.stopLoss),
         RoundDown(Value(Magnitude(position)), rules.lotSize), tdMode))
  }

  /** Placing the stop-loss for an open position. */
  function PlaceStop(r: Request, rules: Rules, expected: Attach, ordId: string, position: Dec,
                     refused: Option<string>, answers: Answers, sha: string -> string): Run<Report>
    requires RulesOk(rules) && position.coeff != 0
  {
    match RemediationParams(r, rules, expected, ordId, position, sha)
    case Crash => Run(Crash, [])
    case ValueError(reason) => Run(Ok(Unprotected(refused, reason)), [])
    case Ok(algo) =>
      match ResponseData(answers.placeAlgo)
      case Crash => Run(Crash, [PlaceAlgo(algo)])
      case ValueError(reason) => Run(Ok(Unprotected(refused, reason)), [PlaceAlgo(algo)])
      case Ok(rows) =>
        match SingleOrder(rows)
        case Crash => Run(Crash, [PlaceAlgo(algo)])
        case ValueError(reason) => Run(Ok(Unprotected(refused, reason)), [PlaceAlgo(algo)])
        case Ok(row) => Run(Ok(Remediated(refused, algo, TextOf(Get(row, "algoId")))), [PlaceAlgo(algo)])
  }

  /** Reading the position and, if one is open, placing the stop-loss. */
  function CheckPosition(r: Request, rules: Rules, expected: Attach, ordId: string, refused: Option<string>,
                         answers: Answers, sha: string -> string): Run<Report>
    requires RulesOk(rules)
  {
    var call := GetPositions(rules.instId);
    match PositionAnswer(answers, rules.instId)
    case Crash => Run(Crash, [call])
    case ValueError(reason) => Run(ValueError(reason), [call])
    case Ok(None) => Run(Ok(PendingActivation(refused)), [call])
    case Ok(Some(position)) =>
      // OpenPosition only returns non-zero sizes
      if position.coeff == 0 then Run(Ok(PendingActivation(refused)), [call])
      else
        var stop := PlaceStop(r, rules, expected, ordId, position, refused, answers, sha);
        Run(stop.outcome, [call] + stop.calls)
  }

  /** `_verify_or_remediate_protection`. */
  function Verify(r: Request, params: Params, response: Fields, ordId: string, rules: Rules,
                  answers: Answers, sha: string -> string): Run<Report>
    requires RulesOk(rules)
  {
    if params.attach.None? then Run(Ok(NotRequired), [])
    else
      var expected := params.attach.value;
      var refused := Refusal(response, expected);
      if refused.Some? then CheckPosition(r, rules, expected, ordId, refused, answers, sha)
      else
        var search := SearchAlgos(answers, rules.instId, expected, ordId, 0);
        match search.outcome
        case Crash => Run(Crash, search.calls)
        case ValueError(reason) => Run(ValueError(reason), search.calls)
        case Ok(Some(algo)) => Run(Ok(Protected(algo)), search.calls)
        case Ok(None) =>
          var rest := CheckPosition(r, rules, expected, ordId, None, answers, sha);
          Run(rest.outcome, search.calls + rest.calls)
  }

  /** `_safe_verify_or_remediate_protection`: after acceptance no `ValueError` gets out. */
  function SafeVerify(r: Request, params: Params, response: Fields, ordId: string, rules: Rules,
                      answers: Answers, sha: string -> string): (run: Run<Report>)
    requires RulesOk(rules)
    ensures !run.outcome.ValueError?
  {
    var run := Verify(r, params, response, ordId, rules, answers, sha);
    if run.outcome.ValueError? then Run(Ok(VerificationFailed(run.outcome.reason)), run.calls)
    else run
  }

  // ----- what a report means --------------------------------------------------------------

  function StopPlacedBy(call: Call): seq<AlgoParams> {
    if call.PlaceAlgo? then [call.algo] else []
  }

  /** The stop-loss orders placed by these calls. */
  function AlgoPlacements(calls: seq<Call>): seq<AlgoParams> {
    Flatten(StopPlacedBy, calls)
  }

  lemma AlgoPlacementsConcat(a: seq<Call>, b: seq<Call>)
    ensures AlgoPlacements(a + b) == AlgoPlacements(a) + AlgoPlacements(b)
  {
    FlattenConcat(StopPlacedBy, a, b);
  }

  /** The stop-loss order closes the position and never more: reduce-only, opposite side, all
      whole lots of the position. */
  predicate ClosesPosition(algo: AlgoParams, position: Dec, rules: Rules) {
    && algo.reduceOnly
    && algo.instId == rules.instId
    && algo.side == (if Value(position) < 0.0 then "buy" else "sell")
    && Value(Magnitude(position)) - Value(rules.lotSize) < Value(algo.sz) <= Value(Magnitude(position))
  }

  /** A pending algo order that protects, in the answer to one of the four queries. */
  ghost predicate SeenPending(answers: Answers, algo: Fields, expected: Attach, ordId: string) {
    exists i | 0 <= i < |ALGO_TYPES| ::
      && ResponseData(AlgoAnswer(answers, i)).Ok?
      && algo in ResponseData(AlgoAnswer(answers, i)).value
      && Matches(algo, expected, ordId)
  }

  /** None of the four answers holds a protecting algo order. */
  ghost predicate NonePending(answers: Answers, expected: Attach, ordId: string) {
    forall i | 0 <= i < |ALGO_TYPES| ::
      && ResponseData(AlgoAnswer(answers, i)).Ok?
      && forall row | row in ResponseData(AlgoAnswer(answers, i)).value :: !Matches(row, expected, ordId)
  }

  lemma {:induction false} SearchAlgosSound(answers: Answers, instId: string, expected: Attach, ordId: string, i: nat)
    requires i <= |ALGO_TYPES|
    ensures var search := SearchAlgos(answers, instId, expected, ordId, i);
            && AlgoPlacements(search.calls) == []
            && (search.outcome.Ok? && search.outcome.value.Some? ==>
                  SeenPending(answers, search.outcome.value.value, expected, ordId))
            && (search.outcome == Ok(None) ==>
                  && (forall j | i <= j < |ALGO_TYPES| ::
                        && ResponseData(AlgoAnswer(answers, j)).Ok?
                        && forall row | row in ResponseData(AlgoAnswer(answers, j)).value ::
                             !Matches(row, expected, ordId))
                  && (i == 0 ==> NonePending(answers, expected, ordId)))
    decreases |ALGO_TYPES| - i
  {
    hide Matches, ResponseData, AlgoAnswer, AlgoPlacements, FirstMatch;
    NoCalls();
    if i < |ALGO_TYPES| {
      SearchAlgosSound(answers, instId, expected, ordId, i + 1);
      var call := AlgosPending(instId, ALGO_TYPES[i]);
      NoAlgoPlaced(call);
      AlgoPlacementsConcat([call], SearchAlgos(answers, instId, expected, ordId, i + 1).calls);
    }
  }

  /** Stop-loss orders for two placements have one id exactly when the first 27 digits of their digests,
      of client order id and order id, agree. */
  lemma StopIdExactly(r: Request, rules: Rules, expected: Attach, ordId: string, position: Dec,
                      other: Request, otherRules: Rules, otherExpected: Attach, otherOrdId: string, otherPosition: Dec,
                      sha: string -> string)
    requires RulesOk(rules) && position.coeff != 0 && RulesOk(otherRules) && otherPosition.coeff != 0
    requires RemediationParams(r, rules, expected, ordId, position, sha).Ok?
    requires RemediationParams(other, otherRules, otherExpected, otherOrdId, otherPosition, sha).Ok?
    ensures var id := RemediationParams(r, rules, expected, ordId, position, sha).value.algoClOrdId;
            var another := RemediationParams(other, otherRules, otherExpected, otherOrdId, otherPosition, sha).value;
            id == another.algoClOrdId <==>
              Take(sha(r.clientOrderId + ":" + ordId + ":sr"), 27)
              == Take(sha(other.clientOrderId + ":" + otherOrdId + ":sr"), 27)
  {
    hide Value, RoundDown, WireText, AlgoClientOrderId, TdMode, RulesOk;
    AlgoIdExactly(r.clientOrderId + ":" + ordId, other.clientOrderId + ":" + otherOrdId, "sr", sha);
    assert r.clientOrderId + ":" + ordId + ":" + "sr" == r.clientOrderId + ":" + ordId + ":sr";
    assert other.clientOrderId + ":" + otherOrdId + ":" + "sr" == other.clientOrderId + ":" + otherOrdId + ":sr";
  }

  lemma RemediationClosesPosition(r: Request, rules: Rules, expected: Attach, ordId: string, position: Dec,
                                  sha: string -> string)
    requires RulesOk(rules) && position.coeff != 0 && TdMode(r.marginMode).Ok?
    ensures var algo := RemediationParams(r, rules, expected, ordId, position, sha);
            algo.Ok? && ClosesPosition(algo.value, position, rules)
  {
    PositiveValue(position);
    hide Value, RoundDown, OnGrid, WireText, AlgoClientOrderId, TdMode;
    RoundDownGreatest(Value(Magnitude(position)), rules.lotSize);
  }

  predicate AfterStop(report: Report, refused: Option<string>, placed: AlgoParams) {
    && (report.Remediated? || report.Unprotected?)
    && report.refused == refused
    && (report.Remediated? ==> report.placed == placed)
  }

  /** For an open position exactly one stop-loss order is attempted, and it closes the position. */
  lemma PlaceStopSound(r: Request, rules: Rules, expected: Attach, ordId: string, position: Dec,
                       refused: Option<string>, answers: Answers, sha: string -> string)
    requires RulesOk(rules) && position.coeff != 0 && TdMode(r.marginMode).Ok?
    ensures var run := PlaceStop(r, rules, expected, ordId, position, refused, answers, sha);
            && |AlgoPlacements(run.calls)| == 1
            && ClosesPosition(AlgoPlacements(run.calls)[0], position, rules)
            && !run.outcome.ValueError?
            && (run.outcome.Ok? ==>
                  AfterStop(run.outcome.value, refused, AlgoPlacements(run.calls)[0]))
  {
    RemediationClosesPosition(r, rules, expected, ordId, position, sha);
    hide RemediationParams, ResponseData, SingleOrder, ClosesPosition, AlgoPlacements;
    var algo := RemediationParams(r, rules, expected, ordId, position, sha).value;
    OneAlgoPlaced(algo);
  }

  /** The open position the exchange reports. */
  function SeenPosition(answers: Answers, instId: string): Option<Dec> {
    var seen := PositionAnswer(answers, instId);
    if seen.Ok? then seen.value else None
  }

  /** What each report means about the exchange's answers, and which stop-loss was attempted. */
  ghost predicate ReportMeans(report: Report, placed: seq<AlgoParams>, params: Params, response: Fields,
                              ordId: string, rules: Rules, answers: Answers) {
    && |placed| <= 1
    && (report.NotRequired? <==> params.attach.None?)
    && (report.NotRequired? || report.Protected? || report.PendingActivation? || report.VerificationFailed?
        ==> placed == [])
    && (report.Protected? ==> SeenPending(answers, report.algo, params.attach.value, ordId))
    && (report.PendingActivation? ==>
          && SeenPosition(answers, rules.instId).None?
          && report.refused == Refusal(response, params.attach.value)
          && (report.refused.None? ==> NonePending(answers, params.attach.value, ordId)))
    && (report.Remediated? || report.Unprotected? ==>
          && SeenPosition(answers, rules.instId).Some?
          && |placed| == 1
          && ClosesPosition(placed[0], SeenPosition(answers, rules.instId).value, rules)
          && (report.Remediated? ==> report.placed == placed[0])
          && report.refused == Refusal(response, params.attach.value)
          && (report.refused.None? ==> NonePending(answers, params.attach.value, ordId)))
  }

  lemma CheckPositionSound(r: Request, rules: Rules, expected: Attach, ordId: string, refused: Option<string>,
                           answers: Answers, sha: string -> string)
    requires RulesOk(rules) && TdMode(r.marginMode).Ok?
    ensures var run := CheckPosition(r, rules, expected, ordId, refused, answers, sha);
            var placed := AlgoPlacements(run.calls);
            && |placed| <= 1
            && (run.outcome.ValueError? ==> placed == [])
            && (SeenPosition(answers, rules.instId).Some? <==> placed != [])
            && (placed != [] ==> ClosesPosition(placed[0], SeenPosition(answers, rules.instId).value, rules))
            && (run.outcome.Ok? ==>
                  if placed == [] then run.outcome.value == PendingActivation(refused)
                  else AfterStop(run.outcome.value, refused, placed[0]))
  {
    hide PlaceStop, ClosesPosition, PositionAnswer, AlgoPlacements;
    var call := GetPositions(rules.instId);
    NoAlgoPlaced(call);
    PositionIsOpen(answers, rules.instId);
    if SeenPosition(answers, rules.instId).Some? {
      var position := SeenPosition(answers, rules.instId).value;
      PlaceStopSound(r, rules, expected, ordId, position, refused, answers, sha);
      var stop := PlaceStop(r, rules, expected, ordId, position, refused, answers, sha);
      AlgoPlacementsConcat([call], stop.calls);
      assert [] + AlgoPlacements(stop.calls) == AlgoPlacements(stop.calls);
    }
  }

  lemma OneAlgoPlaced(algo: AlgoParams)
    ensures AlgoPlacements([PlaceAlgo(algo)]) == [algo]
  {
    FlattenOne(StopPlacedBy, PlaceAlgo(algo));
  }

  lemma NoAlgoPlaced(call: Call)
    requires !call.PlaceAlgo?
    ensures AlgoPlacements([call]) == []
  {
    FlattenOne(StopPlacedBy, call);
  }

  lemma PositionIsOpen(answers: Answers, instId: string)
    ensures SeenPosition(answers, instId).Some? ==> SeenPosition(answers, instId).value.coeff != 0
  {
  }

  /** Over any exchange answers, the reported status is what the answers showed: the statuses are
      exclusive, a stop-loss is placed at most once and only for an open position, and an open
      position without a matching order is never left without an attempt. */
  lemma ProtectionSound(r: Request, params: Params, response: Fields, ordId: string, rules: Rules,
                        answers: Answers, sha: string -> string)
    requires RulesOk(rules) && TdMode(r.marginMode).Ok?
    ensures var run := SafeVerify(r, params, response, ordId, rules, answers, sha);
            && |AlgoPlacements(run.calls)| <= 1
            && (run.outcome.Ok? ==>
                  ReportMeans(run.outcome.value, AlgoPlacements(run.calls), params, response, ordId, rules, answers))
  {
    hide SearchAlgos, CheckPosition, Refusal, SeenPosition, ClosesPosition, AlgoPlacements,
      SeenPending, NonePending;
    NoCalls();
    if params.attach.Some? {
      var expected := params.attach.value;
      SearchAlgosSound(answers, rules.instId, expected, ordId, 0);
      var refused := Refusal(response, expected);
      CheckPositionSound(r, rules, expected, ordId, refused, answers, sha);
      var search := SearchAlgos(answers, rules.instId, expected, ordId, 0);
      var rest := CheckPosition(r, rules, expected, ordId, refused, answers, sha);
      AlgoPlacementsConcat(search.calls, rest.calls);
      assert [] + AlgoPlacements(rest.calls) == AlgoPlacements(rest.calls);
    }
  }

  lemma NoCalls()
    ensures AlgoPlacements([]) == []
  {
  }

  lemma {:induction false} SearchFindsNothing(answers: Answers, instId: string, expected: Attach, ordId: string, i: nat)
    requires i <= |ALGO_TYPES| && NonePending(answers, expected, ordId)
    ensures SearchAlgos(answers, instId, expected, ordId, i).outcome == Ok(None)
    decreases |ALGO_TYPES| - i
  {
    hide Matches, ResponseData, AlgoAnswer;
    if i < |ALGO_TYPES| {
      SearchFindsNothing(answers, instId, expected, ordId, i + 1);
    }
  }

  // ----- checking the same order twice ----------------------------------------------------

  /** The stop-loss order is for a positive size exactly when the position is at least one lot. */
  lemma StopSizePositiveExactly(r: Request, rules: Rules, expected: Attach, ordId: string, position: Dec,
                                sha: string -> string)
    requires RulesOk(rules) && position.coeff != 0 && TdMode(r.marginMode).Ok?
    ensures var algo := RemediationParams(r, rules, expected, ordId, position, sha);
            algo.Ok? && (Value(algo.value.sz) > 0.0 <==> Value(Magnitude(position)) >= Value(rules.lotSize))
  {
    hide Value, RoundDown, OnGrid, WireText, AlgoClientOrderId, TdMode, Magnitude;
    PositiveValue(rules.lotSize);
    RoundDownGreatest(Value(Magnitude(position)), rules.lotSize);
    FirstTicks(Value(rules.lotSize));
  }

  /** A pending order without a take-profit, as every stop placed by remediation is. */
  predicate BareStop(row: Fields) {
    TextOf(Get(row, "tpTriggerPx")).None?
  }

  /** Such an order is never taken for the bracket of an order that has a take-profit, whatever ids it
      carries. */
  lemma BareStopNeverMatches(row: Fields, expected: Attach, ordId: string)
    requires expected.takeProfit.Some? && BareStop(row)
    ensures !Matches(row, expected, ordId)
  {
  }

  /** The four queries are answered, and show nothing but bare stops. */
  ghost predicate OnlyBareStops(answers: Answers) {
    forall i | 0 <= i < |ALGO_TYPES| ::
      && ResponseData(AlgoAnswer(answers, i)).Ok?
      && forall row | row in ResponseData(AlgoAnswer(answers, i)).value :: BareStop(row)
  }

  lemma BareStopsAreNone(answers: Answers, expected: Attach, ordId: string)
    requires expected.takeProfit.Some? && OnlyBareStops(answers)
    ensures NonePending(answers, expected, ordId)
  {
    hide Matches, ResponseData, AlgoAnswer, BareStop;
    forall i, row | 0 <= i < |ALGO_TYPES| && row in ResponseData(AlgoAnswer(answers, i)).value
      ensures !Matches(row, expected, ordId) {
      assert BareStop(row);
      BareStopNeverMatches(row, expected, ordId);
    }
  }

  lemma StopPlaced(r: Request, rules: Rules, expected: Attach, ordId: string, position: Dec,
                   refused: Option<string>, answers: Answers, sha: string -> string)
    requires RulesOk(rules) && position.coeff != 0 && TdMode(r.marginMode).Ok?
    ensures RemediationParams(r, rules, expected, ordId, position, sha).Ok?
    ensures AlgoPlacements(PlaceStop(r, rules, expected, ordId, position, refused, answers, sha).calls)
         == [RemediationParams(r, rules, expected, ordId, position, sha).value]
    ensures StopDeclined(answers) ==>
              var run := PlaceStop(r, rules, expected, ordId, position, refused, answers, sha);
              run.outcome.Ok? && run.outcome.value.Unprotected?
  {
    RemediationClosesPosition(r, rules, expected, ordId, position, sha);
    hide RemediationParams, ResponseData, SingleOrder, AlgoPlacements, ClosesPosition, TdMode, RulesOk;
    OneAlgoPlaced(RemediationParams(r, rules, expected, ordId, position, sha).value);
  }

  /** The stop-loss that is tried for a position is determined by the order and the position. */
  lemma StopTried(r: Request, rules: Rules, expected: Attach, ordId: string, refused: Option<string>,
                  answers: Answers, sha: string -> string)
    requires RulesOk(rules) && TdMode(r.marginMode).Ok? && SeenPosition(answers, rules.instId).Some?
    ensures var position := SeenPosition(answers, rules.instId).value;
            && position.coeff != 0 && RemediationParams(r, rules, expected, ordId, position, sha).Ok?
            && AlgoPlacements(CheckPosition(r, rules, expected, ordId, refused, answers, sha).calls)
               == [RemediationParams(r, rules, expected, ordId, position, sha).value]
    ensures StopDeclined(answers) ==>
              var run := CheckPosition(r, rules, expected, ordId, refused, answers, sha);
              run.outcome.Ok? && run.outcome.value.Unprotected?
  {
    PositionIsOpen(answers, rules.instId);
    var position := SeenPosition(answers, rules.instId).value;
    StopPlaced(r, rules, expected, ordId, position, refused, answers, sha);
    hide RemediationParams, AlgoPlacements, PositionAnswer, PlaceStop, TdMode, RulesOk, StopDeclined;
    NoAlgoPlaced(GetPositions(rules.instId));
    var stop := PlaceStop(r, rules, expected, ordId, position, refused, answers, sha);
    AlgoPlacementsConcat([GetPositions(rules.instId)], stop.calls);
    assert [] + AlgoPlacements(stop.calls) == AlgoPlacements(stop.calls);
  }

  /** The exchange answers the stop-loss order, but does not take it. */
  predicate StopDeclined(answers: Answers) {
    var rows := ResponseData(answers.placeAlgo);
    rows.ValueError? || (rows.Ok? && SingleOrder(rows.value).ValueError?)
  }

  /** No order of the bracket is seen, refused or pending. */
  ghost predicate NoBracket(response: Fields, expected: Attach, ordId: string, answers: Answers) {
    Refusal(response, expected).Some? || NonePending(answers, expected, ordId)
  }

  lemma CheckTries(r: Request, params: Params, response: Fields, ordId: string, rules: Rules, answers: Answers,
                   sha: string -> string)
    requires RulesOk(rules) && TdMode(r.marginMode).Ok? && params.attach.Some?
    requires SeenPosition(answers, rules.instId).Some? && NoBracket(response, params.attach.value, ordId, answers)
    ensures var position := SeenPosition(answers, rules.instId).value;
            && position.coeff != 0 && RemediationParams(r, rules, params.attach.value, ordId, position, sha).Ok?
            && AlgoPlacements(SafeVerify(r, params, response, ordId, rules, answers, sha).calls)
               == [RemediationParams(r, rules, params.attach.value, ordId, position, sha).value]
    ensures StopDeclined(answers) ==>
              var run := SafeVerify(r, params, response, ordId, rules, answers, sha);
              run.outcome.Ok? && run.outcome.value.Unprotected?
  {
    hide SearchAlgos, CheckPosition, Refusal, SeenPosition, Matches, ResponseData, AlgoPlacements, RemediationParams,
      StopDeclined, TdMode, RulesOk, NonePending, SeenPending;
    var expected := params.attach.value;
    var refused := Refusal(response, expected);
    StopTried(r, rules, expected, ordId, refused, answers, sha);
    SearchAlgosSound(answers, rules.instId, expected, ordId, 0);
    if refused.None? {
      SearchFindsNothing(answers, rules.instId, expected, ordId, 0);
    }
    var search := SearchAlgos(answers, rules.instId, expected, ordId, 0);
    var rest := CheckPosition(r, rules, expected, ordId, refused, answers, sha);
    AlgoPlacementsConcat(search.calls, rest.calls);
    assert [] + AlgoPlacements(rest.calls) == AlgoPlacements(rest.calls);
  }

  /** Checking an order again, with its position unchanged: the stop placed the first time is bare, so it
      is not recognized, and the very same stop is tried once more, under the same client id.  If the
      exchange does not take it a second time, the order is reported unprotected, although the first
      stop is in place. */
  lemma SecondCheckRepeatsStop(r: Request, params: Params, ordId: string, rules: Rules,
                               response1: Fields, answers1: Answers, response2: Fields, answers2: Answers,
                               sha: string -> string)
    requires RulesOk(rules) && TdMode(r.marginMode).Ok? && params.attach.Some? && params.attach.value.takeProfit.Some?
    requires SeenPosition(answers1, rules.instId).Some?
    requires SeenPosition(answers2, rules.instId) == SeenPosition(answers1, rules.instId)
    requires NoBracket(response1, params.attach.value, ordId, answers1) && OnlyBareStops(answers2)
    ensures var run1, run2 := SafeVerify(r, params, response1, ordId, rules, answers1, sha),
                              SafeVerify(r, params, response2, ordId, rules, answers2, sha);
            && |AlgoPlacements(run1.calls)| == 1 && AlgoPlacements(run2.calls) == AlgoPlacements(run1.calls)
            && (StopDeclined(answers2) ==> run2.outcome.Ok? && run2.outcome.value.Unprotected?)
  {
    hide SafeVerify, OnlyBareStops, NonePending, SeenPosition, RemediationParams, AlgoPlacements, StopDeclined, TdMode,
      RulesOk;
    BareStopsAreNone(answers2, params.attach.value, ordId);
    CheckTries(r, params, response1, ordId, rules, answers1, sha);
    CheckTries(r, params, response2, ordId, rules, answers2, sha);
  }

  // ----- what the rows say ----------------------------------------------------------------

  /** The row is one of this instrument, and states a position. */
  predicate StatesPosition(row: Fields, instId: string) {
    Upper(PyStrOrEmpty(Get(row, "instId"))) == instId && Get(row, "pos") !in {Null, Str("")}
  }

  /** It states this number, of either sign. */
  predicate PositionReads(row: Fields, instId: string, d: Dec) {
    StatesPosition(row, instId) && !Get(row, "pos").Bool? && ReadDecimal(PyStr(Get(row, "pos"))) == Some(d)
  }

  /** It states none, or zero. */
  ghost predicate NoPosition(row: Fields, instId: string) {
    !StatesPosition(row, instId) || exists d :: PositionReads(row, instId, d) && d.coeff == 0
  }

  /** Row `i` is the first that states anything but zero, and what it states is this number. */
  ghost predicate FirstHeld(rows: seq<Fields>, instId: string, i: int, d: Dec) {
    && 0 <= i < |rows| && PositionReads(rows[i], instId, d) && d.coeff != 0
    && forall j | 0 <= j < i :: NoPosition(rows[j], instId)
  }

  lemma PositionSizeExactly(row: Fields, instId: string)
    ensures forall d :: PositionSize(row, instId) == Ok(Some(d)) <==> PositionReads(row, instId, d) && d.coeff != 0
    ensures PositionSize(row, instId) == Ok(None) <==> NoPosition(row, instId)
  {
    hide ReadDecimal, PyStrOrEmpty, Upper;
    if StatesPosition(row, instId) && !Get(row, "pos").Bool? && ReadDecimal(PyStr(Get(row, "pos"))).Some? {
      assert PositionReads(row, instId, ReadDecimal(PyStr(Get(row, "pos"))).value);
    }
  }

  /** An open position is found exactly when the rows state one: the number of the first row of the
      instrument that is not null, empty or zero, long or short; and none is found exactly when every
      row of the instrument is null, empty or zero. */
  lemma {:induction false} OpenPositionExactly(rows: seq<Fields>, instId: string)
    ensures forall d :: OpenPosition(rows, instId) == Ok(Some(d)) <==> exists i :: FirstHeld(rows, instId, i, d)
    ensures OpenPosition(rows, instId) == Ok(None) <==> forall i | 0 <= i < |rows| :: NoPosition(rows[i], instId)
  {
    hide PositionSize, PositionReads, NoPosition;
    if rows != [] {
      PositionSizeExactly(rows[0], instId);
      OpenPositionExactly(rows[1..], instId);
      forall d ensures OpenPosition(rows, instId) == Ok(Some(d)) <==> exists i :: FirstHeld(rows, instId, i, d) {
        HeldStep(rows, instId, d);
      }
      assert forall i | 1 <= i < |rows| :: rows[i] == rows[1..][i - 1];
      assert forall i | 0 <= i < |rows| - 1 :: rows[1..][i] == rows[i + 1];
    }
  }

  lemma HeldShift(rows: seq<Fields>, instId: string, d: Dec, i: int)
    requires rows != [] && i > 0
    ensures FirstHeld(rows, instId, i, d) <==> NoPosition(rows[0], instId) && FirstHeld(rows[1..], instId, i - 1, d)
  {
    hide PositionReads, NoPosition;
    var rest := rows[1..];
    assert forall j | 0 <= j < |rest| :: rest[j] == rows[j + 1];
    assert forall j | 1 <= j < |rows| :: rows[j] == rest[j - 1];
  }

  lemma HeldFirst(rows: seq<Fields>, instId: string, d: Dec)
    requires rows != []
    ensures FirstHeld(rows, instId, 0, d) <==> PositionReads(rows[0], instId, d) && d.coeff != 0
    ensures forall i | FirstHeld(rows, instId, i, d) :: i >= 0
  {
    hide PositionReads, NoPosition;
  }

  lemma HeldStep(rows: seq<Fields>, instId: string, d: Dec)
    requires rows != []
    requires OpenPosition(rows[1..], instId) == Ok(Some(d)) <==> exists i :: FirstHeld(rows[1..], instId, i, d)
    ensures OpenPosition(rows, instId) == Ok(Some(d)) <==> exists i :: FirstHeld(rows, instId, i, d)
  {
    hide PositionSize, PositionReads, NoPosition, FirstHeld;
    PositionSizeExactly(rows[0], instId);
    HeldOrNot(rows[0], instId, d);
    HeldFirst(rows, instId, d);
    if exists i :: FirstHeld(rows, instId, i, d) {
      var i :| FirstHeld(rows, instId, i, d);
      if i > 0 {
        HeldShift(rows, instId, d, i);
      }
    }
    if NoPosition(rows[0], instId) && exists i :: FirstHeld(rows[1..], instId, i, d) {
      var i :| FirstHeld(rows[1..], instId, i, d);
      HeldNotNegative(rows[1..], instId, d, i);
      HeldShift(rows, instId, d, i + 1);
    }
  }

  lemma HeldNotNegative(rows: seq<Fields>, instId: string, d: Dec, i: int)
    requires FirstHeld(rows, instId, i, d)
    ensures 0 <= i < |rows|
  {
    hide PositionReads, NoPosition;
  }

  lemma HeldOrNot(row: Fields, instId: string, d: Dec)
    ensures PositionReads(row, instId, d) && d.coeff != 0 ==> !NoPosition(row, instId)
  {
  }

  /** An order whose position the exchange states as open, long or short, and of whose bracket it shows
      nothing, always gets exactly one stop-loss attempt: on the side that closes the position, at the
      stop of the order. */
  lemma OpenPositionIsNeverIgnored(r: Request, params: Params, response: Fields, ordId: string, rules: Rules,
                                   answers: Answers, rows: seq<Fields>, i: int, position: Dec, sha: string -> string)
    requires RulesOk(rules) && TdMode(r.marginMode).Ok? && params.attach.Some?
    requires ResponseData(answers.positions) == Ok(rows) && FirstHeld(rows, rules.instId, i, position)
    requires NoBracket(response, params.attach.value, ordId, answers)
    ensures var stops := AlgoPlacements(SafeVerify(r, params, response, ordId, rules, answers, sha).calls);
            && |stops| == 1 && ClosesPosition(stops[0], position, rules)
            && stops[0].side == (if position.coeff < 0 then "buy" else "sell")
            && stops[0].slTriggerPx == WireText(params.attach.value.stopLoss)
            && r.marginMode.Some? && stops[0].tdMode == Lower(Strip(r.marginMode.value))
  {
    OpenPositionExactly(rows, rules.instId);
    hide FirstHeld;
    assert SeenPosition(answers, rules.instId) == Some(position);
    hide SeenPosition, NoBracket, ResponseData, OpenPosition, ClosesPosition, AlgoPlacements, SafeVerify, RulesOk;
    CheckTries(r, params, response, ordId, rules, answers, sha);
    RemediationClosesPosition(r, rules, params.attach.value, ordId, position, sha);
    StopTexts(r, rules, params.attach.value, ordId, position, sha);
    hide RemediationParams;
  }

  lemma StopTexts(r: Request, rules: Rules, expected: Attach, ordId: string, position: Dec, sha: string -> string)
    requires RulesOk(rules) && position.coeff != 0 && TdMode(r.marginMode).Ok?
    ensures var algo := RemediationParams(r, rules, expected, ordId, position, sha);
            && algo.Ok? && algo.value.side == (if position.coeff < 0 then "buy" else "sell")
            && algo.value.slTriggerPx == WireText(expected.stopLoss)
            && r.marginMode.Some? && algo.value.tdMode == Lower(Strip(r.marginMode.value))
  {
    MarginModeGiven(r.marginMode);
    hide WireText, AlgoClientOrderId, RoundDown, Value, TdMode;
  }

  lemma MarginModeGiven(marginMode: Option<string>)
    requires TdMode(marginMode).Ok?
    ensures marginMode.Some? && TdMode(marginMode).value == Lower(Strip(marginMode.value))
  {
    assert Strip("") == "" && Lower("") == "";
  }

  /** A price on the wire reads as that price, if it has at most 28 digits. */
  lemma WireTextReads(d: Dec)
    requires -LIMIT < d.coeff < LIMIT
    ensures ReadDecimal(WireText(d)).Some? && Value(ReadDecimal(WireText(d)).value) == Value(d)
  {
    hide Text, Parse, ReadDecimal, Fit, Value, Plain;
    var positive := Dec(if d.coeff < 0 then -d.coeff else d.coeff, d.exp);
    TextExact(positive, positive);
    ReadsOwnText(positive);
    if d.coeff < 0 {
      ReadsSign(Text(positive), '-');
      assert ['-'] + Text(positive) == "-" + Text(positive);
      Negated(positive);
      Negated(Parse(Text(positive)).value);
    }
  }

  lemma Negated(d: Dec)
    ensures Value(Dec(-d.coeff, d.exp)) == -Value(d)
  {
  }

  /** The text of a field, without white space around it; empty if it is no string. */
  function Said(row: Fields, key: string): string {
    if Get(row, key).Str? then Strip(Get(row, key).text) else ""
  }

  /** The row is in force, has the expected prices, closing at market, and is linked to the order. */
  predicate ShowsBracket(row: Fields, expected: Attach, ordId: string) {
    && Lower(Said(row, "state")) in {"", "live", "effective", "partially_effective"}
    && Said(row, "slTriggerPx") == WireText(expected.stopLoss) && Said(row, "slOrdPx") == "-1"
    && (expected.takeProfit.Some? ==>
          Said(row, "tpTriggerPx") == WireText(expected.takeProfit.value) && Said(row, "tpOrdPx") == "-1")
    && (Said(row, "algoClOrdId") == expected.clientId || Said(row, "ordId") == ordId)
  }

  lemma WireTextNotEmpty(d: Dec)
    ensures WireText(d) != ""
  {
    if d.coeff >= 0 {
      TextRoundTrip(d);
      PlainIsUnmarked(Text(d));
    }
  }

  /** A pending order counts as the bracket exactly if its fields say so. */
  lemma MatchesExactly(row: Fields, expected: Attach, ordId: string)
    requires expected.clientId != "" && ordId != ""
    ensures Matches(row, expected, ordId) <==> ShowsBracket(row, expected, ordId)
  {
    WireTextNotEmpty(expected.stopLoss);
    if expected.takeProfit.Some? {
      WireTextNotEmpty(expected.takeProfit.value);
    }
    LowerKeepsLength(Said(row, "state"));
    hide Strip, WireText, Lower;
  }

  lemma LowerKeepsLength(s: string)
    ensures Lower(s) == "" <==> s == ""
  {
  }

  /** Item `i` is the first in the answer for the attached orders of this client id. */
  predicate FirstForUs(items: seq<Json>, clientId: string, i: int) {
    && 0 <= i < |items| && items[i].Obj? && Said(items[i].fields, "attachAlgoClOrdId") == clientId
    && forall j | 0 <= j < i :: !(items[j].Obj? && Said(items[j].fields, "attachAlgoClOrdId") == clientId)
  }

  lemma {:induction false} FirstAttachedExactly(items: seq<Json>, expected: Attach)
    requires expected.clientId != ""
    ensures forall row :: FirstAttached(items, expected) == Some(row) <==>
              exists i :: FirstForUs(items, expected.clientId, i) && items[i].fields == row
  {
    hide Strip;
    if items != [] {
      var rest := items[1..];
      FirstAttachedExactly(rest, expected);
      if !(items[0].Obj? && Said(items[0].fields, "attachAlgoClOrdId") == expected.clientId) {
        hide Said;
        forall i ensures FirstForUs(items, expected.clientId, i) <==> FirstForUs(rest, expected.clientId, i - 1) {
          assert forall j | 0 <= j < |rest| :: rest[j] == items[j + 1];
          assert forall j | 1 <= j < |items| :: items[j] == rest[j - 1];
        }
        forall row ensures FirstAttached(items, expected) == Some(row) <==>
                           exists i :: FirstForUs(items, expected.clientId, i) && items[i].fields == row {
          if FirstAttached(rest, expected) == Some(row) {
            var k :| FirstForUs(rest, expected.clientId, k) && rest[k].fields == row;
            assert FirstForUs(items, expected.clientId, k + 1) && items[k + 1].fields == row;
          }
        }
      } else {
        assert FirstForUs(items, expected.clientId, 0);
      }
    }
  }

  /** The attached protection was refused exactly if the first answer for it carries a failure code. */
  lemma RefusalExactly(response: Fields, expected: Attach)
    requires expected.clientId != ""
    ensures Refusal(response, expected).Some? <==>
              && Get(response, "attachAlgoOrds").Arr?
              && exists i :: FirstForUs(Get(response, "attachAlgoOrds").items, expected.clientId, i)
                             && Said(Get(response, "attachAlgoOrds").items[i].fields, "failCode") != ""
  {
    if Get(response, "attachAlgoOrds").Arr? {
      var items := Get(response, "attachAlgoOrds").items;
      FirstAttachedExactly(items, expected);
      hide FirstAttached, FirstForUs, Strip;
      if exists i :: FirstForUs(items, expected.clientId, i) {
        var i :| FirstForUs(items, expected.clientId, i);
        OneFirst(items, expected.clientId);
        assert FirstAttached(items, expected) == Some(items[i].fields);
      }
    }
  }

  lemma OneFirst(items: seq<Json>, clientId: string)
    ensures forall i, j | FirstForUs(items, clientId, i) && FirstForUs(items, clientId, j) :: i == j
    ensures forall i | FirstForUs(items, clientId, i) :: 0 <= i < |items| && items[i].Obj?
  {
    hide Said;
  }

  /** A search that finds nothing has asked for all four kinds of order. */
  lemma AsksForAllKinds(answers: Answers, instId: string, expected: Attach, ordId: string)
    requires SearchAlgos(answers, instId, expected, ordId, 0).outcome == Ok(None)
    ensures SearchAlgos(answers, instId, expected, ordId, 0).calls
         == [AlgosPending(instId, "conditional"), AlgosPending(instId, "oco"), AlgosPending(instId, "trigger"),
             AlgosPending(instId, "move_order_stop")]
  {
    hide Matches, ResponseData, AlgoAnswer, FirstMatch;
    SearchesOn(answers, instId, expected, ordId, 0);
    SearchesOn(answers, instId, expected, ordId, 1);
    SearchesOn(answers, instId, expected, ordId, 2);
    SearchesOn(answers, instId, expected, ordId, 3);
    assert SearchAlgos(answers, instId, expected, ordId, 4).calls == [];
  }

  lemma SearchesOn(answers: Answers, instId: string, expected: Attach, ordId: string, i: nat)
    requires i < |ALGO_TYPES|
    ensures var search := SearchAlgos(answers, instId, expected, ordId, i);
            search.outcome == Ok(None) ==>
              var rest := SearchAlgos(answers, instId, expected, ordId, i + 1);
              rest.outcome == Ok(None) && search.calls == [AlgosPending(instId, ALGO_TYPES[i])] + rest.calls
  {
    hide Matches, ResponseData, AlgoAnswer, FirstMatch;
  }

  // ----- what became of the stop ----------------------------------------------------------

  /** The exchange answers the stop-loss order and takes it. */
  predicate StopTaken(answers: Answers) {
    var rows := ResponseData(answers.placeAlgo);
    rows.Ok? && rows.value != [] && !SaysRefusal(rows.value[0])
  }

  lemma StopAnswered(r: Request, rules: Rules, expected: Attach, ordId: string, position: Dec,
                     refused: Option<string>, answers: Answers, sha: string -> string)
    requires RulesOk(rules) && position.coeff != 0 && TdMode(r.marginMode).Ok?
    ensures var run := PlaceStop(r, rules, expected, ordId, position, refused, answers, sha);
            && (run.outcome.Ok? && run.outcome.value.Remediated? <==> StopTaken(answers))
            && (run.outcome.Ok? && run.outcome.value.Unprotected? <==> StopDeclined(answers))
  {
    RemediationClosesPosition(r, rules, expected, ordId, position, sha);
    hide RemediationParams, ResponseData, SaysRefusal, ClosesPosition, TdMode, RulesOk;
  }

  /** A report of a remediated or an unprotected order says what became of the stop. */
  lemma ReportOfStop(r: Request, params: Params, response: Fields, ordId: string, rules: Rules, answers: Answers,
                     sha: string -> string)
    requires RulesOk(rules) && TdMode(r.marginMode).Ok?
    ensures var run := SafeVerify(r, params, response, ordId, rules, answers, sha);
            && (run.outcome.Ok? && run.outcome.value.Remediated? ==> StopTaken(answers))
            && (run.outcome.Ok? && run.outcome.value.Unprotected? ==> StopDeclined(answers))
  {
    hide SearchAlgos, PositionAnswer, Refusal, PlaceStop, StopTaken, StopDeclined, TdMode, RulesOk;
    var seen := PositionAnswer(answers, rules.instId);
    if params.attach.Some? && seen.Ok? && seen.value.Some? && seen.value.value.coeff != 0 {
      var refused := Refusal(response, params.attach.value);
      StopAnswered(r, rules, params.attach.value, ordId, seen.value.value, refused, answers, sha);
      StopAnswered(r, rules, params.attach.value, ordId, seen.value.value, None, answers, sha);
    }
  }
}
