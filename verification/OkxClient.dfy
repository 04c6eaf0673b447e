/** The OKX order adapter as it runs: calls to the API one after the other, early returns and search
    loops.  Each method is proved equal to the function that specifies it. */
module OkxClient {
  import opened Wrappers
  import opened JsonValues
  import opened Decimals
  import opened OrderRequests
  import opened OkxOrders
  import opened OkxReplies
  import opened OkxProtection
  import opened OkxAdapter

  /** The exchange behind its API: it answers, keeps a book of the orders it accepted, and every
      call is recorded. */
  class OkxApi {
    const answers: Answers
    var book: map<OrderKey, string>
    var calls: seq<Call>

    constructor (answers: Answers, book: map<OrderKey, string>)
      ensures this.answers == answers && this.book == book && calls == []
    {
      this.answers, this.book, this.calls := answers, book, [];
    }

    method AskAccountConfig() returns (r: Answer)
      modifies this`calls
      ensures r == answers.config && calls == old(calls) + [GetAccountConfig]
    {
      calls := calls + [GetAccountConfig];
      r := answers.config;
    }

    method AskInstruments(instId: string) returns (r: Answer)
      modifies this`calls
      ensures r == answers.instruments && calls == old(calls) + [GetInstruments(instId)]
    {
      calls := calls + [GetInstruments(instId)];
      r := answers.instruments;
    }

    method AskLeverage(leverage: LeverageParams) returns (r: Answer)
      modifies this`calls
      ensures r == answers.leverage && calls == old(calls) + [SetLeverage(leverage)]
    {
      calls := calls + [SetLeverage(leverage)];
      r := answers.leverage;
    }

    method AskPrecheck(params: Params) returns (r: Answer)
      modifies this`calls
      ensures r == answers.precheck && calls == old(calls) + [OrderPrecheck(params)]
    {
      calls := calls + [OrderPrecheck(params)];
      r := answers.precheck;
    }

    method AskOrder(instId: string, clOrdId: string) returns (r: Answer)
      modifies this`calls
      ensures r == answers.lookup && calls == old(calls) + [GetOrder(instId, clOrdId)]
    {
      calls := calls + [GetOrder(instId, clOrdId)];
      r := answers.lookup;
    }

    method AskPendingAlgos(instId: string, i: nat) returns (r: Answer)
      requires i < |ALGO_TYPES|
      modifies this`calls
      ensures r == AlgoAnswer(answers, i) && calls == old(calls) + [AlgosPending(instId, ALGO_TYPES[i])]
    {
      calls := calls + [AlgosPending(instId, ALGO_TYPES[i])];
      r := AlgoAnswer(answers, i);
    }

    method AskPositions(instId: string) returns (r: Answer)
      modifies this`calls
      ensures r == answers.positions && calls == old(calls) + [GetPositions(instId)]
    {
      calls := calls + [GetPositions(instId)];
      r := answers.positions;
    }

    method PlaceAlgoOrder(algo: AlgoParams) returns (r: Answer)
      modifies this`calls
      ensures r == answers.placeAlgo && calls == old(calls) + [PlaceAlgo(algo)]
    {
      calls := calls + [PlaceAlgo(algo)];
      r := answers.placeAlgo;
    }

    method PlaceOrder(params: Params) returns (r: Answer)
      modifies this
      ensures r == answers.place && calls == old(calls) + [Call.PlaceOrder(params)]
      ensures book == if answers.accepted then old(book)[KeyOf(params) := answers.acceptedId] else old(book)
    {
      calls := calls + [Call.PlaceOrder(params)];
      if answers.accepted {
        book := book[KeyOf(params) := answers.acceptedId];
      }
      r := answers.place;
    }
  }

  // ----- searches -------------------------------------------------------------------------

  /** `_matching_pending_protection`. */
  method MatchingPendingProtection(rows: seq<Fields>, expected: Attach, ordId: string) returns (r: Option<Fields>)
    ensures r == FirstMatch(rows, expected, ordId)
  {
    hide Matches;
    for i := 0 to |rows|
      invariant FirstMatch(rows, expected, ordId) == FirstMatch(rows[i..], expected, ordId)
    {
      assert rows[i..][1..] == rows[i + 1..];
      if Matches(rows[i], expected, ordId) {
        return Some(rows[i]);
      }
    }
    r := None;
  }

  /** `_matching_pending_protection_from_api`. */
  method MatchingPendingProtectionFromApi(api: OkxApi, instId: string, expected: Attach, ordId: string)
    returns (r: Try<Option<Fields>>)
    modifies api`calls
    ensures var run := SearchAlgos(api.answers, instId, expected, ordId, 0);
            r == run.outcome && api.calls == old(api.calls) + run.calls
  {
    hide Matches, ResponseData, AlgoAnswer, FirstMatch;
    ghost var whole := SearchAlgos(api.answers, instId, expected, ordId, 0);
    ghost var asked: seq<Call> := [];
    for i := 0 to |ALGO_TYPES|
      invariant api.calls == old(api.calls) + asked
      invariant var rest := SearchAlgos(api.answers, instId, expected, ordId, i);
                whole.outcome == rest.outcome && whole.calls == asked + rest.calls
    {
      ghost var later := SearchAlgos(api.answers, instId, expected, ordId, i + 1).calls;
      Appended(asked, [AlgosPending(instId, ALGO_TYPES[i])], later);
      var answer := api.AskPendingAlgos(instId, i);
      Appended(old(api.calls), asked, [AlgosPending(instId, ALGO_TYPES[i])]);
      asked := asked + [AlgosPending(instId, ALGO_TYPES[i])];
      var rows := ResponseData(answer);
      if !rows.Ok? {
        return Failed(rows);
      }
      var found := MatchingPendingProtection(rows.value, expected, ordId);
      if found.Some? {
        return Ok(found);
      }
    }
    assert asked + [] == asked;
    r := Ok(None);
  }

  /** A failure is passed on. */
  function Failed<T, U>(t: Try<T>): (r: Try<U>)
    requires !t.Ok?
    ensures r.Crash? <==> t.Crash?
    ensures r.ValueError? ==> t.ValueError? && r.reason == t.reason
    ensures !r.Ok?
  {
    if t.Crash? then Crash else ValueError(t.reason)
  }

  /** `_matching_open_position`. */
  method MatchingOpenPosition(rows: seq<Fields>, instId: string) returns (r: Try<Option<Dec>>)
    ensures r == OpenPosition(rows, instId)
  {
    hide PositionSize;
    for i := 0 to |rows|
      invariant OpenPosition(rows, instId) == OpenPosition(rows[i..], instId)
    {
      assert rows[i..][1..] == rows[i + 1..];
      var size := PositionSize(rows[i], instId);
      if !size.Ok? || size.value.Some? {
        return size;
      }
    }
    r := Ok(None);
  }

  // ----- protection -----------------------------------------------------------------------

  /** `_remediate_stop_loss`, for an open position. */
  method PlaceStopLoss(api: OkxApi, r: Request, rules: Rules, expected: Attach, ordId: string, position: Dec,
                       refused: Option<string>, sha: string -> string) returns (report: Try<Report>)
    requires RulesOk(rules) && position.coeff != 0
    modifies api`calls
    ensures var run := PlaceStop(r, rules, expected, ordId, position, refused, api.answers, sha);
            report == run.outcome && api.calls == old(api.calls) + run.calls
  {
    hide RemediationParams, ResponseData, SingleOrder, RulesOk;
    var algo := RemediationParams(r, rules, expected, ordId, position, sha);
    if algo.Crash? {
      return Crash;
    }
    if algo.ValueError? {
      return Ok(Unprotected(refused, algo.reason));
    }
    var answer := api.PlaceAlgoOrder(algo.value);
    var rows := ResponseData(answer);
    if rows.Crash? {
      return Crash;
    }
    if rows.ValueError? {
      return Ok(Unprotected(refused, rows.reason));
    }
    var row := SingleOrder(rows.value);
    if row.Crash? {
      return Crash;
    }
    if row.ValueError? {
      return Ok(Unprotected(refused, row.reason));
    }
    report := Ok(Remediated(refused, algo.value, TextOf(Get(row.value, "algoId"))));
  }

  /** Reading the position, and remediation when one is open. */
  method CheckOpenPosition(api: OkxApi, r: Request, rules: Rules, expected: Attach, ordId: string,
                           refused: Option<string>, sha: string -> string) returns (report: Try<Report>)
    requires RulesOk(rules)
    modifies api`calls
    ensures var run := CheckPosition(r, rules, expected, ordId, refused, api.answers, sha);
            report == run.outcome && api.calls == old(api.calls) + run.calls
  {
    hide PlaceStop, ResponseData, RulesOk, OpenPosition;
    var asked := GetPositions(rules.instId);
    var answer := api.AskPositions(rules.instId);
    var rows := ResponseData(answer);
    if !rows.Ok? {
      return Failed(rows);
    }
    var position := MatchingOpenPosition(rows.value, rules.instId);
    if !position.Ok? {
      return Failed(position);
    }
    if position.value.None? || position.value.value.coeff == 0 {
      return Ok(PendingActivation(refused));
    }
    report := PlaceStopLoss(api, r, rules, expected, ordId, position.value.value, refused, sha);
    ghost var stop := PlaceStop(r, rules, expected, ordId, position.value.value, refused, api.answers, sha);
    Appended(old(api.calls), [asked], stop.calls);
  }

  lemma Appended<T>(a: seq<T>, b: seq<T>, c: seq<T>)
    ensures (a + b) + c == a + (b + c)
  {
  }

  /** `_verify_or_remediate_protection`. */
  method VerifyOrRemediate(api: OkxApi, r: Request, params: Params, response: Fields, ordId: string, rules: Rules,
                           sha: string -> string) returns (report: Try<Report>)
    requires RulesOk(rules)
    modifies api`calls
    ensures var run := Verify(r, params, response, ordId, rules, api.answers, sha);
            report == run.outcome && api.calls == old(api.calls) + run.calls
  {
    hide SearchAlgos, CheckPosition, Refusal, RulesOk;
    if params.attach.None? {
      return Ok(NotRequired);
    }
    var expected := params.attach.value;
    var refused := Refusal(response, expected);
    if refused.Some? {
      report := CheckOpenPosition(api, r, rules, expected, ordId, refused, sha);
      return;
    }
    var pending := MatchingPendingProtectionFromApi(api, rules.instId, expected, ordId);
    if !pending.Ok? {
      return Failed(pending);
    }
    if pending.value.Some? {
      return Ok(Protected(pending.value.value));
    }
    report := CheckOpenPosition(api, r, rules, expected, ordId, None, sha);
  }

  /** `_safe_verify_or_remediate_protection`. */
  method SafeVerifyOrRemediate(api: OkxApi, r: Request, params: Params, response: Fields, ordId: string, rules: Rules,
                               sha: string -> string) returns (report: Try<Report>)
    requires RulesOk(rules)
    modifies api`calls
    ensures var run := SafeVerify(r, params, response, ordId, rules, api.answers, sha);
            report == run.outcome && api.calls == old(api.calls) + run.calls
  {
    hide Verify, RulesOk;
    report := VerifyOrRemediate(api, r, params, response, ordId, rules, sha);
    if report.ValueError? {
      report := Ok(VerificationFailed(report.reason));
    }
  }

  // ----- the attempt ----------------------------------------------------------------------

  /** The gates before the lookup: account, instrument, leverage, parameters, precheck. */
  method CheckGates(api: OkxApi, r: Request, sha: string -> string) returns (gates: Try<Gates>)
    modifies api`calls
    ensures var run := PassGates(r, api.answers, sha);
            gates == run.outcome && api.calls == old(api.calls) + run.calls
  {
    hide InstrumentId, ReadAccount, ReadRules, SetUpLeverage, FinishGates, RulesOk;
    if r.provider != "okx" {
      return ValueError(Unsupported);
    }
    if r.executionMode != "real" {
      return ValueError(Unsupported);
    }
    var config := api.AskAccountConfig();
    var account := ReadAccount(config);
    if !account.Ok? {
      return Failed(account);
    }
    var instruments := api.AskInstruments(InstrumentId(r.symbol));
    var rules := ReadRules(r, instruments);
    if !rules.Ok? {
      return Failed(rules);
    }
    RulesAnswerSound(r, api.answers);
    gates := FinishGating(api, r, account.value, rules.value, sha);
    ghost var asked := [GetAccountConfig, GetInstruments(InstrumentId(r.symbol))];
    ghost var leverage := SetUpLeverage(r, rules.value, api.answers);
    Appended(old(api.calls), asked, leverage.calls);
    if leverage.outcome.Ok? {
      ghost var rest := FinishGates(r, account.value, rules.value, leverage.outcome.value, api.answers, sha);
      Appended(old(api.calls), asked + leverage.calls, rest.calls);
    }
  }

  /** Leverage, parameters and precheck. */
  method FinishGating(api: OkxApi, r: Request, account: Account, rules: Rules, sha: string -> string)
    returns (gates: Try<Gates>)
    requires RulesOk(rules)
    modifies api`calls
    ensures var leverage := SetUpLeverage(r, rules, api.answers);
            if leverage.outcome.Ok? then
              var rest := FinishGates(r, account, rules, leverage.outcome.value, api.answers, sha);
              gates == rest.outcome && api.calls == old(api.calls) + leverage.calls + rest.calls
            else
              gates.Crash? == leverage.outcome.Crash? && !gates.Ok?
              && (gates.ValueError? ==> gates.reason == leverage.outcome.reason)
              && api.calls == old(api.calls) + leverage.calls
  {
    hide OrderParams, LeverageRequest, ReadLeverage, ResponseData, RulesOk;
    var expected := LeverageRequest(r, rules);
    if !expected.Ok? {
      return Failed(expected);
    }
    var set_: Option<Leverage> := None;
    if expected.value.Some? {
      var answer := api.AskLeverage(expected.value.value);
      var verified := ReadLeverage(expected.value.value, answer);
      if !verified.Ok? {
        return Failed(verified);
      }
      set_ := Some(verified.value);
    }
    var params := OrderParams(r, rules, sha);
    if !params.Ok? {
      return Failed(params);
    }
    var passed := false;
    if account.acctLv != "2" {
      var answer := api.AskPrecheck(params.value);
      var rows := ResponseData(answer);
      if !rows.Ok? {
        return Failed(rows);
      }
      passed := true;
    }
    gates := Ok(Gates(account, rules, set_, params.value, passed));
  }

  /** `prepare_order`: everything the exchange is asked, in order, and what its book holds after. */
  method PrepareOrderAtExchange(api: OkxApi, r: Request, sha: string -> string) returns (placed: Try<Placed>)
    modifies api
    ensures var run := PrepareOrder(r, api.answers, sha);
            && placed == run.outcome && api.calls == old(api.calls) + run.calls
            && api.book == (if Placements(run.calls) != [] && api.answers.accepted
                            then old(api.book)[KeyOf(Placements(run.calls)[0]) := api.answers.acceptedId]
                            else old(api.book))
  {
    hide PassGates, Lookup, LookupOrPlace, Checked, RulesOk, Placements, KeyOf;
    PlacesExactly(r, api.answers, sha);
    GatesSound(r, api.answers, sha);
    var gates := CheckGates(api, r, sha);
    if !gates.Ok? {
      return Failed(gates);
    }
    CheckedRules(r, gates.value, api.answers, sha);
    placed := LookupOrPlaceAtExchange(api, r, gates.value, sha);
    Appended(old(api.calls), PassGates(r, api.answers, sha).calls,
             LookupOrPlace(r, gates.value, api.answers, sha).calls);
  }

  /** The lookup, the placement if it missed, and the protection check. */
  method LookupOrPlaceAtExchange(api: OkxApi, r: Request, gates: Gates, sha: string -> string)
    returns (placed: Try<Placed>)
    requires RulesOk(gates.rules)
    modifies api
    ensures var run := LookupOrPlace(r, gates, api.answers, sha);
            placed == run.outcome && api.calls == old(api.calls) + run.calls
    ensures api.book == if Lookup(api.answers.lookup) == Ok(None) && api.answers.accepted
                        then old(api.book)[KeyOf(gates.params) := api.answers.acceptedId] else old(api.book)
  {
    hide Lookup, Finish, ReadOrder, RulesOk, KeyOf;
    ghost var asked := [GetOrder(gates.params.instId, gates.params.clOrdId)];
    var answer := api.AskOrder(gates.params.instId, gates.params.clOrdId);
    var existing := Lookup(answer);
    if !existing.Ok? {
      return Failed(existing);
    }
    var response: Fields;
    if existing.value.Some? {
      response := existing.value.value;
    } else {
      var reply := api.PlaceOrder(gates.params);
      asked := asked + [PlaceOrder(gates.params)];
      var row := ReadOrder(reply);
      if !row.Ok? {
        return Failed(row);
      }
      response := row.value;
    }
    placed := FinishAtExchange(api, r, gates, response, existing.value.Some?, sha);
    Appended(old(api.calls), asked, Finish(r, gates, response, existing.value.Some?, api.answers, sha).calls);
  }

  method FinishAtExchange(api: OkxApi, r: Request, gates: Gates, response: Fields, recovered: bool,
                          sha: string -> string)
    returns (placed: Try<Placed>)
    requires RulesOk(gates.rules)
    modifies api`calls
    ensures var run := Finish(r, gates, response, recovered, api.answers, sha);
            placed == run.outcome && api.calls == old(api.calls) + run.calls
  {
    hide SafeVerify, OrdId, RulesOk, Get, TextOf;
    var ordId := OrdId(response);
    if ordId.None? {
      return ValueError(Missing);
    }
    var report := SafeVerifyOrRemediate(api, r, gates.params, response, ordId.value, gates.rules, sha);
    if !report.Ok? {
      return Failed(report);
    }
    placed := Ok(Placed(ordId.value, recovered, gates, report.value,
                        TextOf(Get(response, "sCode")), TextOf(Get(response, "sMsg"))));
  }
}
