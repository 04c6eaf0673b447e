/** Reading the exchange's answers (`okx_swap.py`, the `_okx_response_data` family). */
module OkxReplies {
  import opened Wrappers
  import opened Texts
  import opened JsonValues
  import opened Decimals
  import opened DecimalText
  import opened OrderRequests
  import opened OkxOrders
  import Guards

  /** One API call: it raised something other than a `ValueError`, or it returned a JSON value. */
  datatype Answer = Raised | Reply(body: Json)

  predicate AllObjects(items: seq<Json>) {
    forall item | item in items :: item.Obj?
  }

  function FieldsOf(items: seq<Json>): (r: seq<Fields>)
    requires AllObjects(items)
    ensures |r| == |items| && forall i | 0 <= i < |items| :: r[i] == items[i].fields
    ensures forall row | row in r :: Obj(row) in items
  {
    assert forall i | 0 <= i < |items| :: items[i] in items;
    var r := seq(|items|, i requires 0 <= i < |items| => items[i].fields);
    assert forall i | 0 <= i < |r| :: items[i] in items && Obj(r[i]) == items[i];
    r
  }

  /** `_okx_response_data`: the data rows of a response with code 0. */
  function ResponseData(answer: Answer): (r: Try<seq<Fields>>)
    ensures r.Ok? ==> forall row | row in r.value :: Guards.Clean(Obj(row))
    ensures r.Crash? <==> answer.Raised?
  {
    if answer.Raised? then Crash
    else if !answer.body.Obj? then ValueError(Malformed)
    else if PyStrOrEmpty(Get(answer.body.fields, "code")) != "0" then
      ValueError(Declined)
    else
      var data := Get(answer.body.fields, "data");
      if data.Null? || data == Str("") then Ok([])
      else if !data.Arr? || !AllObjects(data.items) then ValueError(Malformed)
      else if !Guards.Clean(data) then ValueError(SecretField)
      else Ok(FieldsOf(data.items))
  }

  // ----- account --------------------------------------------------------------------------

  datatype Account = Account(acctLv: string, posMode: string)

  /** The row states this level and this position mode, up to white space around them. */
  predicate SaysAccount(row: Fields, level: string, mode: string) {
    && Get(row, "acctLv").Str? && Strip(Get(row, "acctLv").text) == level && level != ""
    && Get(row, "posMode").Str? && Strip(Get(row, "posMode").text) == mode && mode != ""
  }

  /** `_validated_account_config`: the level and mode of the first row. */
  function AccountConfig(rows: seq<Fields>): (r: Try<Account>)
    ensures !r.Crash?
    ensures r.Ok? ==> r.value.acctLv in {"2", "3"} && r.value.posMode == "net_mode"
    ensures r.Ok? ==> rows != [] && SaysAccount(rows[0], r.value.acctLv, r.value.posMode)
    ensures r.Ok? <==> rows != [] && (SaysAccount(rows[0], "2", "net_mode") || SaysAccount(rows[0], "3", "net_mode"))
  {
    if rows == [] then ValueError(NotFound)
    else
      var level, mode := TextOf(Get(rows[0], "acctLv")), TextOf(Get(rows[0], "posMode"));
      if level != Some("2") && level != Some("3") then
        ValueError(Unsupported)
      else if mode != Some("net_mode") then ValueError(Unsupported)
      else Ok(Account(level.value, mode.value))
  }

  // ----- instrument rules -----------------------------------------------------------------

  function RequiredString(j: Json): Try<string> {
    match TextOf(j)
    case None => ValueError(Missing)
    case Some(text) => Ok(text)
  }

  /** `_decimal`: any finite number that is not a boolean. */
  function AnyDecimal(j: Json): Try<Dec> {
    if j.Bool? then ValueError(NotNumeric)
    else match ReadDecimal(PyStr(j))
      case None => ValueError(NotNumeric)
      case Some(d) => Ok(d)
  }

  function PositiveFigure(j: Json): Try<Dec> {
    var d :- AnyDecimal(j);
    if d.coeff <= 0 then ValueError(NotPositive) else Ok(d)
  }

  function RulesOf(row: Fields): Try<Rules> {
    var instId :- RequiredString(Get(row, "instId"));
    var instType :- RequiredString(Get(row, "instType"));
    var state :- RequiredString(Get(row, "state"));
    var contractValue :- PositiveFigure(Get(row, "ctVal"));
    var lotSize :- PositiveFigure(Get(row, "lotSz"));
    var tickSize :- PositiveFigure(Get(row, "tickSz"));
    var minSize :- PositiveFigure(Get(row, "minSz"));
    if Upper(instType) != "SWAP" then ValueError(Unsupported)
    else if Lower(state) != "live" then ValueError(Unavailable)
    else Ok(Rules(Upper(instId), contractValue, lotSize, tickSize, minSize))
  }

  /** `okx_swap_instrument_rules`: the first row for the instrument decides. */
  function InstrumentRules(rows: seq<Fields>, instId: string): Try<Rules> {
    if rows == [] then ValueError(NotFound)
    else if NamesInstrument(rows[0], InstrumentId(instId)) then RulesOf(rows[0])
    else InstrumentRules(rows[1..], instId)
  }

  predicate NamesInstrument(row: Fields, instId: string) {
    Upper(PyStrOrEmpty(Get(row, "instId"))) == instId
  }

  /** The row is a live swap with these figures. */
  predicate Describes(row: Fields, rules: Rules) {
    && AnyDecimal(Get(row, "ctVal")) == Ok(rules.contractValue)
    && AnyDecimal(Get(row, "lotSz")) == Ok(rules.lotSize)
    && AnyDecimal(Get(row, "tickSz")) == Ok(rules.tickSize)
    && AnyDecimal(Get(row, "minSz")) == Ok(rules.minSize)
    && TextOf(Get(row, "instType")).Some? && Upper(TextOf(Get(row, "instType")).value) == "SWAP"
    && TextOf(Get(row, "state")).Some? && Lower(TextOf(Get(row, "state")).value) == "live"
  }

  lemma RulesOfIsSound(row: Fields)
    ensures !RulesOf(row).Crash?
    ensures RulesOf(row).Ok? ==>
      && RulesOk(RulesOf(row).value)
      && Describes(row, RulesOf(row).value)
      && Get(row, "instId").Str?
      && RulesOf(row).value.instId == Upper(Strip(Get(row, "instId").text))
  {
    hide Strip, Upper, Lower, ReadDecimal;
  }

  lemma InstrumentIdNormal(symbol: string)
    ensures var id := InstrumentId(symbol);
            Stripped(id) && Upper(id) == id && InstrumentId(id) == id
  {
    var s := Upper(Strip(symbol));
    UpperStripped(Strip(symbol));
    UpperIdempotent(Strip(symbol));
    if '-' !in s && EndsWith(s, "USDT") && |s| > 4 {
      var id := s[..|s| - 4] + "-USDT-SWAP";
      assert id[|s| - 4] == '-';
      assert forall i | 0 <= i < |s| - 4 :: id[i] == s[i] == Upper(s)[i];
      assert Upper(id) == id;
    }
  }

  /** The rules come from row `i`, the first for the instrument. */
  ghost predicate ComesFrom(rows: seq<Fields>, i: int, instId: string, rules: Rules) {
    && 0 <= i < |rows| && NamesInstrument(rows[i], instId) && Describes(rows[i], rules)
    && (forall j | 0 <= j < i :: !NamesInstrument(rows[j], instId))
  }

  /** Rules that are found are the requested instrument's, with positive figures: those of the first
      row for it, a live swap. */
  lemma {:induction false} InstrumentRulesSound(rows: seq<Fields>, symbol: string)
    ensures var r := InstrumentRules(rows, InstrumentId(symbol));
            && !r.Crash?
            && (r.Ok? ==>
                  && RulesOk(r.value) && r.value.instId == InstrumentId(symbol)
                  && exists i :: ComesFrom(rows, i, InstrumentId(symbol), r.value))
  {
    hide RulesOk, Describes, RulesOf;
    if rows != [] {
      var id := InstrumentId(symbol);
      InstrumentIdNormal(symbol);
      if NamesInstrument(rows[0], id) {
        hide InstrumentId;
        RulesOfIsSound(rows[0]);
        if RulesOf(rows[0]).Ok? {
          StrippedUpper(Get(rows[0], "instId").text, id);
          assert ComesFrom(rows, 0, id, RulesOf(rows[0]).value);
        }
      } else {
        hide InstrumentId, NamesInstrument;
        InstrumentRulesSound(rows[1..], symbol);
        var r := InstrumentRules(rows[1..], id);
        if r.Ok? {
          var i :| ComesFrom(rows[1..], i, id, r.value);
          assert forall j | 1 <= j < |rows| :: rows[j] == rows[1..][j - 1];
          assert ComesFrom(rows, i + 1, id, r.value);
        }
      }
    }
  }

  /** Upper-casing does not touch white space, so a stripped match was stripped to begin with. */
  lemma StrippedUpper(text: string, id: string)
    requires Upper(text) == id && Stripped(id)
    ensures Upper(Strip(text)) == id
  {
    assert |text| == |id|;
    if text != "" {
      assert UpperChar(text[0]) == id[0];
      assert UpperChar(text[|text| - 1]) == id[|id| - 1];
    }
    assert Stripped(text);
  }

  // ----- leverage -------------------------------------------------------------------------

  datatype LeverageParams = LeverageParams(instId: string, lever: string, mgnMode: string)

  /** `_integer_leverage_text`: rounded up, at least one. */
  function LeverageText(leverage: Dec): string {
    var up := -(-Value(leverage)).Floor;
    Digits(if up < 1 then 1 else up)
  }

  /** `okx_swap_set_leverage_params`. */
  function LeverageRequest(r: Request, rules: Rules): Try<Option<LeverageParams>> {
    if r.leverage.None? then Ok(None)
    else
      var mode :- TdMode(r.marginMode);
      Ok(Some(LeverageParams(rules.instId, LeverageText(r.leverage.value), mode)))
  }

  datatype Leverage = Leverage(instId: string, lever: string, mgnMode: string, posSide: Option<string>)

  /** The exchange confirms the leverage that was asked for. */
  predicate Confirms(row: Fields, expected: LeverageParams) {
    && TextOf(Get(row, "lever")) == Some(expected.lever)
    && TextOf(Get(row, "mgnMode")) == Some(expected.mgnMode)
    && (TextOf(Get(row, "instId")).None? || TextOf(Get(row, "instId")) == Some(expected.instId))
  }

  /** The row states the leverage and the margin mode, and no other instrument. */
  predicate SaysLeverage(row: Fields, expected: LeverageParams) {
    && Get(row, "lever").Str? && Strip(Get(row, "lever").text) == expected.lever != ""
    && Get(row, "mgnMode").Str? && Strip(Get(row, "mgnMode").text) == expected.mgnMode != ""
    && (Get(row, "instId").Str? && Strip(Get(row, "instId").text) != "" ==>
          Strip(Get(row, "instId").text) == expected.instId)
  }

  /** `_verified_set_leverage_payload`. */
  function VerifiedLeverage(rows: seq<Fields>, expected: LeverageParams): (r: Try<Leverage>)
    ensures !r.Crash?
    ensures r.Ok? <==> exists row | row in rows :: SaysLeverage(row, expected)
    ensures r.Ok? ==> r.value.lever == expected.lever && r.value.mgnMode == expected.mgnMode
                      && r.value.instId == expected.instId
  {
    if rows == [] then ValueError(Mismatch)
    else
      ConfirmsExactly(rows[0], expected);
      assert rows[0] in rows;
      if Confirms(rows[0], expected) then
      Ok(Leverage(expected.instId, expected.lever, expected.mgnMode, TextOf(Get(rows[0], "posSide"))))
    else VerifiedLeverage(rows[1..], expected)
  }

  lemma ConfirmsExactly(row: Fields, expected: LeverageParams)
    ensures Confirms(row, expected) <==> SaysLeverage(row, expected)
  {
    hide Strip;
  }

  // ----- orders ---------------------------------------------------------------------------

  /** The row carries a status code other than 0. */
  predicate SaysRefusal(row: Fields) {
    Get(row, "sCode").Str? && Strip(Get(row, "sCode").text) !in {"", "0"}
  }

  /** `_single_order_response`: the first row, unless it carries a refusal code. */
  function SingleOrder(rows: seq<Fields>): (r: Try<Fields>)
    ensures !r.Crash?
    ensures r.Ok? ==> rows != [] && r.value == rows[0]
    ensures r.Ok? <==> rows != [] && !SaysRefusal(rows[0])
  {
    if rows == [] then ValueError(NotFound)
    else
      var code := TextOf(Get(rows[0], "sCode"));
      if code.Some? && code.value != "0" then ValueError(Declined)
      else Ok(rows[0])
  }

  function OrdId(row: Fields): Option<string> {
    TextOf(Get(row, "ordId"))
  }

  /** `_lookup_order_by_client_id`: any `ValueError` counts as "no such order". */
  function Lookup(answer: Answer): (r: Try<Option<Fields>>)
    ensures r.Crash? <==> answer.Raised?
    ensures !r.ValueError?
    ensures r.Ok? && r.value.Some? ==> OrdId(r.value.value).Some?
    ensures r.Ok? && r.value.Some? <==>
      ResponseData(answer).Ok? && ResponseData(answer).value != [] && OrdId(ResponseData(answer).value[0]).Some?
    ensures r.Ok? && r.value.Some? ==> r.value.value == ResponseData(answer).value[0]
  {
    match ResponseData(answer)
    case Crash => Crash
    case ValueError(_) => Ok(None)
    case Ok(rows) =>
      if rows == [] || OrdId(rows[0]).None? then Ok(None) else Ok(Some(rows[0]))
  }

  /** The leverage set is the least whole number that covers the one asked for, and at least one. */
  lemma LeverageRoundsUp(leverage: Dec)
    ensures var whole := LeverageText(leverage);
            && (forall c | c in whole :: IsDigit(c))
            && Number(whole) >= 1
            && Number(whole) as real >= Value(leverage)
            && (Number(whole) == 1 || (Number(whole) - 1) as real < Value(leverage))
  {
    hide Value;
    var up := -(-Value(leverage)).Floor;
    NumberOfDigits(if up < 1 then 1 else up);
  }

  // ----- a well-formed reply --------------------------------------------------------------

  /** The reply says success, and brings these rows. */
  predicate Brings(body: Json, rows: seq<Fields>) {
    && body.Obj? && Get(body.fields, "code") == Str("0") && Guards.Clean(Get(body.fields, "data"))
    && var data := Get(body.fields, "data");
    if data.Arr? then |rows| == |data.items| && forall i | 0 <= i < |rows| :: data.items[i] == Obj(rows[i])
    else data in {Null, Str("")} && rows == []
  }

  lemma OnlyZeroIsSuccess(j: Json)
    ensures PyStrOrEmpty(j) == "0" <==> j == Str("0")
  {
    ZeroIsFalse();
    hide ReadDecimal;
  }

  lemma ZeroIsFalse()
    ensures ReadDecimal("0") == Some(Dec(0, 0))
  {
    assert "0"[..1] == "0" && "0"[..0] == "";
    assert Number("0") == 10 * Number("0"[..0]) + DigitValue('0');
    assert PointAt("0") == 1 && ExponentAt("0") == 1;
  }

  /** Rows are read exactly from a reply with code 0 whose data is a list of objects, or nothing, without
      secret-like keys. */
  lemma ResponseDataExactly(body: Json, rows: seq<Fields>)
    ensures ResponseData(Reply(body)) == Ok(rows) <==> Brings(body, rows)
  {
    if body.Obj? {
      OnlyZeroIsSuccess(Get(body.fields, "code"));
      NothingIsClean();
      hide PyStrOrEmpty, Guards.Clean;
      var data := Get(body.fields, "data");
      if data.Arr? && AllObjects(data.items) {
        var read := FieldsOf(data.items);
        assert forall i | 0 <= i < |read| :: data.items[i] in data.items;
        if Brings(body, rows) {
          assert forall i | 0 <= i < |rows| :: Obj(rows[i]) == Obj(read[i]);
          assert rows == read;
        }
      }
    }
  }

  lemma NothingIsClean()
    ensures Guards.Clean(Null) && forall s: string :: Guards.Clean(Str(s))
  {
  }

  /** The leverage asked for is the request's, rounded up, for the instrument and its margin mode. */
  lemma LeverageAsked(r: Request, rules: Rules)
    requires LeverageRequest(r, rules).Ok? && LeverageRequest(r, rules).value.Some?
    ensures var asked := LeverageRequest(r, rules).value.value;
            && r.leverage.Some? && asked.instId == rules.instId && asked.lever == LeverageText(r.leverage.value)
            && r.marginMode.Some? && asked.mgnMode == Lower(Strip(r.marginMode.value))
  {
    hide Strip;
  }
}
