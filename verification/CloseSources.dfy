/** `reconciliation.py`: who closed a position -- labelling fills by the orders they refer to. */
module CloseSources {
  import opened Wrappers
  import opened Texts
  import opened JsonValues
  import opened OkxOrders
  import OkxReplies

  /** `_text`. */
  function FieldText(j: Json): string {
    if j.Null? then "" else Strip(PyStr(j))
  }

  function KeepTokenChars(s: string): string {
    if s == "" then ""
    else (if IsAlnum(s[0]) || s[0] == '_' then [s[0]] else "") + KeepTokenChars(s[1..])
  }

  /** `_normalized_token`. */
  function NormalToken(j: Json): string {
    KeepTokenChars(Replace(Replace(Lower(FieldText(j)), '-', '_'), ' ', '_'))
  }

  function RoleOf(token: string): string {
    if token in {"tp", "takeprofit", "take_profit"} then "take_profit"
    else if token in {"sl", "stoploss", "stop_loss"} then "stop_loss"
    else if token in {"manual", "provider_manual", "external_manual"} then "provider_manual"
    else ""
  }

  /** The first key that names a role. */
  function NamedRole(item: Fields, keys: seq<string>): string {
    if keys == [] then ""
    else if RoleOf(NormalToken(Get(item, keys[0]))) != "" then RoleOf(NormalToken(Get(item, keys[0])))
    else NamedRole(item, keys[1..])
  }

  /** `_infer_close_source`. */
  function Infer(item: Fields): string {
    var named := NamedRole(item, ["closeSource", "actualSide", "orderRole", "triggerSource"]);
    var orderType := NormalToken(Get(item, "ordType"));
    if named != "" then named
    else if orderType in {"takeprofit", "take_profit", "tp"} then "take_profit"
    else if orderType in {"stoploss", "stop_loss", "sl"} then "stop_loss"
    else if Lower(FieldText(Get(item, "reduceOnly"))) == "true" && !StartsWith(FieldText(Get(item, "clOrdId")), "ytm")
    then "provider_manual"
    else ""
  }

  // ----- what a label means ---------------------------------------------------------------

  /** Letters, digits and separators count, in either case and with one kind of separator. */
  predicate CountsInToken(c: char) {
    IsAlnum(c) || c == '_' || c == '-' || c == ' '
  }

  function TokenFold(c: char): char {
    if c == '-' || c == ' ' then '_' else LowerChar(c)
  }

  ghost predicate ReadsAs(j: Json, word: string) {
    exists at :: Picked(FieldText(j), word, CountsInToken, TokenFold, at)
  }

  function TokenOf(s: string): string {
    KeepTokenChars(Replace(Replace(Lower(s), '-', '_'), ' ', '_'))
  }

  lemma TokenMore(c: char, rest: string)
    ensures TokenOf([c] + rest) == (if CountsInToken(c) then [TokenFold(c)] else "") + TokenOf(rest)
  {
    var s := [c] + rest;
    var t, u := Replace(Replace(Lower(s), '-', '_'), ' ', '_'), Replace(Replace(Lower(rest), '-', '_'), ' ', '_');
    assert t[0] == TokenFold(c) && t[1..] == u;
  }

  lemma {:induction false} TokenPicks(s: string)
    ensures exists at :: Picked(s, TokenOf(s), CountsInToken, TokenFold, at)
  {
    hide TokenOf, CountsInToken, TokenFold, Picked;
    if s == "" {
      EmptyPicks(s);
    } else {
      var c, rest := s[0], s[1..];
      TokenPicks(rest);
      var at :| Picked(rest, TokenOf(rest), CountsInToken, TokenFold, at);
      TokenMore(c, rest);
      assert s == [c] + rest;
      if CountsInToken(c) {
        PickKept(c, rest, TokenOf(rest), CountsInToken, TokenFold, at);
      } else {
        PickDropped(c, rest, TokenOf(rest), CountsInToken, TokenFold, at);
        assert "" + TokenOf(rest) == TokenOf(rest);
      }
    }
  }

  lemma EmptyPicks(s: string)
    requires s == ""
    ensures Picked(s, TokenOf(s), CountsInToken, TokenFold, [])
  {
  }

  lemma TokenReads(j: Json, word: string)
    ensures NormalToken(j) == word <==> ReadsAs(j, word)
  {
    hide FieldText, Picked, CountsInToken, TokenFold, KeepTokenChars, Replace, Lower;
    var s := FieldText(j);
    TokenPicks(s);
    var at :| Picked(s, TokenOf(s), CountsInToken, TokenFold, at);
    if ReadsAs(j, word) {
      var to :| Picked(s, word, CountsInToken, TokenFold, to);
      PickedOnce(s, word, TokenOf(s), CountsInToken, TokenFold, to, at);
    }
  }

  /** The text of a field: empty for null, and otherwise without the white space around it. */
  lemma FieldTextExactly(j: Json)
    ensures j.Null? ==> FieldText(j) == ""
    ensures j.Str? || j.Num? ==> FieldText(j) == Strip(j.text)
    ensures j.Bool? ==> FieldText(j) == if j.b then "True" else "False"
  {
    assert Strip("True") == "True" && Strip("False") == "False";
  }

  /** The words for a bracket order, as an order type or as a role. */
  ghost predicate BracketWord(j: Json, role: string) {
    || (role == "take_profit" && (ReadsAs(j, "tp") || ReadsAs(j, "takeprofit") || ReadsAs(j, "take_profit")))
    || (role == "stop_loss" && (ReadsAs(j, "sl") || ReadsAs(j, "stoploss") || ReadsAs(j, "stop_loss")))
  }

  ghost predicate RoleWord(j: Json, role: string) {
    || BracketWord(j, role)
    || (role == "provider_manual"
        && (ReadsAs(j, "manual") || ReadsAs(j, "provider_manual") || ReadsAs(j, "external_manual")))
  }

  const ROLES: seq<string> := ["take_profit", "stop_loss", "provider_manual"]

  ghost predicate Wordless(j: Json) {
    !RoleWord(j, ROLES[0]) && !RoleWord(j, ROLES[1]) && !RoleWord(j, ROLES[2])
  }

  lemma RoleExactly(j: Json, role: string)
    ensures role != "" ==> (RoleOf(NormalToken(j)) == role <==> RoleWord(j, role))
    ensures RoleOf(NormalToken(j)) == "" <==> Wordless(j)
  {
    hide NormalToken, ReadsAs, RoleOf;
    RoleOfWords(NormalToken(j));
    forall word | word in {"tp", "takeprofit", "take_profit", "sl", "stoploss", "stop_loss", "manual",
                           "provider_manual", "external_manual"}
      ensures NormalToken(j) == word <==> ReadsAs(j, word) {
      TokenReads(j, word);
    }
  }

  lemma RoleOfWords(token: string)
    ensures RoleOf(token) == "take_profit" <==> token in {"tp", "takeprofit", "take_profit"}
    ensures RoleOf(token) == "stop_loss" <==> token in {"sl", "stoploss", "stop_loss"}
    ensures RoleOf(token) == "provider_manual" <==> token in {"manual", "provider_manual", "external_manual"}
    ensures RoleOf(token) in {"", "take_profit", "stop_loss", "provider_manual"}
    ensures |"take_profit"| == 11 && |"stop_loss"| == 9 && |"provider_manual"| == 15
  {
    WordsDiffer();
  }

  lemma WordsDiffer()
    ensures |"tp"| == 2 && |"takeprofit"| == 10 && |"take_profit"| == 11 && |"sl"| == 2 && |"stoploss"| == 8
    ensures |"stop_loss"| == 9 && |"manual"| == 6 && |"provider_manual"| == 15 && |"external_manual"| == 15
  {
  }

  ghost predicate Untyped(j: Json) {
    !BracketWord(j, ROLES[0]) && !BracketWord(j, ROLES[1])
  }

  const ROLE_FIELDS: seq<string> := ["closeSource", "actualSide", "orderRole", "triggerSource"]

  ghost predicate ReadsTrue(j: Json) {
    j == Bool(true) || ((j.Str? || j.Num?) && Spells(j.text, "true"))
  }

  /** The first of four fields that holds a word for a role names it; with none, the order type does; and
      a reducing order that is neither is by hand unless its client order id is of this program. */
  ghost predicate Labelled(item: Fields, role: string) {
    || (exists k :: 0 <= k < |ROLE_FIELDS| && RoleWord(Get(item, ROLE_FIELDS[k]), role)
                    && forall i | 0 <= i < k :: Wordless(Get(item, ROLE_FIELDS[i])))
    || ((forall i | 0 <= i < |ROLE_FIELDS| :: Wordless(Get(item, ROLE_FIELDS[i])))
        && (BracketWord(Get(item, "ordType"), role)
            || (role == "provider_manual" && Untyped(Get(item, "ordType")) && ReadsTrue(Get(item, "reduceOnly"))
                && !("ytm" <= FieldText(Get(item, "clOrdId"))))))
  }

  lemma {:induction false} NamedRoleExactly(item: Fields, keys: seq<string>, role: string)
    ensures role != "" ==>
      (NamedRole(item, keys) == role <==>
         exists k :: 0 <= k < |keys| && RoleWord(Get(item, keys[k]), role)
                     && forall i | 0 <= i < k :: Wordless(Get(item, keys[i])))
    ensures NamedRole(item, keys) == "" <==> forall i | 0 <= i < |keys| :: Wordless(Get(item, keys[i]))
  {
    hide RoleWord, Wordless, RoleOf, NormalToken, Get;
    if keys != [] {
      var rest := keys[1..];
      RoleExactly(Get(item, keys[0]), role);
      RoleExactly(Get(item, keys[0]), NamedRole(item, keys));
      NamedRoleExactly(item, rest, role);
      forall k | 0 <= k < |rest| ensures rest[k] == keys[k + 1] {
      }
    }
  }

  lemma TypeExactly(j: Json)
    ensures NormalToken(j) in {"takeprofit", "take_profit", "tp"} <==> BracketWord(j, "take_profit")
    ensures NormalToken(j) in {"stoploss", "stop_loss", "sl"} <==> BracketWord(j, "stop_loss")
  {
    hide NormalToken, ReadsAs;
    forall word | word in {"tp", "takeprofit", "take_profit", "sl", "stoploss", "stop_loss"}
      ensures NormalToken(j) == word <==> ReadsAs(j, word) {
      TokenReads(j, word);
    }
    WordsDiffer();
  }

  lemma NoBracketIsByHand(j: Json, role: string)
    ensures BracketWord(j, role) ==> role in {"take_profit", "stop_loss"}
    ensures BracketWord(j, role) ==> !Untyped(j)
  {
    hide ReadsAs;
  }

  lemma TrueExactly(j: Json)
    ensures Lower(FieldText(j)) == "true" <==> ReadsTrue(j)
  {
    NoTruth();
    FieldTextExactly(j);
    if j.Str? || j.Num? {
      LoweredSpells(j.text, "true");
    }
    hide Strip, Lower, Spells;
  }

  lemma NoTruth()
    ensures Lower("True") == "true" && |Lower("False")| == 5 && |Lower(Strip("[]"))| <= 2 && |Lower(Strip("{}"))| <= 2
    ensures |Lower("")| == 0
  {
  }

  /** The label of an item is exactly the one its fields call for. */
  lemma InferExactly(item: Fields, role: string)
    ensures role != "" ==> (Infer(item) == role <==> Labelled(item, role))
  {
    var named := NamedRole(item, ROLE_FIELDS);
    NamedRoleExactly(item, ROLE_FIELDS, role);
    TypeExactly(Get(item, "ordType"));
    TrueExactly(Get(item, "reduceOnly"));
    NoBracketIsByHand(Get(item, "ordType"), role);
    hide NamedRole, NormalToken, RoleWord, BracketWord, Wordless, ReadsTrue, FieldText, Lower, Get;
  }

  // ----- the index ------------------------------------------------------------------------

  const INDEXED: seq<string> := ["ordId", "algoId", "clOrdId", "algoClOrdId"]
  const REFERENCES: seq<string> := ["ordId", "clOrdId", "algoId", "algoClOrdId"]

  /** One of the first `n` indexed fields of the item holds the value. */
  predicate Mentions(item: Fields, value: string, n: nat)
    requires n <= |INDEXED|
  {
    value != "" && exists k | 0 <= k < n :: FieldText(Get(item, INDEXED[k])) == value
  }

  predicate Labels(item: Fields, value: string) {
    Infer(item) != "" && Mentions(item, value, |INDEXED|)
  }

  /** A plain scan: the role of the last item that has one and mentions the value. */
  function LastLabel(items: seq<Fields>, value: string): Option<string> {
    if items == [] then None
    else if Labels(items[|items| - 1], value) then Some(Infer(items[|items| - 1]))
    else LastLabel(items[..|items| - 1], value)
  }

  /** The index says what the plain scan says. */
  ghost predicate Indexes(sources: map<string, string>, items: seq<Fields>) {
    forall value ::
      && (value in sources <==> LastLabel(items, value).Some?)
      && (value in sources ==> LastLabel(items, value) == Some(sources[value]))
  }

  /** `_close_sources_by_order_ref`: later items overwrite earlier ones. */
  method CloseSourcesByOrderRef(items: seq<Fields>) returns (sources: map<string, string>)
    ensures Indexes(sources, items)
  {
    hide Infer, FieldText;
    sources := map[];
    for i := 0 to |items|
      invariant Indexes(sources, items[..i])
    {
      var source := Infer(items[i]);
      ghost var before := sources;
      assert items[..i + 1][..i] == items[..i];
      if source != "" {
        for k := 0 to |INDEXED|
          invariant forall value :: value in sources <==> value in before || Mentions(items[i], value, k)
          invariant forall value | value in sources ::
            sources[value] == if Mentions(items[i], value, k) then source else before[value]
        {
          var value := FieldText(Get(items[i], INDEXED[k]));
          hide Indexes;
          MentionsNext(items[i], k);
          if value != "" {
            sources := sources[value := source];
          }
        }
      }
      IndexGrows(before, sources, items[..i + 1]);
    }
    assert items[..|items|] == items;
  }

  lemma MentionsNext(item: Fields, k: nat)
    requires k < |INDEXED|
    ensures forall value :: Mentions(item, value, k + 1) <==>
              Mentions(item, value, k) || (value != "" && value == FieldText(Get(item, INDEXED[k])))
  {
    hide FieldText;
    var here := FieldText(Get(item, INDEXED[k]));
    assert here != "" ==> Mentions(item, here, k + 1);
    forall value | Mentions(item, value, k) ensures Mentions(item, value, k + 1) {
      var j :| 0 <= j < k && FieldText(Get(item, INDEXED[j])) == value;
      assert 0 <= j < k + 1;
    }
  }

  /** Adding what the last item labels keeps the index right. */
  lemma IndexGrows(before: map<string, string>, after: map<string, string>, items: seq<Fields>)
    requires items != [] && Indexes(before, items[..|items| - 1])
    requires var item := items[|items| - 1];
             if Infer(item) == "" then after == before
             else (forall value :: value in after <==> value in before || Mentions(item, value, |INDEXED|))
                  && (forall value | value in after ::
                        after[value] == if Mentions(item, value, |INDEXED|) then Infer(item) else before[value])
    ensures Indexes(after, items)
  {
    hide Infer, Mentions;
  }

  // ----- labelling a fill -----------------------------------------------------------------

  /** The role found for the first reference, from field `k` on, that has one. */
  function FirstReference(item: Fields, items: seq<Fields>, k: nat): string
    requires k <= |REFERENCES|
    decreases |REFERENCES| - k
  {
    if k == |REFERENCES| then ""
    else
      var role := LastLabel(items, FieldText(Get(item, REFERENCES[k])));
      if role.Some? then role.value else FirstReference(item, items, k + 1)
  }

  /** The fill's own role, otherwise that of its first reference that resolves. */
  function FillLabel(item: Fields, items: seq<Fields>): string {
    if Infer(item) != "" then Infer(item) else FirstReference(item, items, 0)
  }

  /** A value is mentioned under one of four names. */
  lemma MentionsExactly(item: Fields, value: string)
    ensures Mentions(item, value, |INDEXED|) <==>
      && value != ""
      && (FieldText(Get(item, "ordId")) == value || FieldText(Get(item, "algoId")) == value
          || FieldText(Get(item, "clOrdId")) == value || FieldText(Get(item, "algoClOrdId")) == value)
  {
    hide FieldText;
    var names := ["ordId", "algoId", "clOrdId", "algoClOrdId"];
    forall k | 0 <= k < 4 && value != "" && FieldText(Get(item, names[k])) == value
      ensures Mentions(item, value, |INDEXED|) {
      assert INDEXED[k] == names[k];
    }
    if Mentions(item, value, |INDEXED|) {
      var k :| 0 <= k < 4 && FieldText(Get(item, INDEXED[k])) == value;
      assert INDEXED[k] == names[k];
    }
    assert names[0] == "ordId" && names[1] == "algoId" && names[2] == "clOrdId" && names[3] == "algoClOrdId";
  }

  /** The four references of a fill, in the order in which they are looked up. */
  function References(item: Fields): seq<string> {
    [FieldText(Get(item, "ordId")), FieldText(Get(item, "clOrdId")),
     FieldText(Get(item, "algoId")), FieldText(Get(item, "algoClOrdId"))]
  }

  /** Without a label of its own a fill has that of the first reference that some item labels. */
  lemma FillLabelExactly(item: Fields, items: seq<Fields>)
    ensures Infer(item) != "" ==> FillLabel(item, items) == Infer(item)
    ensures forall k | Infer(item) == "" && 0 <= k < 4 && LastLabel(items, References(item)[k]).Some?
                       && forall j | 0 <= j < k :: LastLabel(items, References(item)[j]).None? ::
              FillLabel(item, items) == LastLabel(items, References(item)[k]).value
    ensures Infer(item) == "" && (forall k | 0 <= k < 4 :: LastLabel(items, References(item)[k]).None?) ==>
              FillLabel(item, items) == ""
  {
    hide Infer, FieldText, LastLabel, Get;
    var refs := References(item);
    assert FirstReference(item, items, 4) == "";
    assert FirstReference(item, items, 3)
        == if LastLabel(items, refs[3]).Some? then LastLabel(items, refs[3]).value else "";
    assert FirstReference(item, items, 2)
        == if LastLabel(items, refs[2]).Some? then LastLabel(items, refs[2]).value else FirstReference(item, items, 3);
    assert FirstReference(item, items, 1)
        == if LastLabel(items, refs[1]).Some? then LastLabel(items, refs[1]).value else FirstReference(item, items, 2);
    assert FirstReference(item, items, 0)
        == if LastLabel(items, refs[0]).Some? then LastLabel(items, refs[0]).value else FirstReference(item, items, 1);
  }

  /** `_fill_close_source`: looking the references up in the index agrees with the plain scan. */
  method FillCloseSource(item: Fields, sources: map<string, string>, ghost items: seq<Fields>) returns (role: string)
    requires Indexes(sources, items)
    ensures role == FillLabel(item, items)
  {
    hide Infer, FieldText, LastLabel;
    role := Infer(item);
    if role != "" {
      return;
    }
    for k := 0 to |REFERENCES|
      invariant FirstReference(item, items, 0) == FirstReference(item, items, k)
    {
      var value := FieldText(Get(item, REFERENCES[k]));
      if value in sources {
        return sources[value];
      }
    }
    role := "";
  }

  /** Every role the scan gives is some item's own, no later item has another, and with none the
      value is mentioned by no labelled item. */
  lemma {:induction false} LastLabelIsLast(items: seq<Fields>, value: string, role: string)
    ensures LastLabel(items, value) == Some(role) <==>
      exists i ::
        && 0 <= i < |items| && Labels(items[i], value) && Infer(items[i]) == role
        && (forall j | i < j < |items| :: !Labels(items[j], value))
    ensures LastLabel(items, value).None? <==> forall i | 0 <= i < |items| :: !Labels(items[i], value)
  {
    hide Labels, Infer;
    if items != [] {
      var n := |items| - 1;
      LastLabelIsLast(items[..n], value, role);
      assert forall i | 0 <= i < n :: items[..n][i] == items[i];
      if !Labels(items[n], value) {
        if LastLabel(items, value) == Some(role) {
          var i :| 0 <= i < |items[..n]| && Labels(items[..n][i], value) && Infer(items[..n][i]) == role
                   && (forall j | i < j < |items[..n]| :: !Labels(items[..n][j], value));
          assert Labels(items[i], value) && Infer(items[i]) == role;
          assert forall j | i < j < |items| :: !Labels(items[j], value);
        }
      }
    }
  }

  // ----- the emitted fills ----------------------------------------------------------------

  /** `_compact`: empty values are dropped. */
  function Compact(row: map<string, string>): map<string, string> {
    map key | key in row && row[key] != "" :: row[key]
  }

  /** `a or b`, as text. */
  function EitherText(item: Fields, a: string, b: string): string {
    if Truthy(Get(item, a)) then FieldText(Get(item, a)) else FieldText(Get(item, b))
  }

  /** `_plain_swap_symbol`: "BTC-USDT-SWAP" is called "BTCUSDT". */
  function PlainSymbol(instId: string): string {
    PlainName(InstrumentId(instId))
  }

  function PlainName(id: string): string {
    if !EndsWith(id, "-SWAP") then id
    else
      var pair := id[..|id| - 5];
      var dash := FirstDash(pair);
      if 0 < dash < |pair| - 1 && '-' !in pair[dash + 1..] then pair[..dash] + pair[dash + 1..] else id
  }

  function FirstDash(s: string): (r: nat)
    ensures r <= |s| && '-' !in s[..r]
    ensures r < |s| ==> s[r] == '-'
  {
    if s == "" || s[0] == '-' then 0
    else
      var r := FirstDash(s[1..]);
      assert s[..r + 1] == [s[0]] + s[1..][..r];
      r + 1
  }

  /** The row emitted for a fill. */
  function FillRow(item: Fields, source: string): map<string, string> {
    Compact(FillCells(item, source))
  }

  function FillCells(item: Fields, source: string): map<string, string> {
    map[
      "actualSide" := FieldText(Get(item, "actualSide")),
      "clientOrderId" := FieldText(Get(item, "clOrdId")),
      "closeSource" := source,
      "execType" := FieldText(Get(item, "execType")),
      "feeAmount" := FieldText(Get(item, "fee")),
      "feeCurrency" := FieldText(Get(item, "feeCcy")),
      "fillId" := EitherText(item, "billId", "tradeId"),
      "fillPrice" := FieldText(Get(item, "fillPx")),
      "fillQuantity" := FieldText(Get(item, "fillSz")),
      "fillTime" := EitherText(item, "fillTime", "ts"),
      "instrumentId" := FieldText(Get(item, "instId")),
      "orderType" := FieldText(Get(item, "ordType")),
      "positionSide" := FieldText(Get(item, "posSide")),
      "providerOrderId" := FieldText(Get(item, "ordId")),
      "realizedPnl" := if Truthy(Get(item, "fillPnl")) then FieldText(Get(item, "fillPnl"))
                       else EitherText(item, "pnl", "realizedPnl"),
      "side" := FieldText(Get(item, "side")),
      "symbol" := PlainSymbol(FieldText(Get(item, "instId")))]
  }

  type Row = map<string, string>

  function Cell(row: Row, key: string): string {
    if key in row then row[key] else ""
  }

  /** Cells of a row, each with the field of the fill it repeats. */
  const REPEATED: seq<(string, string)> := [
    ("actualSide", "actualSide"), ("clientOrderId", "clOrdId"), ("execType", "execType"), ("feeAmount", "fee"),
    ("feeCurrency", "feeCcy"), ("fillPrice", "fillPx"), ("fillQuantity", "fillSz"), ("instrumentId", "instId"),
    ("orderType", "ordType"), ("positionSide", "posSide"), ("providerOrderId", "ordId"), ("side", "side")]

  lemma NamesDiffer()
    ensures |"actualSide"| == 10 && |"clientOrderId"| == 13 && |"closeSource"| == 11 && "closeSource"[0] == 'c'
    ensures |"execType"| == 8 && "execType"[0] == 'e' && |"feeAmount"| == 9 && "feeAmount"[1] == 'e'
    ensures |"feeCurrency"| == 11 && "feeCurrency"[0] == 'f' && |"fillId"| == 6 && "fillId"[0] == 'f'
    ensures |"fillPrice"| == 9 && "fillPrice"[1] == 'i' && |"fillQuantity"| == 12 && "fillQuantity"[0] == 'f'
    ensures |"fillTime"| == 8 && "fillTime"[0] == 'f' && |"instrumentId"| == 12 && "instrumentId"[0] == 'i'
    ensures |"orderType"| == 9 && "orderType"[1] == 'r' && |"positionSide"| == 12 && "positionSide"[0] == 'p'
    ensures |"providerOrderId"| == 15 && |"realizedPnl"| == 11 && "realizedPnl"[0] == 'r'
    ensures |"side"| == 4 && |"symbol"| == 6 && "symbol"[0] == 's'
  {
  }

  lemma IdentityCells(item: Fields, source: string)
    ensures var cells := FillCells(item, source);
            && "actualSide" in cells && cells["actualSide"] == FieldText(Get(item, "actualSide"))
            && "clientOrderId" in cells && cells["clientOrderId"] == FieldText(Get(item, "clOrdId"))
            && "execType" in cells && cells["execType"] == FieldText(Get(item, "execType"))
            && "providerOrderId" in cells && cells["providerOrderId"] == FieldText(Get(item, "ordId"))
  {
    hide FieldText, EitherText, PlainSymbol, Truthy, Get;
    NamesDiffer();
  }

  lemma AmountCells(item: Fields, source: string)
    ensures var cells := FillCells(item, source);
            && "feeAmount" in cells && cells["feeAmount"] == FieldText(Get(item, "fee"))
            && "feeCurrency" in cells && cells["feeCurrency"] == FieldText(Get(item, "feeCcy"))
            && "fillPrice" in cells && cells["fillPrice"] == FieldText(Get(item, "fillPx"))
            && "fillQuantity" in cells && cells["fillQuantity"] == FieldText(Get(item, "fillSz"))
  {
    hide FieldText, EitherText, PlainSymbol, Truthy, Get;
    NamesDiffer();
  }

  lemma OrderCells(item: Fields, source: string)
    ensures var cells := FillCells(item, source);
            && "instrumentId" in cells && cells["instrumentId"] == FieldText(Get(item, "instId"))
            && "orderType" in cells && cells["orderType"] == FieldText(Get(item, "ordType"))
            && "positionSide" in cells && cells["positionSide"] == FieldText(Get(item, "posSide"))
            && "side" in cells && cells["side"] == FieldText(Get(item, "side"))
  {
    hide FieldText, EitherText, PlainSymbol, Truthy, Get;
    NamesDiffer();
  }

  lemma ChosenCells(item: Fields, source: string)
    ensures var cells := FillCells(item, source);
            && "closeSource" in cells && cells["closeSource"] == source
            && "fillId" in cells && cells["fillId"] == EitherText(item, "billId", "tradeId")
            && "fillTime" in cells && cells["fillTime"] == EitherText(item, "fillTime", "ts")
            && "symbol" in cells && cells["symbol"] == PlainSymbol(FieldText(Get(item, "instId")))
            && "realizedPnl" in cells
            && cells["realizedPnl"] == (if Truthy(Get(item, "fillPnl")) then FieldText(Get(item, "fillPnl"))
                                        else EitherText(item, "pnl", "realizedPnl"))
  {
    hide FieldText, EitherText, PlainSymbol, Truthy, Get;
    NamesDiffer();
  }

  lemma CompactKeeps(cells: map<string, string>, key: string)
    requires key in cells
    ensures Cell(Compact(cells), key) == cells[key]
  {
  }

  /** Field `i` is the first that is neither absent nor empty nor zero, or it is the last. */
  predicate Chosen(item: Fields, names: seq<string>, i: int) {
    && 0 <= i < |names| && (i < |names| - 1 ==> Truthy(Get(item, names[i])))
    && forall j | 0 <= j < i :: !Truthy(Get(item, names[j]))
  }

  lemma EitherChosen(item: Fields, a: string, b: string, i: int)
    requires Chosen(item, [a, b], i)
    ensures EitherText(item, a, b) == FieldText(Get(item, [a, b][i]))
  {
    hide FieldText, Truthy, Get;
    var names := [a, b];
    assert names[0] == a && names[1] == b;
  }

  lemma ProfitChosen(item: Fields, a: string, b: string, c: string, i: int)
    requires Chosen(item, [a, b, c], i)
    ensures (if Truthy(Get(item, a)) then FieldText(Get(item, a)) else EitherText(item, b, c))
         == FieldText(Get(item, [a, b, c][i]))
  {
    hide FieldText, Truthy, Get;
    var names := [a, b, c];
    assert names[0] == a && names[1] == b && names[2] == c;
  }

  lemma CellKept(item: Fields, source: string, key: string)
    requires key in FillCells(item, source)
    ensures Cell(FillRow(item, source), key) == FillCells(item, source)[key]
  {
    hide FillCells;
    CompactKeeps(FillCells(item, source), key);
  }

  /** Three cells repeat the first of several fields that says anything. */
  lemma ChosenExactly(item: Fields, source: string, i: int)
    ensures Chosen(item, ["billId", "tradeId"], i) ==>
      Cell(FillRow(item, source), "fillId") == FieldText(Get(item, ["billId", "tradeId"][i]))
    ensures Chosen(item, ["fillTime", "ts"], i) ==>
      Cell(FillRow(item, source), "fillTime") == FieldText(Get(item, ["fillTime", "ts"][i]))
    ensures Chosen(item, ["fillPnl", "pnl", "realizedPnl"], i) ==>
      Cell(FillRow(item, source), "realizedPnl") == FieldText(Get(item, ["fillPnl", "pnl", "realizedPnl"][i]))
  {
    ChosenCells(item, source);
    if Chosen(item, ["billId", "tradeId"], i) {
      EitherChosen(item, "billId", "tradeId", i);
    }
    if Chosen(item, ["fillTime", "ts"], i) {
      EitherChosen(item, "fillTime", "ts", i);
    }
    if Chosen(item, ["fillPnl", "pnl", "realizedPnl"], i) {
      ProfitChosen(item, "fillPnl", "pnl", "realizedPnl", i);
    }
    hide FieldText, EitherText, PlainSymbol, Truthy, Get, FillCells, FillRow, Cell, Chosen;
    CellKept(item, source, "fillId");
    CellKept(item, source, "fillTime");
    CellKept(item, source, "realizedPnl");
  }

  /** Every other cell of a row says what the fill says under its own name; and no cell is empty. */
  lemma FillRowExactly(item: Fields, source: string)
    ensures forall c | c in REPEATED :: Cell(FillRow(item, source), c.0) == FieldText(Get(item, c.1))
    ensures var row := FillRow(item, source);
            && Cell(row, "closeSource") == source
            && Cell(row, "symbol") == PlainSymbol(FieldText(Get(item, "instId")))
            && forall key | key in row :: row[key] != ""
  {
    IdentityCells(item, source);
    AmountCells(item, source);
    OrderCells(item, source);
    ChosenCells(item, source);
    hide FieldText, EitherText, PlainSymbol, Truthy, Get, FillCells, Cell;
    var cells := FillCells(item, source);
    forall key | key in cells ensures Cell(FillRow(item, source), key) == cells[key] {
      CompactKeeps(cells, key);
    }
  }

  datatype SortKey = SortKey(time: string, order: string, fill: string)

  function KeyOfRow(row: Row): SortKey {
    SortKey(Cell(row, "fillTime"), Cell(row, "providerOrderId"), Cell(row, "fillId"))
  }

  /** Strings compare by their characters, a prefix before what it begins. */
  predicate TextLeq(a: string, b: string) {
    if a == "" then true
    else if b == "" then false
    else if a[0] != b[0] then a[0] < b[0]
    else TextLeq(a[1..], b[1..])
  }

  /** A text is at most another when it begins it, or has the smaller character where they first
      differ. */
  lemma {:induction false} TextLeqExactly(a: string, b: string)
    ensures TextLeq(a, b) <==>
      a <= b || exists k :: 0 <= k < |a| && k < |b| && a[..k] == b[..k] && a[k] < b[k]
  {
    if a != "" && b != "" && a[0] == b[0] {
      var x, y := a[1..], b[1..];
      TextLeqExactly(x, y);
      assert a == [a[0]] + x && b == [b[0]] + y;
      forall k | 0 <= k < |x| && k < |y| ensures a[k + 1] == x[k] && b[k + 1] == y[k]
                                         ensures x[..k] == y[..k] <==> a[..k + 1] == b[..k + 1] {
        assert a[..k + 1] == [a[0]] + x[..k] && b[..k + 1] == [b[0]] + y[..k];
        assert a[..k + 1][1..] == x[..k] && b[..k + 1][1..] == y[..k];
      }
      if k :| 0 <= k < |a| && k < |b| && a[..k] == b[..k] && a[k] < b[k] {
        assert x[..k - 1] == y[..k - 1] && x[k - 1] < y[k - 1];
      }
      if k :| 0 <= k < |x| && k < |y| && x[..k] == y[..k] && x[k] < y[k] {
        assert a[..k + 1] == b[..k + 1] && a[k + 1] < b[k + 1];
      }
    } else if a != "" && b != "" && a[0] < b[0] {
      assert a[..0] == b[..0];
    } else if a != "" && b != "" {
      forall k | 0 <= k < |a| && k < |b| ensures a[..k] == b[..k] ==> !(a[k] < b[k]) {
        if k > 0 {
          assert a[..k][0] == a[0] && b[..k][0] == b[0];
        }
      }
    }
  }

  predicate Leq(a: SortKey, b: SortKey) {
    if a.time != b.time then TextLeq(a.time, b.time)
    else if a.order != b.order then TextLeq(a.order, b.order)
    else TextLeq(a.fill, b.fill)
  }

  lemma {:induction false} TextOrder(a: string, b: string, c: string)
    ensures TextLeq(a, a)
    ensures TextLeq(a, b) || TextLeq(b, a)
    ensures TextLeq(a, b) && TextLeq(b, a) ==> a == b
    ensures TextLeq(a, b) && TextLeq(b, c) ==> TextLeq(a, c)
  {
    if a != "" {
      TextOrder(a[1..], if b == "" then "" else b[1..], if c == "" then "" else c[1..]);
      assert a == [a[0]] + a[1..];
      assert b != "" ==> b == [b[0]] + b[1..];
    }
  }

  lemma KeyOrder(a: SortKey, b: SortKey, c: SortKey)
    ensures Leq(a, a)
    ensures Leq(a, b) || Leq(b, a)
    ensures Leq(a, b) && Leq(b, a) ==> a == b
    ensures Leq(a, b) && Leq(b, c) ==> Leq(a, c)
  {
    TextOrder(a.time, b.time, c.time);
    TextOrder(a.order, b.order, c.order);
    TextOrder(a.fill, b.fill, c.fill);
    TextOrder(b.time, c.time, a.time);
    TextOrder(b.order, c.order, a.order);
    hide TextLeq;
  }

  /** The first text is a proper beginning of the second, or has the smaller character where they first
      differ. */
  predicate Smaller(a: string, b: string) {
    a < b || exists k :: 0 <= k < |a| && k < |b| && a[..k] == b[..k] && a[k] < b[k]
  }

  lemma SmallerExactly(a: string, b: string)
    ensures a != b ==> (TextLeq(a, b) <==> Smaller(a, b))
    ensures !Smaller(a, a)
  {
    TextLeqExactly(a, b);
    hide TextLeq;
  }

  /** Rows are ordered by fill time, then by order id, then by fill id. */
  lemma RowOrderExactly(a: Row, b: Row)
    ensures Leq(KeyOfRow(a), KeyOfRow(b)) <==>
      var t, u := Cell(a, "fillTime"), Cell(b, "fillTime");
      var o, p := Cell(a, "providerOrderId"), Cell(b, "providerOrderId");
      var f, g := Cell(a, "fillId"), Cell(b, "fillId");
      Smaller(t, u) || (t == u && (Smaller(o, p) || (o == p && (Smaller(f, g) || f == g))))
  {
    SmallerExactly(Cell(a, "fillTime"), Cell(b, "fillTime"));
    SmallerExactly(Cell(a, "providerOrderId"), Cell(b, "providerOrderId"));
    SmallerExactly(Cell(a, "fillId"), Cell(b, "fillId"));
    TextOrder(Cell(a, "fillId"), Cell(a, "fillId"), Cell(a, "fillId"));
    hide Smaller, TextLeq, Cell;
  }

  /** Into its place, after every row with the same key. */
  function Insert(rows: seq<Row>, row: Row): seq<Row> {
    if rows == [] || Leq(KeyOfRow(rows[|rows| - 1]), KeyOfRow(row)) then rows + [row]
    else Insert(rows[..|rows| - 1], row) + [rows[|rows| - 1]]
  }

  /** The stable sort of `list.sort`. */
  function Sorted(rows: seq<Row>): seq<Row> {
    if rows == [] then [] else Insert(Sorted(rows[..|rows| - 1]), rows[|rows| - 1])
  }

  predicate Ascending(rows: seq<Row>) {
    forall i, j | 0 <= i < j < |rows| :: Leq(KeyOfRow(rows[i]), KeyOfRow(rows[j]))
  }

  /** The rows with this key, in the order they come. */
  function WithKey(rows: seq<Row>, key: SortKey): seq<Row> {
    if rows == [] then []
    else
      var last := rows[|rows| - 1];
      WithKey(rows[..|rows| - 1], key) + if KeyOfRow(last) == key then [last] else []
  }

  lemma WithKeyLast(rows: seq<Row>, row: Row, key: SortKey)
    ensures WithKey(rows + [row], key) == WithKey(rows, key) + if KeyOfRow(row) == key then [row] else []
  {
    hide KeyOfRow;
    assert (rows + [row])[..|rows|] == rows;
  }

  lemma AppendAscends(front: seq<Row>, last: Row, row: Row)
    requires Ascending(front + [last]) && Leq(KeyOfRow(last), KeyOfRow(row))
    ensures Ascending(front + [last] + [row])
  {
    hide KeyOfRow, Leq;
    var rows := front + [last];
    forall i | 0 <= i < |rows| ensures Leq(KeyOfRow(rows[i]), KeyOfRow(row)) {
      KeyOrder(KeyOfRow(rows[i]), KeyOfRow(last), KeyOfRow(row));
      KeyOrder(KeyOfRow(last), KeyOfRow(last), KeyOfRow(last));
      assert i < |front| ==> Leq(KeyOfRow(rows[i]), KeyOfRow(rows[|front|]));
    }
  }

  lemma LastAscends(rows: seq<Row>, last: Row)
    requires Ascending(rows) && forall r | r in rows :: Leq(KeyOfRow(r), KeyOfRow(last))
    ensures Ascending(rows + [last])
  {
    hide KeyOfRow, Leq;
  }

  /** A row sinks past rows with greater keys only: none with its own key is overtaken. */
  lemma {:induction false} InsertKeeps(rows: seq<Row>, row: Row, key: SortKey)
    requires Ascending(rows)
    ensures Ascending(Insert(rows, row))
    ensures multiset(Insert(rows, row)) == multiset(rows) + multiset{row}
    ensures WithKey(Insert(rows, row), key) == WithKey(rows + [row], key)
  {
    hide KeyOfRow, Leq, WithKey;
    if rows != [] {
      var front, last := rows[..|rows| - 1], rows[|rows| - 1];
      assert rows == front + [last];
      KeyOrder(KeyOfRow(last), KeyOfRow(row), KeyOfRow(last));
      if Leq(KeyOfRow(last), KeyOfRow(row)) {
        AppendAscends(front, last, row);
      } else {
        InsertKeeps(front, row, key);
        InsertUnder(front, row, last, key);
      }
    }
  }

  lemma InsertUnder(front: seq<Row>, row: Row, last: Row, key: SortKey)
    requires Ascending(front + [last]) && !Leq(KeyOfRow(last), KeyOfRow(row)) && Leq(KeyOfRow(row), KeyOfRow(last))
    requires Ascending(Insert(front, row))
    requires multiset(Insert(front, row)) == multiset(front) + multiset{row}
    requires WithKey(Insert(front, row), key) == WithKey(front + [row], key)
    ensures Ascending(Insert(front, row) + [last])
    ensures WithKey(Insert(front, row) + [last], key) == WithKey(front + [last] + [row], key)
  {
    hide KeyOfRow, Leq, WithKey, Insert, Ascending;
    InsertBounded(front, row, last);
    LastAscends(Insert(front, row), last);
    WithKeyLast(Insert(front, row), last, key);
    WithKeyLast(front, row, key);
    WithKeyLast(front, last, key);
    WithKeyLast(front + [last], row, key);
    KeyOrder(KeyOfRow(row), KeyOfRow(row), KeyOfRow(row));
  }

  lemma InsertBounded(front: seq<Row>, row: Row, last: Row)
    requires Ascending(front + [last]) && Leq(KeyOfRow(row), KeyOfRow(last))
    requires multiset(Insert(front, row)) == multiset(front) + multiset{row}
    ensures forall r | r in Insert(front, row) :: Leq(KeyOfRow(r), KeyOfRow(last))
  {
    hide KeyOfRow, Leq, Insert;
    forall r | r in Insert(front, row) ensures Leq(KeyOfRow(r), KeyOfRow(last)) {
      assert r in multiset(Insert(front, row));
      if r != row {
        var i :| 0 <= i < |front| && front[i] == r;
        assert (front + [last])[i] == r && (front + [last])[|front|] == last;
      }
    }
  }

  /** The emitted fills are in order, they are the mapped inputs, and rows with equal keys keep the
      order they came in. */
  lemma {:induction false} SortedIsStable(rows: seq<Row>, key: SortKey)
    ensures Ascending(Sorted(rows))
    ensures multiset(Sorted(rows)) == multiset(rows)
    ensures WithKey(Sorted(rows), key) == WithKey(rows, key)
  {
    hide KeyOfRow, Ascending, WithKey, Insert;
    if rows == [] {
      NothingAscends();
    } else {
      var front, last := rows[..|rows| - 1], rows[|rows| - 1];
      assert rows == front + [last];
      SortedIsStable(front, key);
      InsertKeeps(Sorted(front), last, key);
      WithKeyLast(Sorted(front), last, key);
      WithKeyLast(front, last, key);
    }
  }

  lemma NothingAscends()
    ensures Ascending([])
  {
  }

  /** The rows of the fills, labelled by the plain scan. */
  function FillRows(fills: seq<Fields>, items: seq<Fields>): seq<Row> {
    seq(|fills|, i requires 0 <= i < |fills| => FillRow(fills[i], FillLabel(fills[i], items)))
  }

  /** `_sanitize_fills`, over the index of the orders, their history and the algo orders. */
  method SanitizeFills(fills: seq<Fields>, orders: seq<Fields>, history: seq<Fields>, algos: seq<Fields>)
    returns (rows: seq<Row>)
    ensures rows == Sorted(FillRows(fills, orders + history + algos))
  {
    hide FillRow, Sorted, FillLabel;
    ghost var items := orders + history + algos;
    var sources := CloseSourcesByOrderRef(orders + history + algos);
    rows := [];
    for i := 0 to |fills|
      invariant rows == FillRows(fills, items)[..i]
    {
      var source := FillCloseSource(fills[i], sources, items);
      rows := rows + [FillRow(fills[i], source)];
    }
    assert FillRows(fills, items)[..|fills|] == FillRows(fills, items);
    rows := Sorted(rows);
  }

  // ----- names ----------------------------------------------------------------------------

  /** The plain symbol undoes the instrument name of a USDT pair. */
  lemma PlainSymbolRoundTrip(symbol: string)
    requires var s := Upper(Strip(symbol)); '-' !in s && EndsWith(s, "USDT") && |s| > 4
    ensures PlainSymbol(InstrumentId(symbol)) == Upper(Strip(symbol))
  {
    var s := Upper(Strip(symbol));
    var base := s[..|s| - 4];
    assert InstrumentId(symbol) == base + "-USDT-SWAP";
    OkxReplies.InstrumentIdNormal(symbol);
    hide InstrumentId, PlainName, Strip, Upper;
    assert s == base + "USDT";
    PlainNameOf(base);
  }

  lemma PlainNameOf(base: string)
    requires base != "" && '-' !in base
    ensures PlainName(base + "-USDT-SWAP") == base + "USDT"
  {
    var id := base + "-USDT-SWAP";
    var pair := base + "-USDT";
    assert id == pair + "-SWAP";
    assert id[..|id| - 5] == pair && id[|id| - 5..] == "-SWAP";
    assert pair[|base|] == '-' && '-' in pair;
    assert forall i | 0 <= i < |base| :: pair[i] == base[i];
    assert pair[|base| + 1..] == "USDT" && pair[..|base|] == base;
    hide FirstDash;
    FirstDashIs(pair, |base|);
  }

  lemma FirstDashIs(s: string, k: nat)
    requires k < |s| && s[k] == '-' && '-' !in s[..k]
    ensures FirstDash(s) == k
  {
    var r := FirstDash(s);
    assert forall i | 0 <= i < k :: s[..k][i] == s[i];
    assert forall i | 0 <= i < r :: s[..r][i] == s[i];
  }
}
