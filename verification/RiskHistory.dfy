/** The risk-state file is an incremental summary of the equity snapshots seen so far. */
module RiskHistory {
  import opened Wrappers
  import opened JsonValues
  import opened Decimals
  import opened DecimalText
  import opened Texts
  import opened Risk

  // ----- the equity in one snapshot -------------------------------------------------------

  /** The equity a balance entry contributes, if any. */
  function Candidate(item: Json): Try<Option<Dec>> {
    if !item.Obj? then Ok(None)
    else if Upper(PyStrOrEmpty(Get(item.fields, "currency"))) !in {"USDT", "USD"} then Ok(None)
    else
      var direct := Get(item.fields, "usdEquity");
      var value := if Truthy(direct) then direct else Get(item.fields, "equity");
      if value.Null? || value == Str("") then Ok(None)
      else if !value.Str? && !value.Num? then ValueError(NotNumeric)
      else match ReadDecimal(value.text)
        case None => ValueError(NotNumeric)
        case Some(d) => if d.coeff < 0 then ValueError(NotPositive) else Ok(Some(d))
  }

  /** `_snapshot_usd_equity`: the largest USD figure among the balances. */
  method SnapshotUsdEquity(snapshot: Fields) returns (r: Try<Option<Dec>>)
    ensures !Get(snapshot, "balances").Arr? ==> r == Ok(None)
    ensures Get(snapshot, "balances").Arr? ==>
      var items := Get(snapshot, "balances").items;
      && (r.ValueError? <==> exists item | item in items :: Candidate(item).ValueError?)
      && !r.Crash?
      && (r == Ok(None) ==> forall item | item in items :: Candidate(item) == Ok(None))
      && (r.Ok? && r.value.Some? ==>
            && (exists item | item in items :: Candidate(item) == r)
            && (forall item | item in items && Candidate(item).value.Some? ::
                  Value(Candidate(item).value.value) <= Value(r.value.value)))
  {
    hide Candidate, Value;
    if !Get(snapshot, "balances").Arr? {
      return Ok(None);
    }
    var items := Get(snapshot, "balances").items;
    var best: Option<Dec> := None;
    for i := 0 to |items|
      invariant forall j | 0 <= j < i :: Candidate(items[j]).Ok?
      invariant best.None? ==> forall j | 0 <= j < i :: Candidate(items[j]) == Ok(None)
      invariant best.Some? ==> exists j | 0 <= j < i :: Candidate(items[j]) == Ok(best)
      invariant best.Some? ==> forall j | 0 <= j < i && Candidate(items[j]).value.Some? ::
        Value(Candidate(items[j]).value.value) <= Value(best.value)
    {
      var candidate := Candidate(items[i]);
      if !candidate.Ok? {
        CandidateNeverCrashes(items[i]);
        assert items[i] in items;
        return ValueError(candidate.reason);
      }
      if candidate.value.Some? && (best.None? || Value(candidate.value.value) > Value(best.value)) {
        best := candidate.value;
      }
    }
    r := Ok(best);
  }

  lemma CandidateNeverCrashes(item: Json)
    ensures !Candidate(item).Crash?
  {
  }

  /** The value counts as nothing, so that the next one is asked: it is absent, false, empty, or a number
      that is zero. */
  predicate CountsAsNothing(j: Json) {
    || j in {Null, Bool(false), Str(""), Arr([]), Obj(map[])}
    || (j.Num? && ReadDecimal(j.text).Some? && ReadDecimal(j.text).value.coeff == 0)
  }

  /** The value spells the currency in letters of either case. */
  predicate Currency(j: Json, name: string) {
    && (j.Str? || j.Num?) && !CountsAsNothing(j) && |j.text| == |name|
    && forall k | 0 <= k < |name| :: UpperChar(j.text[k]) == name[k]
  }

  /** The balance is one in dollars, and `figure` is what it is counted by. */
  predicate InDollars(item: Json, figure: Json) {
    && item.Obj?
    && (Currency(Get(item.fields, "currency"), "USD") || Currency(Get(item.fields, "currency"), "USDT"))
    && figure == (if CountsAsNothing(Get(item.fields, "usdEquity")) then Get(item.fields, "equity")
                  else Get(item.fields, "usdEquity"))
  }

  lemma TruthyExactly(j: Json)
    ensures Truthy(j) <==> !CountsAsNothing(j)
  {
    hide ReadDecimal;
  }

  lemma CurrencyRead(j: Json)
    ensures Upper(PyStrOrEmpty(j)) == "USD" <==> Currency(j, "USD")
    ensures Upper(PyStrOrEmpty(j)) == "USDT" <==> Currency(j, "USDT")
  {
    hide ReadDecimal;
    TruthyExactly(j);
    NoCurrencies();
    CurrencyText(PyStrOrEmpty(j), "USD");
    CurrencyText(PyStrOrEmpty(j), "USDT");
    hide Upper, CountsAsNothing, Truthy;
  }

  lemma NoCurrencies()
    ensures |Upper("True")| == 4 && Upper("True")[0] == 'T' && "USDT"[0] == 'U'
    ensures Upper("") == "" && |Upper("[]")| == 2 && |Upper("{}")| == 2
  {
  }

  lemma CurrencyText(s: string, name: string)
    ensures Upper(s) == name <==> |s| == |name| && forall k | 0 <= k < |name| :: UpperChar(s[k]) == name[k]
  {
  }

  /** What a balance contributes, whatever it is: the number its figure reads as, if that is not negative;
      nothing, if it is not in dollars or its figure is absent or empty; and an error for any other
      figure. */
  lemma CandidateExactly(item: Json)
    ensures (forall figure :: !InDollars(item, figure)) ==> Candidate(item) == Ok(None)
    ensures forall figure | InDollars(item, figure) ::
              if figure == Null || figure == Str("") then Candidate(item) == Ok(None)
              else if figure.Str? || figure.Num? then
                match ReadDecimal(figure.text)
                case None => Candidate(item).ValueError?
                case Some(d) => if d.coeff >= 0 then Candidate(item) == Ok(Some(d)) else Candidate(item).ValueError?
              else Candidate(item).ValueError?
  {
    hide ReadDecimal, Truthy, CountsAsNothing, Currency, Upper, PyStrOrEmpty, Get;
    if item.Obj? {
      var direct := Get(item.fields, "usdEquity");
      TruthyExactly(direct);
      CurrencyRead(Get(item.fields, "currency"));
      var figure := if CountsAsNothing(direct) then Get(item.fields, "equity") else direct;
      assert Upper(PyStrOrEmpty(Get(item.fields, "currency"))) in {"USDT", "USD"} <==> InDollars(item, figure);
    }
  }

  // ----- the file -------------------------------------------------------------------------

  datatype Snapshot = Snapshot(day: Day, equity: Option<real>)

  /** `read_risk_state` accepts these figures. */
  predicate Readable(s: RiskState) {
    && (forall d | d in s.lossByDay :: s.lossByDay[d] >= 0.0)
    && (forall d | d in s.openByDay :: s.openByDay[d] >= 0.0)
    && (s.initial.Some? ==> s.initial.value > 0.0)
    && (s.current.Some? ==> s.current.value > 0.0)
  }

  function ReadState(file: Option<RiskState>): Try<RiskState> {
    if file.None? then Ok(EMPTY_STATE)
    else if Readable(file.value) then Ok(file.value)
    else ValueError(Malformed)
  }

  /** Python's `a or b` on optional decimals: zero counts as absent. */
  function EquityOr(a: Option<real>, b: Option<real>): Option<real> {
    if a.Some? && a.value != 0.0 then a else b
  }

  function NonNegative(x: real): real {
    if x > 0.0 then x else 0.0
  }

  /** The state after one more snapshot. */
  function Advance(s: RiskState, snap: Snapshot): RiskState {
    var open := if snap.equity.Some? && snap.day !in s.openByDay
                then s.openByDay[snap.day := snap.equity.value] else s.openByDay;
    RiskState(
      if snap.equity.Some? then s.lossByDay[snap.day := NonNegative(open[snap.day] - snap.equity.value)]
      else s.lossByDay,
      open,
      EquityOr(s.initial, snap.equity),
      EquityOr(snap.equity, s.current))
  }

  /** The file after one more snapshot: an unreadable file stops the update. */
  function UpdatedFile(file: Option<RiskState>, snap: Snapshot): Option<RiskState> {
    match ReadState(file)
    case Ok(s) => Some(Advance(s, snap))
    case _ => file
  }

  class RiskStateFile {
    var stored: Option<RiskState>

    constructor ()
      ensures stored == None
    {
      stored := None;
    }

    /** `update_risk_state_from_reconciliation_snapshot`. */
    method Update(today: Day, equity: Option<real>) returns (r: Try<RiskState>)
      modifies this
      ensures stored == UpdatedFile(old(stored), Snapshot(today, equity))
      ensures r.Ok? <==> ReadState(old(stored)).Ok?
      ensures r.Ok? ==> stored == Some(r.value)
    {
      var read := ReadState(stored);
      if !read.Ok? {
        return ValueError(Malformed);
      }
      var current := read.value;
      var initial := EquityOr(current.initial, equity);
      var dailyOpen := current.openByDay;
      if equity.Some? && today !in dailyOpen {
        dailyOpen := dailyOpen[today := equity.value];
      }
      var losses := current.lossByDay;
      if equity.Some? {
        var loss := dailyOpen[today] - equity.value;
        losses := losses[today := if loss > 0.0 then loss else 0.0];
      }
      var next := RiskState(losses, dailyOpen, initial, EquityOr(equity, current.current));
      stored := Some(next);
      r := Ok(next);
    }
  }

  // ----- the history ----------------------------------------------------------------------

  /** The file after a history of snapshots, starting from no file. */
  function Replay(h: seq<Snapshot>): Option<RiskState> {
    if h == [] then None else UpdatedFile(Replay(h[..|h| - 1]), h[|h| - 1])
  }

  /** Every equity observed, in order. */
  function Observed(h: seq<Snapshot>): seq<real> {
    if h == [] then []
    else
      var last := h[|h| - 1];
      Observed(h[..|h| - 1]) + if last.equity.Some? then [last.equity.value] else []
  }

  /** The equities observed on one day, in order. */
  function ObservedOn(h: seq<Snapshot>, day: Day): seq<real> {
    if h == [] then []
    else
      var last := h[|h| - 1];
      ObservedOn(h[..|h| - 1], day) + if last.day == day && last.equity.Some? then [last.equity.value] else []
  }

  function Initial(xs: seq<real>): Option<real> {
    if xs == [] then None else Some(xs[0])
  }

  function Latest(xs: seq<real>): Option<real> {
    if xs == [] then None else Some(xs[|xs| - 1])
  }

  /** The last figure that is not zero. */
  function LatestNonZero(xs: seq<real>): Option<real> {
    if xs == [] then None
    else if xs[|xs| - 1] != 0.0 then Some(xs[|xs| - 1])
    else LatestNonZero(xs[..|xs| - 1])
  }

  /** What `_snapshot_usd_equity` lets through. */
  predicate NonNegativeHistory(h: seq<Snapshot>) {
    forall snap | snap in h :: snap.equity.Some? ==> snap.equity.value >= 0.0
  }

  /** The figures kept for one day on which the equities `xs` were observed. */
  predicate DaySummary(s: RiskState, day: Day, xs: seq<real>) {
    && (day in s.openByDay <==> xs != [])
    && (day in s.lossByDay <==> xs != [])
    && (xs != [] ==>
          && s.openByDay[day] == xs[0]
          && s.lossByDay[day] == NonNegative(xs[0] - xs[|xs| - 1]))
  }

  /** The file summarizes the history, with `current` as the current equity. */
  ghost predicate Summarizes(s: RiskState, h: seq<Snapshot>, current: Option<real>) {
    && s.initial == Initial(Observed(h))
    && s.current == current
    && (forall d :: DaySummary(s, d, ObservedOn(h, d)))
  }

  lemma {:induction false} HistoryFacts(h: seq<Snapshot>)
    requires NonNegativeHistory(h)
    ensures forall i | 0 <= i < |Observed(h)| :: Observed(h)[i] >= 0.0
    ensures forall d, x | x in ObservedOn(h, d) :: x >= 0.0
    ensures forall d | ObservedOn(h, d) != [] :: Observed(h) != []
  {
    if h != [] {
      HistoryFacts(h[..|h| - 1]);
    }
  }

  lemma {:induction false} LatestNonZeroPositive(xs: seq<real>)
    requires forall i | 0 <= i < |xs| :: xs[i] >= 0.0
    ensures LatestNonZero(xs).Some? ==> LatestNonZero(xs).value > 0.0
  {
    if xs != [] {
      LatestNonZeroPositive(xs[..|xs| - 1]);
    }
  }

  function Observation(snap: Snapshot): seq<real> {
    if snap.equity.Some? then [snap.equity.value] else []
  }

  lemma Extended(past: seq<Snapshot>, snap: Snapshot)
    ensures Observed(past + [snap]) == Observed(past) + Observation(snap)
    ensures forall d :: ObservedOn(past + [snap], d)
                     == ObservedOn(past, d) + if d == snap.day then Observation(snap) else []
    ensures Replay(past + [snap]) == UpdatedFile(Replay(past), snap)
  {
    var h := past + [snap];
    assert h[..|h| - 1] == past;
  }

  /** A readable file is exactly the summary of its history.  It is unreadable, and stays so,
      exactly when the first equity ever seen was zero; and the current equity it keeps is the
      last one that was not zero. */
  lemma {:induction false} FileRefinesHistory(h: seq<Snapshot>)
    requires NonNegativeHistory(h)
    ensures ReadState(Replay(h)).Ok? <==> Initial(Observed(h)) != Some(0.0)
    ensures ReadState(Replay(h)).Ok? ==>
      Summarizes(ReadState(Replay(h)).value, h, LatestNonZero(Observed(h)))
  {
    if h != [] {
      var past, snap := h[..|h| - 1], h[|h| - 1];
      FileRefinesHistory(past);
      hide Advance, Observed, ObservedOn, LatestNonZero, Summarizes, Replay;
      assert h == past + [snap];
      Extended(past, snap);
      HistoryFacts(past);
      if ReadState(Replay(past)).Ok? {
        AdvanceSummary(ReadState(Replay(past)).value, past, snap);
        SummaryReadable(Advance(ReadState(Replay(past)).value, snap), h);
      }
    }
  }

  lemma SummaryReadable(s: RiskState, h: seq<Snapshot>)
    requires NonNegativeHistory(h) && Summarizes(s, h, LatestNonZero(Observed(h)))
    ensures Readable(s) <==> Initial(Observed(h)) != Some(0.0)
  {
    HistoryFacts(h);
    LatestNonZeroPositive(Observed(h));
    hide Observed, ObservedOn, LatestNonZero;
    forall d ensures d in s.openByDay ==> s.openByDay[d] >= 0.0
             ensures d in s.lossByDay ==> s.lossByDay[d] >= 0.0 {
      assert DaySummary(s, d, ObservedOn(h, d));
      if ObservedOn(h, d) != [] {
        assert ObservedOn(h, d)[0] in ObservedOn(h, d);
      }
    }
    if Observed(h) != [] {
      assert Observed(h)[0] in Observed(h);
    }
  }

  lemma AdvanceSummary(s: RiskState, past: seq<Snapshot>, snap: Snapshot)
    requires Summarizes(s, past, LatestNonZero(Observed(past)))
    requires Initial(Observed(past)) != Some(0.0)
    ensures Summarizes(Advance(s, snap), past + [snap], LatestNonZero(Observed(past + [snap])))
  {
    var h := past + [snap];
    Extended(past, snap);
    assert Observed(past) + [] == Observed(past);
    LatestNonZeroExtended(Observed(past), Observation(snap));
    hide Observed, ObservedOn, LatestNonZero, DaySummary;
    var t := Advance(s, snap);
    forall d ensures DaySummary(t, d, ObservedOn(h, d)) {
      AdvanceDay(s, snap, d, ObservedOn(past, d), ObservedOn(h, d));
    }
  }

  lemma AdvanceDay(s: RiskState, snap: Snapshot, d: Day, before: seq<real>, after: seq<real>)
    requires DaySummary(s, d, before)
    requires after == before + if d == snap.day then Observation(snap) else []
    ensures DaySummary(Advance(s, snap), d, after)
  {
    if d != snap.day || snap.equity.None? {
      assert after == before;
    }
  }

  lemma LatestNonZeroExtended(xs: seq<real>, more: seq<real>)
    requires |more| <= 1
    ensures LatestNonZero(xs + more) == if more != [] && more[0] != 0.0 then Some(more[0]) else LatestNonZero(xs)
  {
    if more == [] {
      assert xs + more == xs;
    } else {
      assert (xs + more)[..|xs|] == xs;
    }
  }

  /** With every equity positive the file is the plain summary: first, last, first and last of day. */
  lemma FileSummarizesPositiveHistory(h: seq<Snapshot>)
    requires forall snap | snap in h :: snap.equity.Some? ==> snap.equity.value > 0.0
    ensures ReadState(Replay(h)).Ok?
    ensures Summarizes(ReadState(Replay(h)).value, h, Latest(Observed(h)))
  {
    FileRefinesHistory(h);
    PositiveObserved(h);
  }

  lemma {:induction false} PositiveObserved(h: seq<Snapshot>)
    requires forall snap | snap in h :: snap.equity.Some? ==> snap.equity.value > 0.0
    ensures forall x | x in Observed(h) :: x > 0.0
  {
    if h != [] {
      PositiveObserved(h[..|h| - 1]);
    }
  }

  /** The zero boundary, exactly: the file is readable and its current equity is the last one
      observed iff neither the first nor the last observed equity is zero. */
  lemma PlainSummaryExactly(h: seq<Snapshot>)
    requires NonNegativeHistory(h)
    ensures (ReadState(Replay(h)).Ok? && Summarizes(ReadState(Replay(h)).value, h, Latest(Observed(h))))
            <==> Initial(Observed(h)) != Some(0.0) && Latest(Observed(h)) != Some(0.0)
  {
    FileRefinesHistory(h);
    HistoryFacts(h);
    LatestNonZeroPositive(Observed(h));
  }

  /** An account that falls to zero keeps its previous equity in the file: 100 then 0 on one day
      still reads as 100, while the day's loss is 100. */
  lemma ZeroEquityIsStale(day: Day)
    ensures var h := [Snapshot(day, Some(100.0)), Snapshot(day, Some(0.0))];
            && ReadState(Replay(h)).Ok?
            && ReadState(Replay(h)).value.current == Some(100.0)
            && ReadState(Replay(h)).value.lossByDay == map[day := 100.0]
  {
    var first := [Snapshot(day, Some(100.0))];
    var h := [Snapshot(day, Some(100.0)), Snapshot(day, Some(0.0))];
    assert h[..1] == first && first[..0] == [];
    assert Replay([]) == None;
    assert Replay(first) == Some(RiskState(map[day := 0.0], map[day := 100.0], Some(100.0), Some(100.0)));
  }

  /** A history that begins with an equity of zero, say that of an account not yet funded, makes the file
      unreadable for good, whatever follows. */
  lemma ZeroFirstEquityBricks(h: seq<Snapshot>)
    requires NonNegativeHistory(h) && h != [] && h[0].equity == Some(0.0)
    ensures ReadState(Replay(h)).ValueError?
  {
    FirstObserved(h);
    FileRefinesHistory(h);
  }

  lemma {:induction false} FirstObserved(h: seq<Snapshot>)
    requires h != [] && h[0].equity.Some?
    ensures Initial(Observed(h)) == h[0].equity
  {
    if |h| > 1 {
      FirstObserved(h[..|h| - 1]);
    } else {
      assert Observed(h[..0]) == [];
    }
  }
}
