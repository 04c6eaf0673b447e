/** What reaches YTM over a whole run: acknowledgements are backed by orders, and a stored result is
    reported unchanged for ever. */
module Acknowledgements {
  import opened Wrappers
  import opened JsonValues
  import opened OrderRequests
  import opened OkxReplies
  import opened OkxProtection
  import opened OkxAdapter
  import opened Payloads
  import opened Preflight
  import opened ExecutionStore
  import opened Lifecycle
  import Guards
  import OkxOrders
  import Risk
  import RiskHistory
  import Texts

  // ----- one adapter step -----------------------------------------------------------------

  /** The payload names an order of the book. */
  ghost predicate Names(book: map<OrderKey, string>, key: OrderKey, d: Decision) {
    key in book && Get(d.payload, "providerOrderId") == Str(book[key])
  }

  ghost predicate AdapterAccepts(w: World, answers: Answers, sha: string -> string) {
    hide *;
    w.phase.Cleared? && PrepareOrder(w.phase.screen.request, answers, sha).outcome.Ok?
  }

  /** The attempt gets to the lookup, and the lookup finds the order. */
  ghost predicate FindsOrder(w: World, answers: Answers, sha: string -> string) {
    hide *;
    && w.phase.Cleared? && ThroughGates(w.phase.screen.request, answers, sha)
    && Lookup(answers.lookup).Ok? && Lookup(answers.lookup).value.Some?
  }

  /** The attempt ends acknowledged, naming the order under its key. */
  ghost predicate AcknowledgedAs(next: World, key: Option<OrderKey>) {
    && key.Some? && next.phase.Decided? && next.phase.decision.status == "acknowledged"
    && Names(next.book, key.value, next.phase.decision)
  }

  /** The book is untouched, and the attempt is lost or acknowledged, never rejected. */
  ghost predicate Recovers(w: World, next: World, key: Option<OrderKey>) {
    && next.book == w.book && next.placements == w.placements && next.accepted == w.accepted
    && (next.phase.Idle? || AcknowledgedAs(next, key))
  }

  lemma OrdIdNotEmpty(row: Fields)
    ensures OrdId(row).Some? ==> OrdId(row).value != ""
  {
  }

  /** When the adapter returns, the attempt is acknowledged with the name of the order that the book
      holds under its key. */
  lemma AdapterOutcome(w: World, answers: Answers, sha: string -> string)
    requires Faithful(w, CallOkx(answers), sha) && AdapterAccepts(w, answers, sha)
    ensures AcknowledgedAs(Next(w, CallOkx(answers), sha), AttemptKey(w.phase.screen.request, answers, sha))
  {
    hide Next, PassGates, PrepareOrder, AfterAdapter, Lookup, PlaceAnswer, OrdId, Checked, KeyOf, ReportOf, Provider;
    var request := w.phase.screen.request;
    var placed := PrepareOrder(request, answers, sha).outcome.value;
    OkxStep(w, answers, sha);
    AcknowledgedMeans(request, answers, sha);
    OrdIdNotEmpty(OrderRow(answers).value);
    DecisionFollowsAdapter(Ok(placed), Provider(w.phase.screen.attempt.command));
  }

  /** An attempt that finds its order in the book places nothing, leaves the book alone, and is
      acknowledged with that order's name -- if the gates before the lookup let it get there. */
  lemma RecoveryStep(w: World, answers: Answers, sha: string -> string)
    requires Faithful(w, CallOkx(answers), sha) && FindsOrder(w, answers, sha)
    ensures Recovers(w, Next(w, CallOkx(answers), sha), AttemptKey(w.phase.screen.request, answers, sha))
  {
    hide Next, PassGates, PrepareOrder, AfterAdapter, Lookup, PlaceAnswer, OrdId, Checked, KeyOf, Names, Faithful,
      Provider;
    var request := w.phase.screen.request;
    OkxStep(w, answers, sha);
    RecoveryPlacesNothing(request, answers, sha);
    if PrepareOrder(request, answers, sha).outcome.Ok? {
      AdapterOutcome(w, answers, sha);
    } else {
      CrashSettles(w.phase.screen.attempt, Provider(w.phase.screen.attempt.command));
    }
  }

  lemma CrashSettles(attempt: Attempt, provider: string)
    ensures Settled(attempt, AfterAdapter(Crash, provider)) == Idle
  {
  }

  /** The step enters an order in the exchange's book. */
  ghost predicate AddsAcceptance(w: World, answers: Answers, sha: string -> string) {
    hide *;
    |Next(w, CallOkx(answers), sha).accepted| > |w.accepted|
  }

  ghost predicate EndsRejected(next: World) {
    next.phase.Decided? && next.phase.decision.status == "rejected"
  }

  /** An answer arrives, but it is no well-formed acceptance: no object, a refusal code, no row, or a
      row without an order id. */
  ghost predicate MalformedAcceptance(answers: Answers) {
    && !PlaceAnswer(answers).Crash?
    && (PlaceAnswer(answers).ValueError? || OrdId(PlaceAnswer(answers).value).None?)
  }

  /** An order that the exchange accepts in this very attempt is rejected all the same exactly when
      the answer to placing it arrives malformed. */
  lemma AcceptedStepRejectedExactly(w: World, answers: Answers, sha: string -> string)
    requires AddsAcceptance(w, answers, sha)
    ensures EndsRejected(Next(w, CallOkx(answers), sha)) <==> MalformedAcceptance(answers)
  {
    hide Next, PassGates, PrepareOrder, AfterAdapter, Lookup, PlaceAnswer, OrdId, KeyOf, Provider;
    StepFrame(w, CallOkx(answers), sha);
    OkxStep(w, answers, sha);
    var request, provider := w.phase.screen.request, Provider(w.phase.screen.attempt.command);
    RejectedExactly(request, answers, sha);
    OutcomeDecides(w.phase.screen.attempt, PrepareOrder(request, answers, sha).outcome, provider);
  }

  /** The decision is a rejection exactly when the adapter refused. */
  lemma OutcomeDecides(attempt: Attempt, outcome: Try<Placed>, provider: string)
    ensures var p := Settled(attempt, AfterAdapter(outcome, provider));
            p.Decided? && p.decision.status == "rejected" <==> outcome.ValueError?
  {
    hide AfterAdapter, AdapterPayload, Get;
    if outcome.Crash? {
      CrashSettles(attempt, provider);
    } else {
      DecisionFollowsAdapter(outcome, provider);
    }
  }

  // ----- acknowledgements are backed ------------------------------------------------------

  /** What the exchange holds, and who has called it. */
  datatype Ledger = Ledger(book: map<OrderKey, string>, trace: seq<Traced>, sha: string -> string)

  function LedgerOf(w: World, sha: string -> string): Ledger {
    Ledger(w.book, w.trace, sha)
  }

  /** Attempt `i` at the exchange was one at this identity, and the decision names the order under
      the key of its command. */
  ghost predicate NamesAttempted(l: Ledger, i: int, id: string, d: Decision) {
    && 0 <= i < |l.trace| && l.trace[i].attempt.id == id
    && var key := CommandKey(l.trace[i].attempt.command, l.sha);
    key.Some? && Names(l.book, key.value, d)
  }

  /** An acknowledged decision names the order of a command that was attempted under its identity. */
  ghost predicate Backed(l: Ledger, id: string, d: Decision) {
    d.status == "acknowledged" ==> exists i :: NamesAttempted(l, i, id, d)
  }

  ghost predicate BackedIfReal(l: Ledger, attempt: Attempt, d: Decision) {
    Mode(attempt.command) == "real" ==> Backed(l, attempt.id, d)
  }

  ghost predicate StoreBacked(l: Ledger, store: JsonFile) {
    forall id | Find(store, id).Ok? && Find(store, id).value.Some? :: Backed(l, id, Find(store, id).value.value)
  }

  ghost predicate ReportsBacked(l: Ledger, reports: seq<Reported>) {
    forall i | 0 <= i < |reports| :: BackedIfReal(l, reports[i].attempt, reports[i].decision)
  }

  ghost predicate PhaseBacked(l: Ledger, p: Phase) {
    p.Decided? || p.Reporting? ==> BackedIfReal(l, p.attempt, p.decision)
  }

  ghost predicate AllBacked(w: World, sha: string -> string) {
    hide *;
    var l := LedgerOf(w, sha);
    PhaseBacked(l, w.phase) && StoreBacked(l, w.store) && ReportsBacked(l, w.reports)
  }

  /** No order and no call disappears. */
  ghost predicate LedgerGrows(before: Ledger, after: Ledger) {
    BookGrows(before.book, after.book) && before.trace <= after.trace && before.sha == after.sha
  }

  lemma BackedStays(before: Ledger, after: Ledger, id: string, d: Decision)
    requires LedgerGrows(before, after) && Backed(before, id, d)
    ensures Backed(after, id, d)
  {
    hide CommandKey;
    if d.status == "acknowledged" {
      var i :| NamesAttempted(before, i, id, d);
      assert NamesAttempted(after, i, id, d);
    }
  }

  lemma RejectionIsRejected(code: string, reason: string, extra: Entries)
    ensures Rejection(code, reason, extra).Ok? ==> Rejection(code, reason, extra).value.status == "rejected"
  {
    hide Guarded, Guards.Build;
  }

  lemma RejectedIsBacked(l: Ledger, attempt: Attempt, code: string, reason: string, extra: Entries)
    ensures PhaseBacked(l, Settled(attempt, Rejection(code, reason, extra)))
  {
    RejectionIsRejected(code, reason, extra);
    hide Rejection, Mode;
  }

  lemma RejectedNeedsNoOrder(l: Ledger)
    ensures forall id: string, d: Decision | d.status == "rejected" :: Backed(l, id, d)
  {
    hide NamesAttempted;
  }

  lemma OtherIsBacked(l: Ledger, attempt: Attempt, result: Try<Fields>, provider: string)
    ensures PhaseBacked(l, Settled(attempt, AfterOther(result, Mode(attempt.command), provider)))
  {
    hide Mode, Rejection, Guarded, Guards.Build, Backed, Extra;
    if result.ValueError? {
      RejectionIsRejected("adapter_preflight_failed", ReasonText(result.reason), Extra("failed", "passed"));
    } else if result.Ok? && Mode(attempt.command) == "real" {
      RejectionIsRejected(
        "real_execution_disabled", "validate only", Extra("passed", "passed") + [("adapterResult", Obj(result.value))]);
    }
    RejectedNeedsNoOrder(l);
  }

  /** The key an attempt places under is the key of its command. */
  lemma AttemptKeyIsCommandKey(w: World, answers: Answers, sha: string -> string)
    requires w.phase.Cleared? && Honest(w, sha)
    ensures var key := AttemptKey(w.phase.screen.request, answers, sha);
            key.Some? ==> key == CommandKey(w.phase.screen.attempt.command, sha)
  {
    hide PassGates, Build, OkxOrders.OkxClientOrderId, OkxOrders.InstrumentId;
    if AttemptKey(w.phase.screen.request, answers, sha).Some? {
      ParamsKey(w.phase.screen.request, answers, sha);
    }
  }

  lemma AdapterIsBacked(w: World, answers: Answers, sha: string -> string)
    requires w.phase.Cleared? && Faithful(w, CallOkx(answers), sha) && Honest(w, sha)
    ensures PhaseIsBacked(Next(w, CallOkx(answers), sha), sha)
  {
    hide Next, PassGates, PrepareOrder, AfterAdapter, Provider, ToPlace, AttemptKey, Faithful, Names, CommandKey,
      Honest,
      Mode;
    OkxStep(w, answers, sha);
    var attempt, outcome := w.phase.screen.attempt, PrepareOrder(w.phase.screen.request, answers, sha).outcome;
    var next := Next(w, CallOkx(answers), sha);
    if outcome.Ok? {
      AdapterOutcome(w, answers, sha);
      AttemptKeyIsCommandKey(w, answers, sha);
      assert next.trace[|w.trace|].attempt == attempt;
      assert NamesAttempted(LedgerOf(next, sha), |w.trace|, attempt.id, next.phase.decision);
    } else {
      OutcomeDecides(attempt, outcome, Provider(attempt.command));
      RejectedNeedsNoOrder(LedgerOf(next, sha));
      if outcome.Crash? {
        CrashSettles(attempt, Provider(attempt.command));
      }
    }
  }

  ghost predicate PhaseIsBacked(w: World, sha: string -> string) {
    hide *;
    PhaseBacked(LedgerOf(w, sha), w.phase)
  }

  /** In every step the new phase is backed, given the old one and the store were. */
  lemma PhaseBackedStep(w: World, e: Event, sha: string -> string)
    requires AllBacked(w, sha) && Faithful(w, e, sha) && Honest(w, sha)
    ensures PhaseIsBacked(Next(w, e, sha), sha)
  {
    hide Next, PhaseIsBacked, AllBacked, Faithful, Honest;
    if AtExchange(w, e) {
      AdapterIsBacked(w, e.answers, sha);
    } else if e.CallOther? && w.phase.Elsewhere? {
      OtherBackedStep(w, e.result, sha);
    } else {
      QuietBackedStep(w, e, sha);
    }
  }

  lemma OtherBackedStep(w: World, result: Try<Fields>, sha: string -> string)
    requires w.phase.Elsewhere?
    ensures PhaseIsBacked(Next(w, CallOther(result), sha), sha)
  {
    hide AfterOther, PhaseBacked, Settled, Mode, Provider, OnLease, OnLoadPolicy, OnLoadState, OnScreening, OnReload,
      OnSave, OnCallOkx, OnDeliver, RiskHistory.UpdatedFile;
    OtherIsBacked(LedgerOf(w, sha), w.phase.attempt, result, Provider(w.phase.attempt.command));
  }

  lemma QuietBackedStep(w: World, e: Event, sha: string -> string)
    requires AllBacked(w, sha) && !AtExchange(w, e) && !(e.CallOther? && w.phase.Elsewhere?)
    ensures PhaseIsBacked(Next(w, e, sha), sha)
  {
    hide FirstGate, FinalGate, Rejection, Mode, Backed, Find, Store, Risk.ReadPolicy, RiskHistory.ReadState,
      ReportsBacked, PrepareOrder, AfterOther, RiskHistory.UpdatedFile, Settled, Recordable;
    forall attempt, code, reason, extra
      ensures PhaseBacked(LedgerOf(w, sha), Settled(attempt, Rejection(code, reason, extra))) {
      RejectedIsBacked(LedgerOf(w, sha), attempt, code, reason, extra);
    }
  }

  lemma RealIsReal()
    ensures forall attempt: Attempt | Get(attempt.command, "executionMode") == Str("real") ::
              Mode(attempt.command) == "real"
  {
    assert Texts.Stripped("real");
  }

  ghost predicate StepGrows(w: World, e: Event, sha: string -> string) {
    hide *;
    LedgerGrows(LedgerOf(w, sha), LedgerOf(Next(w, e, sha), sha))
  }

  lemma LedgerStep(w: World, e: Event, sha: string -> string)
    requires NeverTwice(w, e, sha) && Honest(w, sha) && Distinct(w.accepted)
    ensures StepGrows(w, e, sha)
  {
    hide Next, NeverTwice, Honest, Distinct, BookGrows, ToPlace, KeyOf, AfterAdapter, PrepareOrder;
    DistinctStep(w, e, sha);
    StepFrame(w, e, sha);
    if AtExchange(w, e) {
      OkxStep(w, e.answers, sha);
    }
  }

  ghost predicate StoreIsBacked(w: World, sha: string -> string) {
    hide *;
    StoreBacked(LedgerOf(w, sha), w.store)
  }

  ghost predicate ReportsAreBacked(w: World, sha: string -> string) {
    hide *;
    ReportsBacked(LedgerOf(w, sha), w.reports)
  }

  lemma StoreBackedStep(w: World, e: Event, sha: string -> string)
    requires AllBacked(w, sha) && StepGrows(w, e, sha)
    ensures StoreIsBacked(Next(w, e, sha), sha)
  {
    hide Next, Backed, LedgerGrows, Find, Store, Mode, ReportsBacked;
    StepStore(w, e, sha);
    var next := Next(w, e, sha);
    RealIsReal();
    forall id | Find(next.store, id).Ok? && Find(next.store, id).value.Some?
      ensures Backed(LedgerOf(next, sha), id, Find(next.store, id).value.value) {
      if next.store != w.store {
        PutThenFind(w.store, w.phase.attempt.id, w.phase.decision, e.stamp, id);
      }
      BackedStays(LedgerOf(w, sha), LedgerOf(next, sha), id, Find(next.store, id).value.value);
    }
  }

  lemma ReportsBackedStep(w: World, e: Event, sha: string -> string)
    requires AllBacked(w, sha) && StepGrows(w, e, sha)
    ensures ReportsAreBacked(Next(w, e, sha), sha)
  {
    hide Next, Backed, LedgerGrows, StoreBacked, Mode;
    StepReports(w, e, sha);
    var next := Next(w, e, sha);
    forall i | 0 <= i < |next.reports|
      ensures BackedIfReal(LedgerOf(next, sha), next.reports[i].attempt, next.reports[i].decision) {
      if Mode(next.reports[i].attempt.command) == "real" {
        BackedStays(LedgerOf(w, sha), LedgerOf(next, sha), next.reports[i].attempt.id, next.reports[i].decision);
      }
    }
  }

  /** In every run against a faithful exchange that accepts no order twice, every acknowledgement of
      a real command, decided, stored or reported, names the order that the exchange holds under the
      key of a command attempted under the same identity. */
  lemma {:induction false} AcknowledgementsBacked(w: World, es: seq<Event>, sha: string -> string)
    requires Start(w) && NeverTwiceThroughout(w, es, sha) && FaithfulThroughout(w, es, sha)
    ensures AllBacked(Exec(w, es, sha), sha)
  {
    hide Exec, Next, NeverTwiceThroughout, FaithfulThroughout, AllBacked, Start;
    if es == [] {
      ExecNothing(w, sha);
      NothingBacked(w, sha);
    } else {
      var past, e := es[..|es| - 1], es[|es| - 1];
      assert es == past + [e];
      ThroughoutPrefix(w, past, e, sha);
      AcknowledgementsBacked(w, past, sha);
      AtMostOnce(w, past, sha);
      ExecNext(w, past, e, sha);
      BackedStep(Exec(w, past, sha), e, sha);
    }
  }

  lemma BackedStep(w: World, e: Event, sha: string -> string)
    requires AllBacked(w, sha) && NeverTwice(w, e, sha) && Faithful(w, e, sha)
    requires Honest(w, sha) && Distinct(w.accepted)
    ensures AllBacked(Next(w, e, sha), sha)
  {
    hide Next, PhaseBacked, StoreBacked, ReportsBacked, NeverTwice, Faithful, Honest, Distinct, StepGrows;
    LedgerStep(w, e, sha);
    PhaseBackedStep(w, e, sha);
    StoreBackedStep(w, e, sha);
    ReportsBackedStep(w, e, sha);
  }

  lemma NothingBacked(w: World, sha: string -> string)
    requires Start(w)
    ensures AllBacked(w, sha)
  {
    assert forall id :: Find(w.store, id) == Ok(None);
    hide Find, NamesAttempted;
  }

  // ----- whose order an acknowledgement names ---------------------------------------------

  /** The digest tells apart the client order ids of all commands attempted or accepted in the run. */
  ghost predicate SeparatesRun(w: World, sha: string -> string) {
    hide *;
    forall i, j | 0 <= i < |w.trace| && 0 <= j < |w.accepted| ::
      var a, b := CommandClientId(w.trace[i].attempt.command, sha), CommandClientId(w.accepted[j].attempt.command, sha);
      a.Some? && b.Some? ==> Separates(sha, a.value, b.value)
  }

  /** The decision names the order of a command attempted under the identity, and that order was accepted
      for a command with the same client order id. */
  ghost predicate NamesOwn(w: World, i: int, j: int, id: string, d: Decision, sha: string -> string) {
    hide *;
    && NamesAttempted(LedgerOf(w, sha), i, id, d)
    && 0 <= i < |w.trace| && 0 <= j < |w.accepted|
    && CommandClientId(w.trace[i].attempt.command, sha).Some?
    && CommandClientId(w.accepted[j].attempt.command, sha) == CommandClientId(w.trace[i].attempt.command, sha)
    && CommandKey(w.trace[i].attempt.command, sha) == Some(w.accepted[j].key)
  }

  lemma NamesOwnOrder(w: World, i: int, id: string, d: Decision, sha: string -> string)
    requires Honest(w, sha) && BookAccepted(w) && SeparatesRun(w, sha)
    requires NamesAttempted(LedgerOf(w, sha), i, id, d)
    ensures exists j :: NamesOwn(w, i, j, id, d, sha)
  {
    hide CommandKey, CommandClientId, Separates, OrderRequests.Build;
    var command := w.trace[i].attempt.command;
    var key := CommandKey(command, sha).value;
    var j :| 0 <= j < |w.accepted| && w.accepted[j].key == key;
    OneKeyOneClientId(command, w.accepted[j].attempt.command, sha);
    SeparatesUsed(sha, CommandClientId(command, sha).value, CommandClientId(w.accepted[j].attempt.command, sha).value);
    assert NamesOwn(w, i, j, id, d, sha);
  }

  lemma SeparatesUsed(sha: string -> string, a: string, b: string)
    ensures Separates(sha, a, b) ==> (a == b <==> OrderRequests.Take(sha(a), 29) == OrderRequests.Take(sha(b), 29))
  {
  }

  /** A report of a real command as acknowledged names its own order: the one accepted for the client order
      id of a command attempted under its identity. */
  ghost predicate ReportsOwn(w: World, sha: string -> string) {
    hide *;
    forall k | 0 <= k < |w.reports| && Mode(w.reports[k].attempt.command) == "real"
               && w.reports[k].decision.status == "acknowledged" ::
      exists i, j :: NamesOwn(w, i, j, w.reports[k].attempt.id, w.reports[k].decision, sha)
  }

  /** Over every run, if the digest separates the client order ids that occur, no acknowledgement names
      somebody else's order, found or placed. */
  lemma AcknowledgementsNameOwnOrders(w: World, es: seq<Event>, sha: string -> string)
    requires Start(w) && NeverTwiceThroughout(w, es, sha) && FaithfulThroughout(w, es, sha)
    requires SeparatesRun(Exec(w, es, sha), sha)
    ensures ReportsOwn(Exec(w, es, sha), sha)
  {
    hide Exec, NeverTwiceThroughout, FaithfulThroughout, Start, SeparatesRun, BookAccepted, Honest, Distinct,
      NamesAttempted, NamesOwn, Mode;
    AcknowledgementsBacked(w, es, sha);
    AtMostOnce(w, es, sha);
    OrdersWereAccepted(w, es, sha);
    var now := Exec(w, es, sha);
    forall k | 0 <= k < |now.reports| && Mode(now.reports[k].attempt.command) == "real"
               && now.reports[k].decision.status == "acknowledged"
      ensures exists i, j :: NamesOwn(now, i, j, now.reports[k].attempt.id, now.reports[k].decision, sha) {
      assert BackedIfReal(LedgerOf(now, sha), now.reports[k].attempt, now.reports[k].decision);
      var i :| NamesAttempted(LedgerOf(now, sha), i, now.reports[k].attempt.id, now.reports[k].decision);
      NamesOwnOrder(now, i, now.reports[k].attempt.id, now.reports[k].decision, sha);
    }
  }
}
