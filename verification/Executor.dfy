/** `cli.py`: one leased command processed from end to end, on the host's files and the exchange. */
module Executor {
  import opened Wrappers
  import opened JsonValues
  import opened Risk
  import opened RiskHistory
  import opened OrderRequests
  import opened OkxProtection
  import opened OkxAdapter
  import opened OkxClient
  import opened Payloads
  import opened Preflight
  import opened ExecutionStore
  import opened Lifecycle

  // ----- the same, as a run of the state machine ------------------------------------------

  /** The phase in which an event does something. */
  predicate Applies(p: Phase, e: Event) {
    match e
    case Lease(_) => p.Idle?
    case LoadPolicy => p.Missed?
    case LoadState => p.PolicyKnown?
    case Screening(_) => p.StateKnown?
    case Reload => p.Screened?
    case CallOkx(_) => p.Cleared?
    case CallOther(_) => p.Elsewhere?
    case Save(_) => p.Decided?
    case Deliver => p.Reporting?
    case _ => true
  }

  lemma NotApplicable(w: World, e: Event, sha: string -> string)
    requires !Applies(w.phase, e)
    ensures Next(w, e, sha) == w.(time := w.time + 1)
  {
    hide Find, ReadPolicy, ReadState, FirstGate, FinalGate, PrepareOrder, AfterAdapter, AfterOther, Store, Recordable,
      Rejection, Placements, Settled;
  }

  /** Preflight: screening, reload, and the one adapter that is used. */
  function Preflighted(w: World, local: Local, answers: Answers, other: Try<Fields>, sha: string -> string): World {
    hide *;
    Next(Next(Next(Next(w, Screening(local), sha), Reload, sha), CallOkx(answers), sha), CallOther(other), sha)
  }

  /** The calls an attempt added to the trace. */
  function NewCalls(w: World, end: World): seq<Call> {
    if |end.trace| > |w.trace| then end.trace[|w.trace|].calls else []
  }

  /** The world after preflight, for a decision and the calls and book it led to. */
  ghost predicate Reached(w: World, end: World, attempt: Attempt, d: Try<Decision>, calls: seq<Call>,
                          book: map<OrderKey, string>)
  {
    hide *;
    && end.phase == Settled(attempt, d) && end.book == book && NewCalls(w, end) == calls
    && end.policy == w.policy && end.risk == w.risk && end.store == w.store && end.reports == w.reports
    && end.trace == w.trace + (if |end.trace| > |w.trace| then [end.trace[|w.trace|]] else [])
  }

  lemma SettledIsOver(attempt: Attempt, d: Try<Decision>)
    ensures Settled(attempt, d).Decided? || Settled(attempt, d).Idle?
  {
  }

  /** A decision at the first gate. */
  lemma RefusedPath(w: World, local: Local, answers: Answers, other: Try<Fields>, d: Try<Decision>,
                    sha: string -> string)
    requires w.phase.StateKnown?
    requires var gate := FirstGate(w.phase.attempt.command, local, w.phase.first, w.phase.state, sha);
             || (gate.Refused? && d == Rejection(gate.code, gate.reason, gate.extra))
             || (gate.Raises? && d == Crash)
    ensures Reached(w, Preflighted(w, local, answers, other, sha), w.phase.attempt, d, [], w.book)
  {
    hide FirstGate, Rejection, OnLease, OnLoadPolicy, OnLoadState, OnReload, OnCallOkx, OnCallOther, OnSave, OnDeliver,
      UpdatedFile;
    var w1 := Next(w, Screening(local), sha);
    assert w1.phase == Settled(w.phase.attempt, d);
    hide Next;
    var w2, w3 := Next(w1, Reload, sha), Next(Next(w1, Reload, sha), CallOkx(answers), sha);
    NotApplicable(w1, Reload, sha);
    NotApplicable(w2, CallOkx(answers), sha);
    NotApplicable(w3, CallOther(other), sha);
    StepFrame(w, Screening(local), sha);
  }

  /** Another adapter's path. */
  lemma OtherPath(w: World, local: Local, answers: Answers, other: Try<Fields>, sha: string -> string)
    requires w.phase.StateKnown?
    requires FirstGate(w.phase.attempt.command, local, w.phase.first, w.phase.state, sha).ForOther?
    ensures var command := w.phase.attempt.command;
            Reached(w, Preflighted(w, local, answers, other, sha), w.phase.attempt,
                    AfterOther(other, Mode(command), Provider(command)), [], w.book)
  {
    hide FirstGate, AfterOther, Mode, Provider, OnLease, OnLoadPolicy, OnLoadState, OnReload, OnCallOkx, OnSave,
      OnDeliver, UpdatedFile, Settled;
    var w1 := Next(w, Screening(local), sha);
    assert w1.phase == Elsewhere(w.phase.attempt);
    var w2, w3 := Next(w1, Reload, sha), Next(Next(w1, Reload, sha), CallOkx(answers), sha);
    NotApplicable(w1, Reload, sha);
    NotApplicable(w2, CallOkx(answers), sha);
    StepFrame(w, Screening(local), sha);
    StepFrame(w3, CallOther(other), sha);
  }

  /** The world once the first gate has led to an order. */
  ghost predicate ReadyToReload(w: World, w1: World, local: Local, request: Request, sha: string -> string) {
    hide *;
    && w.phase.StateKnown?
    && FirstGate(w.phase.attempt.command, local, w.phase.first, w.phase.state, sha) == ForOrder(request)
    && w1 == Next(w, Screening(local), sha)
  }

  lemma ScreenedNext(w: World, w1: World, local: Local, request: Request, sha: string -> string)
    requires ReadyToReload(w, w1, local, request, sha)
    ensures w1.phase == Screened(Screen(w.phase.attempt, w.phase.first, w.phase.firstAt, w.phase.state, w.phase.stateAt,
                                        local, request))
    ensures w1 == w.(time := w1.time, phase := w1.phase)
  {
    hide FirstGate, OnLease, OnLoadPolicy, OnLoadState, OnReload, OnCallOkx, OnCallOther, OnSave, OnDeliver,
      UpdatedFile;
  }

  /** A decision at the second gate. */
  lemma FinalRefusedPath(w: World, w1: World, local: Local, request: Request, answers: Answers, other: Try<Fields>,
                         d: Try<Decision>, sha: string -> string)
    requires ReadyToReload(w, w1, local, request, sha)
    requires var gate := FinalGate(w.phase.attempt.command, local, ReadPolicy(w.policy), w.phase.state, request);
             || (gate.Refused? && d == Rejection(gate.code, gate.reason, gate.extra))
             || (gate.Raises? && d == Crash)
    ensures Reached(w, Preflighted(w, local, answers, other, sha), w.phase.attempt, d, [], w.book)
  {
    hide FirstGate, FinalGate, ReadPolicy, Rejection, OnLease, OnLoadPolicy, OnLoadState, OnScreening, OnCallOkx,
      OnCallOther, OnSave, OnDeliver, UpdatedFile;
    ScreenedNext(w, w1, local, request, sha);
    var w2 := Next(w1, Reload, sha);
    assert w2.phase == Settled(w.phase.attempt, d);
    hide Next;
    var w3 := Next(w2, CallOkx(answers), sha);
    NotApplicable(w2, CallOkx(answers), sha);
    NotApplicable(w3, CallOther(other), sha);
    StepFrame(w1, Reload, sha);
  }

  /** What the exchange's book is after an attempt's calls. */
  function BookAfter(book: map<OrderKey, string>, calls: seq<Call>, answers: Answers): map<OrderKey, string> {
    if Placements(calls) != [] && answers.accepted
    then book[KeyOf(Placements(calls)[0]) := answers.acceptedId] else book
  }

  /** The order adapter's path. */
  lemma OrderPath(w: World, w1: World, local: Local, request: Request, answers: Answers, other: Try<Fields>,
                  sha: string -> string)
    requires ReadyToReload(w, w1, local, request, sha)
    requires ReadPolicy(w.policy).Ok?
    requires FinalGate(w.phase.attempt.command, local, ReadPolicy(w.policy), w.phase.state, request).ForOrder?
    ensures var run := PrepareOrder(request, answers, sha);
            Reached(w, Preflighted(w, local, answers, other, sha), w.phase.attempt,
                    AfterAdapter(run.outcome, Provider(w.phase.attempt.command)), run.calls,
                    BookAfter(w.book, run.calls, answers))
  {
    hide FirstGate, FinalGate, ReadPolicy, Rejection, OnLease, OnLoadPolicy, OnLoadState, OnScreening, OnCallOkx,
      OnCallOther, OnSave, OnDeliver, UpdatedFile, PrepareOrder, AfterAdapter, Provider, ToPlace, Placements, KeyOf;
    ScreenedNext(w, w1, local, request, sha);
    var w2 := Next(w1, Reload, sha);
    assert w2.phase.Cleared? && w2.phase.screen.request == request && w2.phase.screen.attempt == w.phase.attempt;
    hide Next;
    StepFrame(w1, Reload, sha);
    var w3 := Next(w2, CallOkx(answers), sha);
    StepFrame(w2, CallOkx(answers), sha);
    OkxStep(w2, answers, sha);
    ToPlaceIsPlaced(request, answers, sha);
    SettledIsOver(w.phase.attempt, AfterAdapter(PrepareOrder(request, answers, sha).outcome,
                                                Provider(w.phase.attempt.command)));
    NotApplicable(w3, CallOther(other), sha);
  }

  /** The whole processing of a lease, as events; those that do not apply change nothing. */
  function Processed(w: World, command: Fields, local: Local, answers: Answers, other: Try<Fields>, stamp: string,
                     sha: string -> string): World {
    hide *;
    Next(Next(Preflighted(Loaded(w, command, sha), local, answers, other, sha), Save(stamp), sha), Deliver, sha)
  }

  /** Only the clock has moved. */
  ghost predicate OnlyTime(w: World, v: World) {
    v == w.(time := v.time)
  }

  /** Without an attempt under way, and after a cache hit, nothing happens until the report. */
  lemma InertPreflight(w: World, local: Local, answers: Answers, other: Try<Fields>, stamp: string,
                       sha: string -> string)
    requires w.phase.Idle? || w.phase.Reporting?
    ensures OnlyTime(w, Next(Preflighted(w, local, answers, other, sha), Save(stamp), sha))
  {
    hide Next;
    var w1 := Next(w, Screening(local), sha);
    NotApplicable(w, Screening(local), sha);
    var w2 := Next(w1, Reload, sha);
    NotApplicable(w1, Reload, sha);
    var w3 := Next(w2, CallOkx(answers), sha);
    NotApplicable(w2, CallOkx(answers), sha);
    var w4 := Next(w3, CallOther(other), sha);
    NotApplicable(w3, CallOther(other), sha);
    NotApplicable(w4, Save(stamp), sha);
  }

  /** The attempt after the lease and after each of the reads. */
  function Leased(w: World, command: Fields, sha: string -> string): World {
    hide *;
    Next(w, Lease(command), sha)
  }

  function Loaded(w: World, command: Fields, sha: string -> string): World {
    hide *;
    Next(Next(Leased(w, command, sha), LoadPolicy, sha), LoadState, sha)
  }

  lemma LeasedIsStep(w: World, command: Fields, sha: string -> string)
    ensures OnlyTime(OnLease(w, command), Leased(w, command, sha))
  {
    hide OnLease;
  }

  lemma InertLoads(w: World, command: Fields, sha: string -> string)
    requires Leased(w, command, sha).phase.Idle? || Leased(w, command, sha).phase.Reporting?
    ensures OnlyTime(Leased(w, command, sha), Loaded(w, command, sha))
  {
    hide Next, Leased;
    var w1 := Leased(w, command, sha);
    NotApplicable(w1, LoadPolicy, sha);
    NotApplicable(Next(w1, LoadPolicy, sha), LoadState, sha);
  }

  /** After a miss, the two reads end the attempt or leave it with policy and state. */
  lemma LoadedAfterMiss(w: World, command: Fields, sha: string -> string)
    requires Leased(w, command, sha).phase.Missed?
    ensures var w1, w3 := Leased(w, command, sha), Loaded(w, command, sha);
            && w3 == w1.(time := w3.time, phase := w3.phase)
            && (if ReadPolicy(w1.policy).Ok? && ReadState(w1.risk).Ok?
                then Knows(w3.phase, w1.phase.attempt, ReadPolicy(w1.policy).value, ReadState(w1.risk).value)
                else w3.phase.Idle?)
  {
    hide Leased, ReadPolicy, ReadState, OnLease, OnScreening, OnReload, OnCallOkx, OnCallOther, OnSave, OnDeliver,
      UpdatedFile;
  }

  /** Policy and state have been read for the attempt. */
  ghost predicate Knows(p: Phase, attempt: Attempt, policy: Policy, state: RiskState) {
    p.StateKnown? && p.attempt == attempt && p.first == policy && p.state == state
  }

  /** Saving a decision, and what is left to report. */
  lemma SavedThenReported(w: World, stamp: string, sha: string -> string)
    requires w.phase.Decided?
    ensures var attempt, d := w.phase.attempt, w.phase.decision;
            var put := Store(w.store, attempt.id, d, stamp);
            var end := Next(Next(w, Save(stamp), sha), Deliver, sha);
            if Recordable(attempt, d) && !put.Ok? then end == w.(time := end.time, phase := Idle)
            else end == w.(time := end.time, phase := Idle, reports := w.reports + [Reported(attempt, d)],
                           store := if Recordable(attempt, d) then put.value else w.store)
  {
    hide Store, Recordable, OnLease, OnLoadPolicy, OnLoadState, OnScreening, OnReload, OnCallOkx, OnCallOther,
      UpdatedFile;
  }

  /** Delivering a cached decision; with nothing to report, nothing happens. */
  lemma Delivered(w: World, sha: string -> string)
    requires w.phase.Idle? || w.phase.Reporting?
    ensures var end := Next(w, Deliver, sha);
            end == w.(time := end.time, phase := Idle,
                      reports := if w.phase.Reporting? then w.reports + [Reported(w.phase.attempt, w.phase.decision)]
                                 else w.reports)
  {
    hide OnLease, OnLoadPolicy, OnLoadState, OnScreening, OnReload, OnCallOkx, OnCallOther, OnSave, UpdatedFile;
  }

  /** The events of one lease that is processed without interruption. */
  function Lifetime(command: Fields, local: Local, answers: Answers, other: Try<Fields>, stamp: string): seq<Event> {
    [Lease(command)] + [LoadPolicy] + [LoadState] + [Screening(local)] + [Reload] + [CallOkx(answers)]
    + [CallOther(other)] + [Save(stamp)] + [Deliver]
  }

  lemma ProcessedIsARun(w: World, command: Fields, local: Local, answers: Answers, other: Try<Fields>, stamp: string,
                        sha: string -> string)
    ensures Processed(w, command, local, answers, other, stamp, sha)
         == Exec(w, Lifetime(command, local, answers, other, stamp), sha)
  {
    hide Exec, Next;
    var es := [Lease(command)];
    assert es == [] + [Lease(command)];
    ExecNothing(w, sha);
    ExecNext(w, [], Lease(command), sha);
    ExecNext(w, es, LoadPolicy, sha);
    ExecNext(w, es + [LoadPolicy], LoadState, sha);
    es := es + [LoadPolicy] + [LoadState];
    ExecNext(w, es, Screening(local), sha);
    ExecNext(w, es + [Screening(local)], Reload, sha);
    es := es + [Screening(local)] + [Reload];
    ExecNext(w, es, CallOkx(answers), sha);
    ExecNext(w, es + [CallOkx(answers)], CallOther(other), sha);
    es := es + [CallOkx(answers)] + [CallOther(other)];
    ExecNext(w, es, Save(stamp), sha);
    ExecNext(w, es + [Save(stamp)], Deliver, sha);
  }

  // ----- the program ----------------------------------------------------------------------

  class Executor {
    var policyFile: JsonFile
    const riskFile: RiskStateFile
    const store: LocalExecutionStore
    var reports: seq<Reported>

    constructor (policy: JsonFile, riskFile: RiskStateFile, store: LocalExecutionStore)
      ensures policyFile == policy && this.riskFile == riskFile && this.store == store && reports == []
    {
      policyFile, this.riskFile, this.store, reports := policy, riskFile, store, [];
    }

    /** The files, the book and the reports are those of the state `w`. */
    ghost predicate Shows(w: World, api: OkxApi)
      reads this, riskFile, store, api
    {
      && w.policy == policyFile && w.risk == riskFile.stored && w.store == store.file
      && w.book == api.book && w.reports == reports
    }

    /** The effect of `_capture_and_upload_okx_reconciliation` on this host: the risk file, and only the
        risk file, takes up the snapshot's equity, as the state machine says. */
    method CaptureSnapshot(today: Day, equity: Option<real>, api: OkxApi, sha: string -> string, ghost w: World)
      requires Shows(w, api)
      modifies riskFile
      ensures Shows(Next(w, Capture(Snapshot(today, equity)), sha), api)
    {
      hide Next, UpdatedFile;
      StepFrame(w, Capture(Snapshot(today, equity)), sha);
      var _ := riskFile.Update(today, equity);
    }

    /** `_process_lease_response`: the cache, the two reads, preflight, the store, the report.  The
        files, the book, the calls and the reports end up as the state machine says. */
    method ProcessLeaseResponse(command: Fields, local: Local, api: OkxApi, other: Try<Fields>, stamp: string,
                                sha: string -> string, ghost w: World)
      requires Shows(w, api) && w.phase.Idle?
      modifies this, store, api
      ensures var end := Processed(w, command, local, api.answers, other, stamp, sha);
              Shows(end, api) && end.phase.Idle? && api.calls == old(api.calls) + NewCalls(w, end)
    {
      hide Find, ReadPolicy, ReadState, Preflighted, Next, Leased, Loaded, Store, Recordable, Get;
      ghost var w1, w3 := Leased(w, command, sha), Loaded(w, command, sha);
      LeasedIsStep(w, command, sha);
      var id := Get(command, "id");
      var cached: Try<Option<Decision>> := Crash;
      if id.Str? && id.text != "" {
        cached := store.Get(id.text);
      }
      if !cached.Ok? || cached.value.Some? {
        InertLoads(w, command, sha);
        InertPreflight(w3, local, api.answers, other, stamp, sha);
        Delivered(Next(Preflighted(w3, local, api.answers, other, sha), Save(stamp), sha), sha);
        if cached.Ok? {
          reports := reports + [Reported(Attempt(command, id.text), cached.value.value)];
        }
        return;
      }
      LoadedAfterMiss(w, command, sha);
      var policy := ReadPolicy(policyFile);
      var state := ReadState(riskFile.stored);
      if !policy.Ok? || !state.Ok? {
        InertPreflight(w3, local, api.answers, other, stamp, sha);
        Delivered(Next(Preflighted(w3, local, api.answers, other, sha), Save(stamp), sha), sha);
        return;
      }
      var attempt := Attempt(command, id.text);
      var d := PreflightCommand(attempt, local, policy.value, state.value, api, other, sha, w3);
      RecordAndReport(attempt, d, api, stamp, sha, Preflighted(w3, local, api.answers, other, sha));
    }

    /** The end of `_process_lease_response`. */
    method RecordAndReport(attempt: Attempt, d: Try<Decision>, api: OkxApi, stamp: string, sha: string -> string,
                           ghost w: World)
      requires Shows(w, api) && w.phase == Settled(attempt, d)
      modifies this`reports, store
      ensures var end := Next(Next(w, Save(stamp), sha), Deliver, sha);
              Shows(end, api) && end.phase.Idle? && end.trace == w.trace
    {
      hide Store, Next, Get;
      if !d.Ok? {
        NotApplicable(w, Save(stamp), sha);
        Delivered(Next(w, Save(stamp), sha), sha);
        return;
      }
      SavedThenReported(w, stamp, sha);
      if Recordable(attempt, d.value) {
        var put := store.Put(attempt.id, d.value, stamp);
        if !put.Ok? {
          return;
        }
      }
      reports := reports + [Reported(attempt, d.value)];
    }

    /** `preflight_command`: the decision, and what was asked of the exchange for it. */
    method PreflightCommand(attempt: Attempt, local: Local, policy: Policy, state: RiskState, api: OkxApi,
                            other: Try<Fields>, sha: string -> string, ghost w: World) returns (d: Try<Decision>)
      requires Shows(w, api) && Knows(w.phase, attempt, policy, state)
      modifies api
      ensures var end := Preflighted(w, local, api.answers, other, sha);
              && end.phase == Settled(attempt, d)
              && Shows(end, api) && api.calls == old(api.calls) + NewCalls(w, end)
    {
      hide FirstGate, FinalGate, ReadPolicy, PrepareOrder, AfterAdapter, AfterOther, Rejection, Preflighted, Next,
        Placements, KeyOf, Mode, Provider, Settled;
      var command := attempt.command;
      var gate := FirstGate(command, local, policy, state, sha);
      match gate {
        case Raises =>
          d := Crash;
          RefusedPath(w, local, api.answers, other, d, sha);
        case Refused(code, reason, extra) =>
          d := Rejection(code, reason, extra);
          RefusedPath(w, local, api.answers, other, d, sha);
        case ForOther(_) =>
          d := AfterOther(other, Mode(command), Provider(command));
          OtherPath(w, local, api.answers, other, sha);
        case ForOrder(request) =>
          var final := ReadPolicy(policyFile);
          ghost var w1 := Next(w, Screening(local), sha);
          d := FinishPreflight(attempt, local, request, final, state, api, other, sha, w, w1);
      }
    }

    /** From the reloaded policy on. */
    method FinishPreflight(attempt: Attempt, local: Local, request: Request, final: Try<Policy>, state: RiskState,
                           api: OkxApi, other: Try<Fields>, sha: string -> string, ghost w: World, ghost w1: World)
      returns (d: Try<Decision>)
      requires Shows(w, api) && ReadyToReload(w, w1, local, request, sha)
      requires w.phase.attempt == attempt && w.phase.state == state && final == ReadPolicy(w.policy)
      modifies api
      ensures var end := Preflighted(w, local, api.answers, other, sha);
              && end.phase == Settled(attempt, d)
              && Shows(end, api) && api.calls == old(api.calls) + NewCalls(w, end)
    {
      hide FirstGate, FinalGate, ReadPolicy, PrepareOrder, AfterAdapter, Rejection, Preflighted, Next, Placements,
        KeyOf, Provider, Settled, ReadyToReload;
      var second := FinalGate(attempt.command, local, final, state, request);
      OnlyThreeGates(attempt.command, local, final, state, request);
      if second.ForOrder? {
        FinalGateExactly(attempt.command, local, final, state, request);
        OrderPath(w, w1, local, request, api.answers, other, sha);
        var outcome := PrepareOrderAtExchange(api, request, sha);
        d := AfterAdapter(outcome, Provider(attempt.command));
      } else {
        d := if second.Refused? then Rejection(second.code, second.reason, second.extra) else Crash;
        FinalRefusedPath(w, w1, local, request, api.answers, other, d, sha);
      }
    }
  }

  lemma OnlyThreeGates(command: Fields, local: Local, final: Try<Policy>, state: RiskState, request: Request)
    ensures !FinalGate(command, local, final, state, request).ForOther?
  {
    hide Evaluate, AdapterReady;
  }
}
