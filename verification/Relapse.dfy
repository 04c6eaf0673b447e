/** What the state machine does not promise: a command whose order the exchange holds can be reported
    rejected when it is leased again, because every gate, local or at the exchange, comes before the
    lookup.  When exactly it is, and a history that shows it. */
module Relapse {
  import opened Wrappers
  import opened JsonValues
  import opened OrderRequests
  import opened OkxReplies
  import opened OkxProtection
  import opened OkxAdapter
  import opened Payloads
  import opened Preflight
  import opened ExecutionStore
  import opened Lifecycle
  import opened Executor
  import Acknowledgements
  import Provenance
  import Risk
  import RiskHistory

  // ----- an attempt depends only on the files ---------------------------------------------

  /** The phase without the times at which things were read. */
  function Untimed(p: Phase): Phase {
    match p
    case PolicyKnown(attempt, first, _) => PolicyKnown(attempt, first, 0)
    case StateKnown(attempt, first, _, state, _) => StateKnown(attempt, first, 0, state, 0)
    case Screened(s) => Screened(s.(firstAt := 0, stateAt := 0))
    case Cleared(s, final, _) => Cleared(s.(firstAt := 0, stateAt := 0), final, 0)
    case _ => p
  }

  ghost predicate Alike(w: World, v: World) {
    hide *;
    && Untimed(w.phase) == Untimed(v.phase)
    && w.policy == v.policy && w.risk == v.risk && w.store == v.store
  }

  /** Steps that neither write a file nor report. */
  predicate Reading(e: Event) {
    e.Lease? || e.LoadPolicy? || e.LoadState? || e.Screening? || e.Reload?
  }

  lemma AlikeLease(w: World, v: World, command: Fields)
    requires Alike(w, v)
    ensures Alike(OnLease(w, command), OnLease(v, command))
  {
    hide Find;
  }

  lemma AlikeReads(w: World, v: World)
    requires Alike(w, v)
    ensures Alike(OnLoadPolicy(w), OnLoadPolicy(v)) && Alike(OnLoadState(w), OnLoadState(v))
  {
    hide Risk.ReadPolicy, RiskHistory.ReadState;
  }

  lemma AlikeLoads(w: World, v: World, e: Event, sha: string -> string)
    requires Alike(w, v) && (e.Lease? || e.LoadPolicy? || e.LoadState?)
    ensures Alike(Next(w, e, sha), Next(v, e, sha))
  {
    hide RiskHistory.UpdatedFile, OnLease, OnLoadPolicy, OnLoadState, OnScreening, OnReload, OnCallOkx, OnCallOther,
      OnSave, OnDeliver;
    AlikeReads(w, v);
    if e.Lease? {
      AlikeLease(w, v, e.command);
    }
  }

  lemma AlikeScreening(w: World, v: World, local: Local, sha: string -> string)
    requires Alike(w, v)
    ensures Alike(OnScreening(w, local, sha), OnScreening(v, local, sha))
  {
    hide FirstGate, Rejection, Settled;
    if w.phase.StateKnown? {
      assert FirstGate(w.phase.attempt.command, local, w.phase.first, w.phase.state, sha)
          == FirstGate(v.phase.attempt.command, local, v.phase.first, v.phase.state, sha);
    }
  }

  lemma AlikeReload(w: World, v: World)
    requires Alike(w, v)
    ensures Alike(OnReload(w), OnReload(v))
  {
    hide Risk.ReadPolicy, FinalGate, Rejection, Settled;
    if w.phase.Screened? {
      var s, t := w.phase.screen, v.phase.screen;
      assert s.attempt == t.attempt && s.local == t.local && s.state == t.state && s.request == t.request;
    }
  }

  lemma AlikeGates(w: World, v: World, e: Event, sha: string -> string)
    requires Alike(w, v) && (e.Screening? || e.Reload?)
    ensures Alike(Next(w, e, sha), Next(v, e, sha))
  {
    hide RiskHistory.UpdatedFile, OnLease, OnLoadPolicy, OnLoadState, OnScreening, OnReload, OnCallOkx, OnCallOther,
      OnSave, OnDeliver;
    if e.Screening? {
      AlikeScreening(w, v, e.local, sha);
    } else {
      AlikeReload(w, v);
    }
  }

  /** Worlds with the same files and phase go on alike. */
  lemma AlikeStep(w: World, v: World, e: Event, sha: string -> string)
    requires Alike(w, v) && Reading(e)
    ensures Alike(Next(w, e, sha), Next(v, e, sha))
  {
    hide Next, Alike;
    if e.Screening? || e.Reload? {
      AlikeGates(w, v, e, sha);
    } else {
      AlikeLoads(w, v, e, sha);
    }
  }

  lemma {:induction false} AlikeRuns(w: World, v: World, es: seq<Event>, sha: string -> string)
    requires Alike(w, v) && forall e | e in es :: Reading(e)
    ensures Alike(Exec(w, es, sha), Exec(v, es, sha))
  {
    hide Exec, Next, Alike;
    if es == [] {
      ExecNothing(w, sha);
      ExecNothing(v, sha);
    } else {
      var past, e := es[..|es| - 1], es[|es| - 1];
      assert es == past + [e];
      AlikeRuns(w, v, past, sha);
      ExecNext(w, past, e, sha);
      ExecNext(v, past, e, sha);
      AlikeStep(Exec(w, past, sha), Exec(v, past, sha), e, sha);
    }
  }

  /** Nothing but the phase and the clock differs. */
  ghost predicate OnlyPhase(w: World, v: World) {
    v == w.(time := v.time, phase := v.phase)
  }

  lemma {:induction false} ReadingRun(w: World, es: seq<Event>, sha: string -> string)
    requires forall e | e in es :: Reading(e)
    ensures OnlyPhase(w, Exec(w, es, sha))
  {
    hide Exec, Next;
    if es == [] {
      ExecNothing(w, sha);
    } else {
      var past, e := es[..|es| - 1], es[|es| - 1];
      assert es == past + [e];
      assert e in es;
      ReadingRun(w, past, sha);
      ExecNext(w, past, e, sha);
      StepFrame(Exec(w, past, sha), e, sha);
    }
  }

  lemma {:induction false} ExecConcat(w: World, a: seq<Event>, b: seq<Event>, sha: string -> string)
    ensures Exec(w, a + b, sha) == Exec(Exec(w, a, sha), b, sha)
    decreases |b|
  {
    hide Exec, Next;
    if b == [] {
      assert a + b == a;
      ExecNothing(Exec(w, a, sha), sha);
    } else {
      var past, e := b[..|b| - 1], b[|b| - 1];
      assert a + b == (a + past) + [e] && b == past + [e];
      ExecConcat(w, a, past, sha);
      ExecNext(w, a + past, e, sha);
      ExecNext(Exec(w, a, sha), past, e, sha);
    }
  }

  // ----- accepted, then rejected ----------------------------------------------------------

  /** One lease of a command, up to the adapter. */
  function Climb(command: Fields, local: Local): seq<Event> {
    [Lease(command), LoadPolicy, LoadState, Screening(local), Reload]
  }

  /** The command is leased and gets through to the adapter; the exchange accepts the order, but the
      answer is lost.  The command is leased again; this time the account answer fails the gates. */
  function AcceptedThenRefused(command: Fields, local: Local, lost: Answers, refusing: Answers, stamp: string)
    : seq<Event>
  {
    Climb(command, local) + [CallOkx(lost)] + Climb(command, local) + [CallOkx(refusing)] + [Save(stamp)] + [Deliver]
  }

  /** The run reaches the adapter, the order is accepted there, and no answer arrives. */
  ghost predicate AcceptedUnheard(w: World, command: Fields, local: Local, lost: Answers, sha: string -> string) {
    hide *;
    var cleared := Exec(w, Climb(command, local), sha);
    && w.phase.Idle? && cleared.phase.Cleared?
    && ToPlace(cleared.phase.screen.request, lost, sha).Some?
    && lost.accepted && lost.place.Raised?
  }

  /** The last report rejects a command whose order the book holds. */
  ghost predicate RejectedThoughAccepted(w: World, command: Fields) {
    && w.reports != [] && w.accepted != []
    && var report := w.reports[|w.reports| - 1];
    report.attempt.command == command && report.decision.status == "rejected"
    && exists i | 0 <= i < |w.accepted| :: w.accepted[i].attempt == report.attempt && w.accepted[i].key in w.book
  }

  lemma LostAnswerCrashes(request: Request, lost: Answers, sha: string -> string)
    requires ToPlace(request, lost, sha).Some? && lost.place.Raised?
    ensures PrepareOrder(request, lost, sha).outcome == Crash
  {
    hide PassGates, Lookup, Finish, Checked, OkxOrders.RulesOk;
    assert PlaceAnswer(lost) == Crash;
  }

  lemma RefusedAccountRejects(request: Request, refusing: Answers, sha: string -> string)
    requires AccountAnswer(refusing).ValueError? && request.provider == "okx" && request.executionMode == "real"
    ensures PrepareOrder(request, refusing, sha).outcome.ValueError?
    ensures ToPlace(request, refusing, sha).None?
  {
    hide AccountAnswer, Lookup;
  }

  /** The first lease leaves the order in the book and the loop idle. */
  lemma FirstLease(w: World, command: Fields, local: Local, lost: Answers, sha: string -> string)
    requires AcceptedUnheard(w, command, local, lost, sha)
    ensures LeftBehind(w, Exec(w, Climb(command, local) + [CallOkx(lost)], sha),
                       Exec(w, Climb(command, local), sha).phase, lost, sha)
  {
    hide Exec, Next, ToPlace, PrepareOrder, AfterAdapter, Provider, KeyOf;
    var cleared := Exec(w, Climb(command, local), sha);
    ReadingRun(w, Climb(command, local), sha);
    ExecNext(w, Climb(command, local), CallOkx(lost), sha);
    StepFrame(cleared, CallOkx(lost), sha);
    OkxStep(cleared, lost, sha);
    LostAnswerCrashes(cleared.phase.screen.request, lost, sha);
    Acknowledgements.CrashSettles(cleared.phase.screen.attempt, Provider(cleared.phase.screen.attempt.command));
  }

  ghost predicate LeftBehind(w: World, next: World, cleared: Phase, lost: Answers, sha: string -> string) {
    hide *;
    && next.phase.Idle? && next.policy == w.policy && next.risk == w.risk && next.store == w.store
    && next.reports == w.reports
    && cleared.Cleared? && next.accepted != []
    && next.accepted[|next.accepted| - 1].attempt == cleared.screen.attempt
    && next.accepted[|next.accepted| - 1].key in next.book
  }

  /** The attempt on its way to the exchange is for this command. */
  ghost predicate For(p: Phase, command: Fields) {
    && (p.Missed? || p.PolicyKnown? || p.StateKnown? ==> p.attempt.command == command)
    && (p.Screened? || p.Cleared? ==> p.screen.attempt.command == command)
  }

  lemma {:induction false} ClimbFor(w: World, es: seq<Event>, command: Fields, sha: string -> string)
    requires w.phase.Idle? && forall e | e in es :: Reading(e) && (e.Lease? ==> e.command == command)
    ensures For(Exec(w, es, sha).phase, command)
  {
    hide Exec, Next, FirstGate, FinalGate, Find, Risk.ReadPolicy, RiskHistory.ReadState;
    if es == [] {
      ExecNothing(w, sha);
    } else {
      var past, e := es[..|es| - 1], es[|es| - 1];
      assert es == past + [e];
      ClimbFor(w, past, command, sha);
      ExecNext(w, past, e, sha);
      StepAdvances(Exec(w, past, sha), e, sha);
    }
  }

  lemma ClimbReads(command: Fields, local: Local)
    ensures forall e | e in Climb(command, local) ::
              Reading(e) && (e.Lease? ==> e.command == command)
  {
  }

  /** The second lease gets as far as the first. */
  lemma SecondLease(w: World, left: World, command: Fields, local: Local, sha: string -> string)
    requires w.phase.Idle? && left.phase.Idle?
    requires left.policy == w.policy && left.risk == w.risk && left.store == w.store
    ensures Untimed(Exec(left, Climb(command, local), sha).phase) == Untimed(Exec(w, Climb(command, local), sha).phase)
    ensures OnlyPhase(left, Exec(left, Climb(command, local), sha))
    ensures For(Exec(w, Climb(command, local), sha).phase, command)
  {
    hide Exec, Climb;
    ClimbReads(command, local);
    AlikeRuns(w, left, Climb(command, local), sha);
    ReadingRun(left, Climb(command, local), sha);
    ClimbFor(w, Climb(command, local), command, sha);
  }

  ghost predicate AboutToBeRefused(w: World, command: Fields, refusing: Answers) {
    hide *;
    && w.phase.Cleared? && w.phase.screen.attempt.command == command
    && w.phase.screen.request.provider == "okx" && w.phase.screen.request.executionMode == "real"
    && AccountAnswer(refusing).ValueError?
    && w.accepted != []
    && w.accepted[|w.accepted| - 1].attempt == w.phase.screen.attempt
    && w.accepted[|w.accepted| - 1].key in w.book
  }

  lemma RefusedStep(w: World, command: Fields, refusing: Answers, sha: string -> string)
    requires AboutToBeRefused(w, command, refusing)
    ensures DecidedAgainst(Next(w, CallOkx(refusing), sha), command)
  {
    hide Next, ToPlace, PrepareOrder, AfterAdapter, AccountAnswer, Provider, KeyOf;
    StepFrame(w, CallOkx(refusing), sha);
    OkxStep(w, refusing, sha);
    var request := w.phase.screen.request;
    RefusedAccountRejects(request, refusing, sha);
    DecisionFollowsAdapter(PrepareOrder(request, refusing, sha).outcome, Provider(w.phase.screen.attempt.command));
  }

  ghost predicate DecidedAgainst(w: World, command: Fields) {
    hide *;
    && w.phase.Decided? && w.phase.attempt.command == command && w.phase.decision.status == "rejected"
    && w.accepted != []
    && w.accepted[|w.accepted| - 1].attempt == w.phase.attempt
    && w.accepted[|w.accepted| - 1].key in w.book
  }

  lemma DeliverRefusal(w: World, command: Fields, stamp: string, sha: string -> string)
    requires DecidedAgainst(w, command)
    ensures RejectedThoughAccepted(Next(Next(w, Save(stamp), sha), Deliver, sha), command)
  {
    hide OnLease, OnLoadPolicy, OnLoadState, OnScreening, OnReload, OnCallOther, OnCallOkx, Get, Store,
      RiskHistory.UpdatedFile;
  }

  lemma ReadyAgain(w: World, left: World, again: World, command: Fields, local: Local, lost: Answers, refusing: Answers,
                   sha: string -> string)
    requires AcceptedUnheard(w, command, local, lost, sha) && AccountAnswer(refusing).ValueError?
    requires var cleared := Exec(w, Climb(command, local), sha).phase;
             && LeftBehind(w, left, cleared, lost, sha) && For(cleared, command)
             && Untimed(again.phase) == Untimed(cleared) && OnlyPhase(left, again)
    ensures AboutToBeRefused(again, command, refusing)
  {
    hide Exec, AccountAnswer, ToPlace, Climb;
    PlacedRequest(Exec(w, Climb(command, local), sha).phase.screen.request, lost, sha);
  }

  lemma PlacedRequest(request: Request, lost: Answers, sha: string -> string)
    requires ToPlace(request, lost, sha).Some?
    ensures request.provider == "okx" && request.executionMode == "real"
  {
    hide PassGates, OkxOrders.OrderParams, Lookup, OkxOrders.RulesOk;
    GatesSound(request, lost, sha);
  }

  /** Every such history ends with the command reported rejected while its order is in the book. */
  lemma AcceptedThenRejected(w: World, command: Fields, local: Local, lost: Answers, refusing: Answers, stamp: string,
                             sha: string -> string)
    requires AcceptedUnheard(w, command, local, lost, sha) && AccountAnswer(refusing).ValueError?
    ensures RejectedThoughAccepted(Exec(w, AcceptedThenRefused(command, local, lost, refusing, stamp), sha), command)
  {
    hide Exec, Next, AccountAnswer, RejectedThoughAccepted, AboutToBeRefused, DecidedAgainst, Climb, ToPlace, Untimed,
      OnlyPhase, For;
    FirstLease(w, command, local, lost, sha);
    var climb := Climb(command, local);
    var first := climb + [CallOkx(lost)];
    var left := Exec(w, first, sha);
    SecondLease(w, left, command, local, sha);
    ExecConcat(w, first, climb, sha);
    var second := first + climb;
    ReadyAgain(w, left, Exec(w, second, sha), command, local, lost, refusing, sha);
    RefusedStep(Exec(w, second, sha), command, refusing, sha);
    ExecNext(w, second, CallOkx(refusing), sha);
    DeliverRefusal(Exec(w, second + [CallOkx(refusing)], sha), command, stamp, sha);
    ExecNext(w, second + [CallOkx(refusing)], Save(stamp), sha);
    ExecNext(w, second + [CallOkx(refusing)] + [Save(stamp)], Deliver, sha);
  }

  // ----- exactly when it is rejected again ------------------------------------------------

  /** The order of the command is in the book; nothing is stored for it; the files can be read. */
  ghost predicate Held(w: World, command: Fields, sha: string -> string) {
    hide *;
    && w.phase.Idle? && Get(command, "id").Str? && Get(command, "id").text != ""
    && Find(w.store, Get(command, "id").text) == Ok(None)
    && Risk.ReadPolicy(w.policy).Ok? && RiskHistory.ReadState(w.risk).Ok?
    && CommandKey(command, sha).Some? && CommandKey(command, sha).value in w.book
  }

  /** If the lease gets to the lookup, the lookup is truthful about that order. */
  ghost predicate HeldTruthfully(w: World, command: Fields, answers: Answers, sha: string -> string) {
    hide *;
    Held(w, command, sha) && CommandKey(command, sha).Some?
    && TruthfulLookup(w, CommandKey(command, sha).value, answers)
  }

  /** One of the gates refuses: a local one at first, a local one after the policy is reloaded, or one
      at the exchange.  (A command for another adapter is rejected by that adapter's outcome.) */
  ghost predicate RefusedByGate(w: World, command: Fields, local: Local, answers: Answers, other: Try<Fields>,
                                sha: string -> string)
  {
    hide *;
    && Risk.ReadPolicy(w.policy).Ok? && RiskHistory.ReadState(w.risk).Ok?
    && var policy, state := Risk.ReadPolicy(w.policy).value, RiskHistory.ReadState(w.risk).value;
    var first := FirstGate(command, local, policy, state, sha);
    (|| first.Refused?
     || (first.ForOrder? && FinalGate(command, local, Ok(policy), state, first.request).Refused?)
     || (&& first.ForOrder? && FinalGate(command, local, Ok(policy), state, first.request).ForOrder?
         && PassGates(first.request, answers, sha).outcome.ValueError?)
     || (first.ForOther? && IsRejection(AfterOther(other, Mode(command), Provider(command)))))
  }

  ghost predicate IsRejection(d: Try<Decision>) {
    d.Ok? && d.value.status == "rejected"
  }

  /** The lease ends with the report that the command is rejected. */
  ghost predicate ReportsRejection(w: World, end: World, command: Fields) {
    && Get(command, "id").Str?
    && |end.reports| == |w.reports| + 1 && w.reports <= end.reports
    && end.reports[|w.reports|].attempt == Attempt(command, Get(command, "id").text)
    && end.reports[|w.reports|].decision.status == "rejected"
  }

  /** The decision of preflight, as a function of what the gates say. */
  ghost function DecisionOf(w: World, local: Local, answers: Answers, other: Try<Fields>, sha: string -> string)
    : Try<Decision>
  {
    hide *;
    if !w.phase.StateKnown? then Crash
    else
      var command, p := w.phase.attempt.command, w.phase;
      match FirstGate(command, local, p.first, p.state, sha)
      case Raises => Crash
      case Refused(code, reason, extra) => Rejection(code, reason, extra)
      case ForOther(_) => AfterOther(other, Mode(command), Provider(command))
      case ForOrder(request) =>
        match FinalGate(command, local, Risk.ReadPolicy(w.policy), p.state, request)
        case Refused(code, reason, extra) => Rejection(code, reason, extra)
        case ForOrder(_) => AfterAdapter(PrepareOrder(request, answers, sha).outcome, Provider(command))
        case _ => Crash
  }

  lemma PreflightDecides(w: World, local: Local, answers: Answers, other: Try<Fields>, sha: string -> string)
    requires w.phase.StateKnown?
    ensures PreflightEnds(w, Preflighted(w, local, answers, other, sha), DecisionOf(w, local, answers, other, sha))
  {
    hide FirstGate, FinalGate, Rejection, AfterOther, AfterAdapter, PrepareOrder, Preflighted, Next, Settled,
      Placements,
      KeyOf, Mode, Provider, Risk.ReadPolicy;
    var command, p := w.phase.attempt.command, w.phase;
    var first := FirstGate(command, local, p.first, p.state, sha);
    var d := DecisionOf(w, local, answers, other, sha);
    if first.Refused? || first.Raises? {
      RefusedPath(w, local, answers, other, d, sha);
    } else if first.ForOther? {
      OtherPath(w, local, answers, other, sha);
    } else {
      var w1 := Next(w, Screening(local), sha);
      var final := Risk.ReadPolicy(w.policy);
      OnlyThreeGates(command, local, final, p.state, first.request);
      if FinalGate(command, local, final, p.state, first.request).ForOrder? {
        FinalGateExactly(command, local, final, p.state, first.request);
        OrderPath(w, w1, local, first.request, answers, other, sha);
      } else {
        FinalRefusedPath(w, w1, local, first.request, answers, other, d, sha);
      }
    }
  }

  ghost predicate PreflightEnds(w: World, end: World, d: Try<Decision>) {
    hide *;
    w.phase.StateKnown? && end.phase == Settled(w.phase.attempt, d) && end.reports == w.reports
  }

  /** What is reported after a decision: a rejection is, and nothing else reports one. */
  lemma RejectionIsReported(w: World, attempt: Attempt, d: Try<Decision>, stamp: string, sha: string -> string)
    requires w.phase == Settled(attempt, d) && Get(attempt.command, "id") == Str(attempt.id)
    ensures ReportsRejection(w, Next(Next(w, Save(stamp), sha), Deliver, sha), attempt.command) <==> IsRejection(d)
  {
    hide Next, Store, Get;
    if d.Ok? {
      SavedThenReported(w, stamp, sha);
    } else {
      NotApplicable(w, Save(stamp), sha);
      Delivered(Next(w, Save(stamp), sha), sha);
    }
  }

  /** The adapter, asked about an order the book holds, refuses only if an exchange gate does. */
  lemma AdapterRefusesExactly(request: Request, answers: Answers, provider: string, sha: string -> string)
    requires Lookup(answers.lookup) != Ok(None)
    ensures IsRejection(AfterAdapter(PrepareOrder(request, answers, sha).outcome, provider))
            <==> PassGates(request, answers, sha).outcome.ValueError?
  {
    hide PassGates, PrepareOrder, Lookup, PlaceAnswer, OrdId, AfterAdapter, AdapterPayload, Get;
    RejectedExactly(request, answers, sha);
    var outcome := PrepareOrder(request, answers, sha).outcome;
    if outcome.Crash? {
      NothingAfterCrash(provider);
    } else {
      DecisionFollowsAdapter(outcome, provider);
    }
  }

  lemma NothingAfterCrash(provider: string)
    ensures AfterAdapter(Crash, provider) == Crash
  {
  }

  /** Policy and state are those of the files. */
  ghost predicate ReadFrom(w: World, v: World, command: Fields) {
    hide *;
    && Risk.ReadPolicy(w.policy).Ok? && RiskHistory.ReadState(w.risk).Ok?
    && v.policy == w.policy && v.reports == w.reports && Get(command, "id").Str?
    && Knows(v.phase, Attempt(command, Get(command, "id").text), Risk.ReadPolicy(w.policy).value,
             RiskHistory.ReadState(w.risk).value)
  }

  lemma GatesSayRejection(w: World, v: World, command: Fields, local: Local, answers: Answers, other: Try<Fields>,
                          sha: string -> string)
    requires HeldTruthfully(w, command, answers, sha) && ReadFrom(w, v, command)
    ensures IsRejection(DecisionOf(v, local, answers, other, sha))
            <==> RefusedByGate(w, command, local, answers, other, sha)
  {
    hide FirstGate, FinalGate, Rejection, AfterOther, AfterAdapter, PrepareOrder, PassGates, Mode, Provider, Lookup,
      Risk.ReadPolicy, RiskHistory.ReadState, CommandKey, OrdId, Find, Get;
    var p := v.phase;
    var final := Risk.ReadPolicy(v.policy);
    var first := FirstGate(command, local, p.first, p.state, sha);
    if first.ForOrder? {
      RefusalsGetOut(command, local, p.first, p.state, final, first.request, sha);
      OnlyThreeGates(command, local, final, p.state, first.request);
      AdapterRefusesExactly(first.request, answers, Provider(command), sha);
    } else if first.Refused? {
      RefusalGetsOutFirst(command, local, p.first, p.state, sha);
    }
  }

  lemma RefusalGetsOutFirst(command: Fields, local: Local, policy: Risk.Policy, state: Risk.RiskState,
                            sha: string -> string)
    ensures RefusalGetsOut(FirstGate(command, local, policy, state, sha))
  {
    hide FirstGate, FinalGate, RefusalGetsOut;
    var request: Request :| true;
    RefusalsGetOut(command, local, policy, state, Ok(policy), request, sha);
  }

  /** After the lease and the reads, everything is as the files say. */
  lemma LeaseReads(w: World, command: Fields, sha: string -> string)
    requires Held(w, command, sha)
    ensures ReadFrom(w, Loaded(w, command, sha), command)
  {
    hide Leased, Loaded, Risk.ReadPolicy, RiskHistory.ReadState, CommandKey, Find;
    LeasedIsStep(w, command, sha);
    LoadedAfterMiss(w, command, sha);
  }

  /** A command whose order the exchange holds, and that is leased again without a stored result, is
      reported rejected exactly when one of the gates before the lookup refuses it. */
  lemma RejectedAgainExactly(w: World, command: Fields, local: Local, answers: Answers, other: Try<Fields>,
                             stamp: string, sha: string -> string)
    requires HeldTruthfully(w, command, answers, sha)
    ensures ReportsRejection(w, Processed(w, command, local, answers, other, stamp, sha), command)
            <==> RefusedByGate(w, command, local, answers, other, sha)
  {
    hide Held, Loaded, Preflighted, DecisionOf, RefusedByGate, IsRejection, Next, Settled, TruthfulLookup, CommandKey,
      Get,
      Risk.ReadPolicy, RiskHistory.ReadState;
    LeaseReads(w, command, sha);
    var v := Loaded(w, command, sha);
    PreflightDecides(v, local, answers, other, sha);
    GatesSayRejection(w, v, command, local, answers, other, sha);
    RejectionIsReported(Preflighted(v, local, answers, other, sha), v.phase.attempt,
                        DecisionOf(v, local, answers, other, sha), stamp, sha);
  }

  /** For instance, a kill switch set after the order was accepted, whatever the exchange would answer. */
  lemma StoppedPolicyRejectsHeldOrder(w: World, command: Fields, local: Local, answers: Answers, other: Try<Fields>,
                                      stamp: string, sha: string -> string)
    requires HeldTruthfully(w, command, answers, sha) && Mode(command) == "real" && Provenance.Stopped(w)
    ensures ReportsRejection(w, Processed(w, command, local, answers, other, stamp, sha), command)
  {
    hide Processed, ReportsRejection, TruthfulLookup, FirstGate, FinalGate, Mode, Risk.ReadPolicy,
      RiskHistory.ReadState,
      CommandKey, Find, Get, PassGates;
    RejectedAgainExactly(w, command, local, answers, other, stamp, sha);
    NotLiveIsRefused(command, local, Risk.ReadPolicy(w.policy).value, RiskHistory.ReadState(w.risk).value, sha);
  }

  // ----- step by step, whatever comes in between ------------------------------------------

  /** Screening rejects exactly when the first gate refuses. */
  lemma ScreeningRejectsExactly(w: World, local: Local, sha: string -> string)
    requires w.phase.StateKnown?
    ensures Acknowledgements.EndsRejected(Next(w, Screening(local), sha))
            <==> FirstGate(w.phase.attempt.command, local, w.phase.first, w.phase.state, sha).Refused?
  {
    hide FirstGate, Rejection, OnLease, OnLoadPolicy, OnLoadState, OnReload, OnCallOkx, OnCallOther, OnSave, OnDeliver,
      RiskHistory.UpdatedFile;
    RefusalGetsOutFirst(w.phase.attempt.command, local, w.phase.first, w.phase.state, sha);
  }

  /** The reload rejects exactly when the second gate refuses on the policy then on disk, a stopped or
      an unreadable one for instance. */
  lemma ReloadRejectsExactly(w: World, sha: string -> string)
    requires w.phase.Screened?
    ensures var s := w.phase.screen;
            Acknowledgements.EndsRejected(Next(w, Reload, sha))
            <==> FinalGate(s.attempt.command, s.local, Risk.ReadPolicy(w.policy), s.state, s.request).Refused?
  {
    hide FirstGate, FinalGate, Rejection, OnLease, OnLoadPolicy, OnLoadState, OnScreening, OnCallOkx, OnCallOther,
      OnSave,
      OnDeliver, RiskHistory.UpdatedFile, Risk.ReadPolicy;
    var s := w.phase.screen;
    RefusalsGetOut(s.attempt.command, s.local, s.first, s.state, Risk.ReadPolicy(w.policy), s.request, sha);
  }

  /** The adapter, unless the lookup misses, rejects exactly when a gate at the exchange refuses. */
  lemma CallRejectsExactly(w: World, answers: Answers, sha: string -> string)
    requires w.phase.Cleared? && Lookup(answers.lookup) != Ok(None)
    ensures Acknowledgements.EndsRejected(Next(w, CallOkx(answers), sha))
            <==> PassGates(w.phase.screen.request, answers, sha).outcome.ValueError?
  {
    hide Next, PassGates, PrepareOrder, AfterAdapter, Lookup, ToPlace, KeyOf, Provider;
    OkxStep(w, answers, sha);
    AdapterRefusesExactly(w.phase.screen.request, answers, Provider(w.phase.screen.attempt.command), sha);
    hide OkxEffect;
  }
}
