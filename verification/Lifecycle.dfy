/** The life of leased commands as a state machine: one lease loop (`cli.py`), interleaved with
    policy edits, reconciliation snapshots and crashes, against an exchange that keeps orders. */
module Lifecycle {
  import opened Wrappers
  import opened JsonValues
  import opened Risk
  import opened RiskHistory
  import opened OrderRequests
  import opened OkxOrders
  import opened OkxReplies
  import opened OkxProtection
  import opened OkxAdapter
  import opened Payloads
  import opened Preflight
  import opened ExecutionStore

  // ----- the state ------------------------------------------------------------------------

  datatype Attempt = Attempt(command: Fields, id: string)

  /** An attempt that passed the first gate, with what was read for it, and when. */
  datatype Screen = Screen(
    attempt: Attempt, first: Policy, firstAt: nat, state: RiskState, stateAt: nat,
    local: Local, request: Request)

  /** How far the current attempt has come; all of it is lost in a crash. */
  datatype Phase =
    | Idle
    | Missed(attempt: Attempt)
    | PolicyKnown(attempt: Attempt, first: Policy, firstAt: nat)
    | StateKnown(attempt: Attempt, first: Policy, firstAt: nat, state: RiskState, stateAt: nat)
    | Screened(screen: Screen)
    | Cleared(screen: Screen, final: Policy, finalAt: nat)
    | Elsewhere(attempt: Attempt)
    | Decided(attempt: Attempt, decision: Decision)
    | Reporting(attempt: Attempt, decision: Decision)

  datatype Acceptance = Acceptance(attempt: Attempt, key: OrderKey)

  datatype Placement = Placement(
    screen: Screen, final: Policy, finalAt: nat, at: nat, answers: Answers, params: Params)

  datatype Reported = Reported(attempt: Attempt, decision: Decision)

  datatype Traced = Traced(attempt: Attempt, calls: seq<Call>)

  /** Files (`policy`, `risk`, `store`) and the exchange's order book survive a crash.  `history`,
      `accepted`, `placements`, `trace` and `reports` record what has happened so far. */
  datatype World = World(
    time: nat,
    policy: JsonFile, risk: Option<RiskState>, store: JsonFile, book: map<OrderKey, string>,
    phase: Phase,
    history: seq<Snapshot>, accepted: seq<Acceptance>, placements: seq<Placement>,
    trace: seq<Traced>, reports: seq<Reported>)

  datatype Event =
    | Lease(command: Fields)
    | LoadPolicy
    | LoadState
    | Screening(local: Local)
    | Reload
    | CallOkx(answers: Answers)
    | CallOther(result: Try<Fields>)
    | Save(stamp: string)
    | Deliver
    | Abort
    | EditPolicy(edited: JsonFile)
    | Capture(snapshot: Snapshot)

  ghost predicate Start(w: World) {
    && w.time == 0 && w.risk.None? && w.store.Absent? && w.book == map[] && w.phase.Idle?
    && w.history == [] && w.accepted == [] && w.placements == [] && w.trace == [] && w.reports == []
  }

  // ----- the steps ------------------------------------------------------------------------

  /** `_process_lease_response`, up to the cache lookup. */
  function OnLease(w: World, command: Fields): World {
    var id := Get(command, "id");
    if !w.phase.Idle? || !id.Str? || id.text == "" then w
    else
      match Find(w.store, id.text)
      case Ok(Some(d)) => w.(phase := Reporting(Attempt(command, id.text), d))
      case Ok(None) => w.(phase := Missed(Attempt(command, id.text)))
      case _ => w
  }

  function OnLoadPolicy(w: World): World {
    if !w.phase.Missed? then w
    else
      match ReadPolicy(w.policy)
      case Ok(policy) => w.(phase := PolicyKnown(w.phase.attempt, policy, w.time))
      case _ => w.(phase := Idle)
  }

  function OnLoadState(w: World): World {
    if !w.phase.PolicyKnown? then w
    else
      match ReadState(w.risk)
      case Ok(state) => w.(phase := StateKnown(w.phase.attempt, w.phase.first, w.phase.firstAt, state, w.time))
      case _ => w.(phase := Idle)
  }

  /** A decision is made, or the attempt is over. */
  function Settled(attempt: Attempt, d: Try<Decision>): Phase {
    if d.Ok? then Decided(attempt, d.value) else Idle
  }

  function OnScreening(w: World, local: Local, sha: string -> string): World {
    hide *;
    if !w.phase.StateKnown? then w
    else
      var p := w.phase;
      match FirstGate(p.attempt.command, local, p.first, p.state, sha)
      case Raises => w.(phase := Idle)
      case Refused(code, reason, extra) => w.(phase := Settled(p.attempt, Rejection(code, reason, extra)))
      case ForOther(_) => w.(phase := Elsewhere(p.attempt))
      case ForOrder(request) =>
        w.(phase := Screened(Screen(p.attempt, p.first, p.firstAt, p.state, p.stateAt, local, request)))
  }

  function OnReload(w: World): World {
    hide *;
    if !w.phase.Screened? then w
    else
      var s := w.phase.screen;
      var final := ReadPolicy(w.policy);
      match FinalGate(s.attempt.command, s.local, final, s.state, s.request)
      case ForOrder(_) => if final.Ok? then w.(phase := Cleared(s, final.value, w.time)) else w.(phase := Idle)
      case Refused(code, reason, extra) => w.(phase := Settled(s.attempt, Rejection(code, reason, extra)))
      case _ => w.(phase := Idle)
  }

  /** The adapter runs.  An accepted order is in the book whatever becomes of the answer. */
  function OnCallOkx(w: World, answers: Answers, sha: string -> string): World {
    hide *;
    if !w.phase.Cleared? then w
    else
      var s := w.phase.screen;
      var run := PrepareOrder(s.request, answers, sha);
      var placed := Placements(run.calls);
      var called := w.(
      phase := Settled(s.attempt, AfterAdapter(run.outcome, Provider(s.attempt.command))),
      trace := w.trace + [Traced(s.attempt, run.calls)]);
      if placed == [] then called
      else
        var noted := called.(placements := w.placements
        + [Placement(s, w.phase.final, w.phase.finalAt, w.time, answers, placed[0])]);
        if !answers.accepted then noted
        else noted.(book := w.book[KeyOf(placed[0]) := answers.acceptedId],
                    accepted := w.accepted + [Acceptance(s.attempt, KeyOf(placed[0]))])
  }

  function OnCallOther(w: World, result: Try<Fields>): World {
    if !w.phase.Elsewhere? then w
    else
      var command := w.phase.attempt.command;
      w.(phase := Settled(w.phase.attempt, AfterOther(result, Mode(command), Provider(command))))
  }

  /** The result of a real command is recorded only if it was acknowledged. */
  predicate Recordable(attempt: Attempt, d: Decision) {
    Get(attempt.command, "executionMode") == Str("real") && d.status == "acknowledged"
  }

  function OnSave(w: World, stamp: string): World {
    if !w.phase.Decided? then w
    else
      var attempt, d := w.phase.attempt, w.phase.decision;
      if !Recordable(attempt, d) then w.(phase := Reporting(attempt, d))
      else
        match Store(w.store, attempt.id, d, stamp)
        case Ok(store) => w.(store := store, phase := Reporting(attempt, d))
        case _ => w.(phase := Idle)
  }

  function OnDeliver(w: World): World {
    if !w.phase.Reporting? then w
    else w.(reports := w.reports + [Reported(w.phase.attempt, w.phase.decision)], phase := Idle)
  }

  function Step(w: World, e: Event, sha: string -> string): World {
    match e
    case Lease(command) => OnLease(w, command)
    case LoadPolicy => OnLoadPolicy(w)
    case LoadState => OnLoadState(w)
    case Screening(local) => OnScreening(w, local, sha)
    case Reload => OnReload(w)
    case CallOkx(answers) => OnCallOkx(w, answers, sha)
    case CallOther(result) => OnCallOther(w, result)
    case Save(stamp) => OnSave(w, stamp)
    case Deliver => OnDeliver(w)
    case Abort => w.(phase := Idle)
    case EditPolicy(edited) => w.(policy := edited)
    case Capture(snapshot) => w.(risk := UpdatedFile(w.risk, snapshot), history := w.history + [snapshot])
  }

  function Next(w: World, e: Event, sha: string -> string): World {
    hide *;
    Step(w, e, sha).(time := w.time + 1)
  }

  /** The world after a run of events. */
  function Exec(w: World, es: seq<Event>, sha: string -> string): World {
    hide *;
    if es == [] then w else Next(Exec(w, es[..|es| - 1], sha), es[|es| - 1], sha)
  }

  lemma ExecNext(w: World, es: seq<Event>, e: Event, sha: string -> string)
    ensures Exec(w, es + [e], sha) == Next(Exec(w, es, sha), e, sha)
  {
    hide Next;
    assert (es + [e])[..|es|] == es;
  }

  // ----- the exchange ---------------------------------------------------------------------

  /** The key an attempt would place under, once the gates are passed. */
  function AttemptKey(request: Request, answers: Answers, sha: string -> string): Option<OrderKey> {
    hide PassGates;
    if ThroughGates(request, answers, sha)
    then Some(KeyOf(PassGates(request, answers, sha).outcome.value.params)) else None
  }

  /** Looking up an order that exists finds it, or the call fails as a whole. */
  ghost predicate TruthfulLookup(w: World, key: OrderKey, answers: Answers) {
    key in w.book ==>
      Lookup(answers.lookup).Crash?
      || (Lookup(answers.lookup).Ok? && Lookup(answers.lookup).value.Some?
          && OrdId(Lookup(answers.lookup).value.value) == Some(w.book[key]))
  }

  ghost predicate RefusesDuplicate(w: World, key: OrderKey, answers: Answers) {
    key in w.book ==> !answers.accepted
  }

  /** What is assumed of the exchange when the adapter runs. */
  ghost predicate NeverTwice(w: World, e: Event, sha: string -> string) {
    e.CallOkx? && w.phase.Cleared? ==>
      var key := AttemptKey(w.phase.screen.request, e.answers, sha);
      key.Some? ==> TruthfulLookup(w, key.value, e.answers) || RefusesDuplicate(w, key.value, e.answers)
  }

  /** An order it names is an order it has. */
  ghost predicate Faithful(w: World, e: Event, sha: string -> string) {
    e.CallOkx? && w.phase.Cleared? ==>
      var key, answers := AttemptKey(w.phase.screen.request, e.answers, sha), e.answers;
      key.Some? ==>
        && (Lookup(answers.lookup).Ok? && Lookup(answers.lookup).value.Some? ==>
              key.value in w.book && OrdId(Lookup(answers.lookup).value.value) == Some(w.book[key.value]))
        && (Lookup(answers.lookup) == Ok(None) && PlaceAnswer(answers).Ok?
            && OrdId(PlaceAnswer(answers).value).Some? ==>
              answers.accepted && OrdId(PlaceAnswer(answers).value) == Some(answers.acceptedId))
  }

  // ----- one step at the exchange ---------------------------------------------------------

  /** The order an attempt places, if it places one. */
  function ToPlace(request: Request, answers: Answers, sha: string -> string): Option<Params> {
    hide PassGates, Lookup;
    if ThroughGates(request, answers, sha) && Lookup(answers.lookup) == Ok(None)
    then Some(PassGates(request, answers, sha).outcome.value.params) else None
  }

  lemma ToPlaceIsPlaced(request: Request, answers: Answers, sha: string -> string)
    ensures Placements(PrepareOrder(request, answers, sha).calls)
         == var placed := ToPlace(request, answers, sha); if placed.Some? then [placed.value] else []
  {
    PlacesExactly(request, answers, sha);
    hide PrepareOrder, PassGates, Lookup, Placements, Checked;
  }

  /** What the adapter step does to the book, the placements and the phase. */
  ghost predicate OkxEffect(w: World, answers: Answers, next: World, sha: string -> string) {
    hide *;
    && w.phase.Cleared?
    && var s := w.phase.screen;
    var placed := ToPlace(s.request, answers, sha);
    && next.placements == w.placements
       + (if placed.None? then []
          else [Placement(s, w.phase.final, w.phase.finalAt, w.time, answers, placed.value)])
    && next.book == (if placed.Some? && answers.accepted
                     then w.book[KeyOf(placed.value) := answers.acceptedId] else w.book)
    && next.accepted == w.accepted
       + (if placed.Some? && answers.accepted then [Acceptance(s.attempt, KeyOf(placed.value))] else [])
    && next.trace == w.trace + [Traced(s.attempt, PrepareOrder(s.request, answers, sha).calls)]
    && next.phase == Settled(s.attempt, AfterAdapter(PrepareOrder(s.request, answers, sha).outcome,
                                                     Provider(s.attempt.command)))
  }

  lemma OkxStep(w: World, answers: Answers, sha: string -> string)
    requires w.phase.Cleared?
    ensures OkxEffect(w, answers, Next(w, CallOkx(answers), sha), sha)
  {
    hide ToPlace, PrepareOrder, Placements, AfterAdapter, Provider, Settled;
    ToPlaceIsPlaced(w.phase.screen.request, answers, sha);
  }

  // ----- the other steps ------------------------------------------------------------------

  /** The adapter step is the only one that touches the exchange. */
  predicate AtExchange(w: World, e: Event) {
    e.CallOkx? && w.phase.Cleared?
  }

  /** Each file has one writer, and each record grows in one kind of step. */
  ghost predicate Frame(w: World, e: Event, next: World) {
    hide *;
    && next.time == w.time + 1
    && next.policy == (if e.EditPolicy? then e.edited else w.policy)
    && next.risk == (if e.Capture? then UpdatedFile(w.risk, e.snapshot) else w.risk)
    && next.history == (if e.Capture? then w.history + [e.snapshot] else w.history)
    && (!AtExchange(w, e) ==>
          next.book == w.book && next.accepted == w.accepted && next.placements == w.placements
          && next.trace == w.trace)
    && (!e.Save? ==> next.store == w.store)
    && (!e.Deliver? ==> next.reports == w.reports)
  }

  lemma StepFrame(w: World, e: Event, sha: string -> string)
    ensures Frame(w, e, Next(w, e, sha))
  {
    hide ReadPolicy, ReadState, FirstGate, FinalGate, PrepareOrder, AfterAdapter, AfterOther, Store, Find, Settled,
      Rejection, UpdatedFile, Recordable, Placements, Mode, Provider;
  }

  /** How an attempt advances towards the exchange: each phase is entered from the one before. */
  ghost predicate Advances(w: World, e: Event, q: Phase, sha: string -> string) {
    hide *;
    var p := w.phase;
    && (q.Missed? ==> p.Idle? && e.Lease? && q.attempt.command == e.command && Find(w.store, q.attempt.id) == Ok(None))
    && (q.PolicyKnown? ==>
          p.Missed? && q == PolicyKnown(p.attempt, q.first, w.time) && ReadPolicy(w.policy) == Ok(q.first))
    && (q.StateKnown? ==>
          && p.PolicyKnown? && q == StateKnown(p.attempt, p.first, p.firstAt, q.state, w.time)
          && ReadState(w.risk) == Ok(q.state))
    && (q.Screened? ==>
          var s := q.screen;
          && p == StateKnown(s.attempt, s.first, s.firstAt, s.state, s.stateAt)
          && FirstGate(s.attempt.command, s.local, s.first, s.state, sha) == ForOrder(s.request))
    && (q.Cleared? ==>
          var s := q.screen;
          && p == Screened(s) && q.finalAt == w.time && ReadPolicy(w.policy) == Ok(q.final)
          && FinalGate(s.attempt.command, s.local, Ok(q.final), s.state, s.request).ForOrder?)
    && (q.Elsewhere? ==> p.StateKnown? && q.attempt == p.attempt)
  }

  lemma StepAdvances(w: World, e: Event, sha: string -> string)
    ensures Next(w, e, sha).phase == w.phase || Advances(w, e, Next(w, e, sha).phase, sha)
  {
    hide ReadPolicy, ReadState, FirstGate, FinalGate, PrepareOrder, AfterAdapter, AfterOther, Store, Find,
      Rejection, UpdatedFile, Recordable, Placements, Mode, Provider;
  }

  /** The store gains at most the decision just made, under the identity of its command. */
  ghost predicate StoreStep(w: World, e: Event, next: World) {
    hide *;
    next.store != w.store ==>
      && e.Save? && w.phase.Decided? && Recordable(w.phase.attempt, w.phase.decision)
      && Store(w.store, w.phase.attempt.id, w.phase.decision, e.stamp) == Ok(next.store)
      && next.phase == Reporting(w.phase.attempt, w.phase.decision)
  }

  lemma StepStore(w: World, e: Event, sha: string -> string)
    ensures StoreStep(w, e, Next(w, e, sha))
  {
    hide Recordable, Store, OnLease, OnLoadPolicy, OnLoadState, OnScreening, OnReload, OnCallOther, OnDeliver,
      UpdatedFile;
    StepFrame(w, e, sha);
  }

  /** A report is delivered only from the phase that holds it. */
  ghost predicate ReportStep(w: World, e: Event, next: World) {
    hide *;
    next.reports == w.reports
    + if e.Deliver? && w.phase.Reporting? then [Reported(w.phase.attempt, w.phase.decision)] else []
  }

  lemma StepReports(w: World, e: Event, sha: string -> string)
    ensures ReportStep(w, e, Next(w, e, sha))
  {
    hide OnLease, OnLoadPolicy, OnLoadState, OnScreening, OnReload, OnCallOther, OnSave, OnCallOkx,
      UpdatedFile;
    StepFrame(w, e, sha);
  }

  // ----- at most one order ----------------------------------------------------------------

  /** The key every attempt at this command uses. */
  function CommandKey(command: Fields, sha: string -> string): Option<OrderKey> {
    match Build(command, "real", sha)
    case Ok(request) =>
      Some(OrderKey(InstrumentId(request.symbol), OkxClientOrderId(request.clientOrderId, sha)))
    case _ => None
  }

  lemma ParamsKey(request: Request, answers: Answers, sha: string -> string)
    requires ThroughGates(request, answers, sha)
    ensures KeyOf(PassGates(request, answers, sha).outcome.value.params)
         == OrderKey(InstrumentId(request.symbol), OkxClientOrderId(request.clientOrderId, sha))
  {
    hide PassGates, OrderParams, AccountAnswer, RulesAnswer, RulesOk;
    GatesSound(request, answers, sha);
    var gates := PassGates(request, answers, sha).outcome.value;
    CheckedRules(request, gates, answers, sha);
    OrderParamsKey(request, gates.rules, sha);
  }

  lemma OrderParamsKey(request: Request, rules: Rules, sha: string -> string)
    requires RulesOk(rules) && OrderParams(request, rules, sha).Ok?
    ensures KeyOf(OrderParams(request, rules, sha).value)
         == OrderKey(rules.instId, OkxClientOrderId(request.clientOrderId, sha))
  {
    hide Size, ToTick, Protection, RawPrice, OrderType, RulesOk;
  }

  /** The request an attempt works on is the one its command normalizes to. */
  ghost predicate Honest(w: World, sha: string -> string) {
    && (w.phase.Screened? || w.phase.Cleared? ==>
          Build(w.phase.screen.attempt.command, "real", sha) == Ok(w.phase.screen.request))
    && (forall i | 0 <= i < |w.accepted| ::
          && w.accepted[i].key in w.book
          && CommandKey(w.accepted[i].attempt.command, sha) == Some(w.accepted[i].key))
  }

  ghost predicate Distinct(accepted: seq<Acceptance>) {
    forall i, j | 0 <= i < j < |accepted| :: accepted[i].key != accepted[j].key
  }

  /** No order disappears or changes its name. */
  ghost predicate BookGrows(before: map<OrderKey, string>, after: map<OrderKey, string>) {
    forall key | key in before :: key in after && after[key] == before[key]
  }

  lemma HonestStep(w: World, e: Event, sha: string -> string)
    requires Honest(w, sha)
    ensures Honest(Next(w, e, sha), sha)
  {
    hide Next, FirstGate, FinalGate, Build, ToPlace, CommandKey, PrepareOrder, AfterAdapter, KeyOf;
    StepFrame(w, e, sha);
    StepAdvances(w, e, sha);
    if AtExchange(w, e) {
      OkxStep(w, e.answers, sha);
      PlacedKey(w, e.answers, sha);
    } else if Next(w, e, sha).phase.Screened? && w.phase.StateKnown? {
      var s := Next(w, e, sha).phase.screen;
      FirstGateExactly(s.attempt.command, s.local, s.first, s.state, s.request, sha);
    }
  }

  lemma PlacedKey(w: World, answers: Answers, sha: string -> string)
    requires Honest(w, sha) && w.phase.Cleared?
    ensures var s := w.phase.screen;
            var placed := ToPlace(s.request, answers, sha);
            placed.Some? ==> CommandKey(s.attempt.command, sha) == Some(KeyOf(placed.value))
  {
    hide PassGates, Build, OkxClientOrderId, InstrumentId, Lookup, KeyOf;
    var request := w.phase.screen.request;
    if ToPlace(request, answers, sha).Some? {
      ParamsKey(request, answers, sha);
    }
  }

  /** The assumption about the exchange holds at every step of a run. */
  ghost predicate NeverTwiceThroughout(w: World, es: seq<Event>, sha: string -> string) {
    hide *;
    forall i | 0 <= i < |es| :: NeverTwice(Exec(w, es[..i], sha), es[i], sha)
  }

  ghost predicate FaithfulThroughout(w: World, es: seq<Event>, sha: string -> string) {
    hide *;
    forall i | 0 <= i < |es| :: Faithful(Exec(w, es[..i], sha), es[i], sha)
  }

  lemma ThroughoutPrefix(w: World, past: seq<Event>, e: Event, sha: string -> string)
    ensures NeverTwiceThroughout(w, past + [e], sha) ==>
              NeverTwiceThroughout(w, past, sha) && NeverTwice(Exec(w, past, sha), e, sha)
    ensures FaithfulThroughout(w, past + [e], sha) ==>
              FaithfulThroughout(w, past, sha) && Faithful(Exec(w, past, sha), e, sha)
  {
    hide Exec, NeverTwice, Faithful;
    var es := past + [e];
    forall i | 0 <= i < |past| ensures es[..i] == past[..i] && es[i] == past[i] {
    }
    assert es[..|past|] == past && es[|past|] == e;
  }

  /** An order is accepted only under a key the book does not hold. */
  lemma AcceptedIsNew(w: World, answers: Answers, sha: string -> string)
    requires w.phase.Cleared? && NeverTwice(w, CallOkx(answers), sha)
    ensures var placed := ToPlace(w.phase.screen.request, answers, sha);
            placed.Some? && answers.accepted ==> KeyOf(placed.value) !in w.book
  {
    hide PassGates, Lookup, KeyOf;
  }

  lemma DistinctStep(w: World, e: Event, sha: string -> string)
    requires Honest(w, sha) && Distinct(w.accepted) && NeverTwice(w, e, sha)
    ensures Distinct(Next(w, e, sha).accepted)
    ensures BookGrows(w.book, Next(w, e, sha).book)
  {
    hide Next, ToPlace, CommandKey, PrepareOrder, AfterAdapter, KeyOf, NeverTwice, Build;
    StepFrame(w, e, sha);
    if AtExchange(w, e) {
      OkxStep(w, e.answers, sha);
      AcceptedIsNew(w, e.answers, sha);
    }
  }

  /** Over every run of leases, re-leases, crashes and retries, at most one order is accepted per
      key, at most one per command, and an order once accepted stays as it is -- provided the lookup
      is truthful or the exchange refuses duplicates, whenever an order is attempted. */
  lemma {:induction false} AtMostOnce(w: World, es: seq<Event>, sha: string -> string)
    requires Start(w) && NeverTwiceThroughout(w, es, sha)
    ensures Honest(Exec(w, es, sha), sha)
    ensures Distinct(Exec(w, es, sha).accepted)
  {
    hide Next, NeverTwiceThroughout, NeverTwice, CommandKey, Build, Exec;
    if es == [] {
      ExecNothing(w, sha);
    } else {
      var past, e := es[..|es| - 1], es[|es| - 1];
      assert es == past + [e];
      ThroughoutPrefix(w, past, e, sha);
      AtMostOnce(w, past, sha);
      ExecNext(w, past, e, sha);
      hide Honest, Distinct, Start;
      HonestStep(Exec(w, past, sha), e, sha);
      DistinctStep(Exec(w, past, sha), e, sha);
    }
  }

  lemma ExecNothing(w: World, sha: string -> string)
    ensures Exec(w, [], sha) == w
  {
    hide Next;
  }

  /** Two acceptances for commands that normalize to the same order. */
  ghost predicate SameOrder(accepted: seq<Acceptance>, i: int, j: int, sha: string -> string) {
    && 0 <= i < |accepted| && 0 <= j < |accepted|
    && CommandKey(accepted[i].attempt.command, sha) == CommandKey(accepted[j].attempt.command, sha)
  }

  /** However often a command is leased, and whatever happens in between, it leads to at most one
      accepted order. */
  lemma AtMostOncePerCommand(w: World, es: seq<Event>, i: int, j: int, sha: string -> string)
    requires Start(w) && NeverTwiceThroughout(w, es, sha)
    requires SameOrder(Exec(w, es, sha).accepted, i, j, sha)
    ensures i == j
  {
    hide Exec, NeverTwiceThroughout, CommandKey, Start, Build;
    AtMostOnce(w, es, sha);
  }

  // ----- different orders -----------------------------------------------------------------

  /** The client order id of the request a command normalizes to. */
  function CommandClientId(command: Fields, sha: string -> string): Option<string> {
    match Build(command, "real", sha)
    case Ok(request) => Some(request.clientOrderId)
    case _ => None
  }

  /** The digest tells the two client order ids apart, in the digits that are used of it. */
  predicate Separates(sha: string -> string, a: string, b: string) {
    a != b ==> Take(sha(a), 29) != Take(sha(b), 29)
  }

  /** Commands with one key have one client order id; so different client order ids have different keys. */
  lemma OneKeyOneClientId(command1: Fields, command2: Fields, sha: string -> string)
    requires CommandKey(command1, sha).Some? && CommandKey(command1, sha) == CommandKey(command2, sha)
    ensures CommandClientId(command1, sha).Some? && CommandClientId(command2, sha).Some?
    ensures var a, b := CommandClientId(command1, sha).value, CommandClientId(command2, sha).value;
            Separates(sha, a, b) ==> a == b
  {
    hide Build, OkxClientOrderId, InstrumentId;
    ExchangeIdExactly(CommandClientId(command1, sha).value, CommandClientId(command2, sha).value, sha);
  }

  /** Every order in the book was accepted for some command, under its key. */
  ghost predicate BookAccepted(w: World) {
    forall key | key in w.book :: exists i :: 0 <= i < |w.accepted| && w.accepted[i].key == key
  }

  lemma BookAcceptedStep(w: World, e: Event, sha: string -> string)
    requires BookAccepted(w)
    ensures BookAccepted(Next(w, e, sha))
  {
    hide Next, ToPlace, KeyOf, PrepareOrder, AfterAdapter;
    StepFrame(w, e, sha);
    var next := Next(w, e, sha);
    if AtExchange(w, e) {
      OkxStep(w, e.answers, sha);
      forall key | key in next.book ensures exists i :: 0 <= i < |next.accepted| && next.accepted[i].key == key {
        if key in w.book {
          var i :| 0 <= i < |w.accepted| && w.accepted[i].key == key;
          assert next.accepted[i] == w.accepted[i];
        } else {
          assert next.accepted[|w.accepted|].key == key;
        }
      }
    }
  }

  lemma {:induction false} OrdersWereAccepted(w: World, es: seq<Event>, sha: string -> string)
    requires Start(w)
    ensures BookAccepted(Exec(w, es, sha))
  {
    hide Next, Exec;
    if es == [] {
      ExecNothing(w, sha);
    } else {
      hide BookAccepted;
      var past, e := es[..|es| - 1], es[|es| - 1];
      assert es == past + [e];
      OrdersWereAccepted(w, past, sha);
      ExecNext(w, past, e, sha);
      BookAcceptedStep(Exec(w, past, sha), e, sha);
    }
  }
}
