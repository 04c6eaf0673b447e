/** Where placements come from: what had been read, and checked, before each of them. */
module Provenance {
  import opened Wrappers
  import opened JsonValues
  import opened Decimals
  import opened Risk
  import opened RiskHistory
  import opened OkxReplies
  import opened OkxAdapter
  import opened Preflight
  import opened Lifecycle

  /** The world after the first `k` events. */
  ghost function At(w: World, es: seq<Event>, k: nat, sha: string -> string): World {
    hide *;
    if k <= |es| then Exec(w, es[..k], sha) else w
  }

  /** The policy and risk files held these when they were read. */
  ghost predicate PolicyRead(w: World, es: seq<Event>, at: nat, policy: Policy, sha: string -> string) {
    hide *;
    at < |es| && ReadPolicy(At(w, es, at, sha).policy) == Ok(policy)
  }

  ghost predicate StateRead(w: World, es: seq<Event>, at: nat, state: RiskState, sha: string -> string) {
    hide *;
    at < |es| && ReadState(At(w, es, at, sha).risk) == Ok(state)
  }

  /** The first gate passed on what was read. */
  ghost predicate ScreenSourced(w: World, es: seq<Event>, s: Screen, sha: string -> string) {
    hide *;
    && s.firstAt < s.stateAt
    && PolicyRead(w, es, s.firstAt, s.first, sha) && StateRead(w, es, s.stateAt, s.state, sha)
    && FirstGate(s.attempt.command, s.local, s.first, s.state, sha) == ForOrder(s.request)
  }

  /** So did the second one, on the policy as reloaded. */
  ghost predicate ClearanceSourced(w: World, es: seq<Event>, s: Screen, final: Policy, finalAt: nat,
                                   sha: string -> string)
  {
    hide *;
    && ScreenSourced(w, es, s, sha) && s.stateAt < finalAt
    && PolicyRead(w, es, finalAt, final, sha)
    && FinalGate(s.attempt.command, s.local, Ok(final), s.state, s.request).ForOrder?
  }

  ghost predicate PhaseSourced(w: World, es: seq<Event>, p: Phase, sha: string -> string) {
    hide *;
    match p
    case PolicyKnown(_, first, firstAt) => PolicyRead(w, es, firstAt, first, sha)
    case StateKnown(_, first, firstAt, state, stateAt) =>
      && firstAt < stateAt && PolicyRead(w, es, firstAt, first, sha) && StateRead(w, es, stateAt, state, sha)
    case Screened(s) => ScreenSourced(w, es, s, sha)
    case Cleared(s, final, finalAt) => ClearanceSourced(w, es, s, final, finalAt, sha)
    case _ => true
  }

  /** A placement was made by the adapter step at its time, behind both gates. */
  ghost predicate PlacementSourced(w: World, es: seq<Event>, p: Placement, sha: string -> string) {
    hide *;
    && ClearanceSourced(w, es, p.screen, p.final, p.finalAt, sha)
    && p.finalAt < p.at < |es| && es[p.at] == CallOkx(p.answers)
    && ToPlace(p.screen.request, p.answers, sha) == Some(p.params)
  }

  ghost predicate PlacementsSourced(w: World, es: seq<Event>, placements: seq<Placement>, sha: string -> string) {
    hide *;
    forall i | 0 <= i < |placements| :: PlacementSourced(w, es, placements[i], sha)
  }

  // ----- facts about a run stay facts when it goes on -------------------------------------

  lemma AtPrefix(w: World, past: seq<Event>, e: Event, k: nat, sha: string -> string)
    requires k <= |past|
    ensures At(w, past + [e], k, sha) == At(w, past, k, sha)
  {
    hide Exec;
    assert (past + [e])[..k] == past[..k];
  }

  lemma ReadsStay(w: World, past: seq<Event>, e: Event, sha: string -> string)
    ensures forall k, policy | PolicyRead(w, past, k, policy, sha) :: PolicyRead(w, past + [e], k, policy, sha)
    ensures forall k, state | StateRead(w, past, k, state, sha) :: StateRead(w, past + [e], k, state, sha)
  {
    hide At, ReadPolicy, ReadState;
    forall k: nat | k <= |past| ensures At(w, past + [e], k, sha) == At(w, past, k, sha) {
      AtPrefix(w, past, e, k, sha);
    }
  }

  lemma SourcesStay(w: World, past: seq<Event>, e: Event, sha: string -> string)
    ensures forall p | PhaseSourced(w, past, p, sha) :: PhaseSourced(w, past + [e], p, sha)
    ensures forall p | PlacementSourced(w, past, p, sha) :: PlacementSourced(w, past + [e], p, sha)
  {
    hide PolicyRead, StateRead, FirstGate, FinalGate, ToPlace;
    ReadsStay(w, past, e, sha);
  }

  // ----- every placement has its sources --------------------------------------------------

  lemma AdvanceSourced(w: World, past: seq<Event>, e: Event, q: Phase, sha: string -> string)
    requires var now := Exec(w, past, sha);
             now.time == |past| && PhaseSourced(w, past, now.phase, sha) && Advances(now, e, q, sha)
    ensures PhaseSourced(w, past + [e], q, sha)
  {
    hide Exec, FirstGate, FinalGate, ReadPolicy, ReadState;
    ReadsStay(w, past, e, sha);
    assert past[..|past|] == past;
    AtPrefix(w, past, e, |past|, sha);
    assert At(w, past, |past|, sha) == Exec(w, past, sha);
  }

  /** In every run, in whatever order policy edits, snapshots, crashes and leases come, every
      placement and every attempt under way goes back to what was really read. */
  lemma {:induction false} EverythingSourced(w: World, es: seq<Event>, sha: string -> string)
    requires Start(w)
    ensures Exec(w, es, sha).time == |es|
    ensures PhaseSourced(w, es, Exec(w, es, sha).phase, sha)
    ensures PlacementsSourced(w, es, Exec(w, es, sha).placements, sha)
  {
    hide Exec, PhaseSourced, PlacementSourced, PlacementsSourced, Next, Start;
    if es == [] {
      ExecNothing(w, sha);
      NothingSourced(w, sha);
    } else {
      var past, e := es[..|es| - 1], es[|es| - 1];
      assert es == past + [e];
      EverythingSourced(w, past, sha);
      ExecNext(w, past, e, sha);
      hide Frame, Advances;
      SourcedStep(w, past, e, sha);
    }
  }

  lemma NothingSourced(w: World, sha: string -> string)
    requires Start(w)
    ensures w.time == 0 && PhaseSourced(w, [], w.phase, sha) && PlacementsSourced(w, [], w.placements, sha)
  {
    hide ScreenSourced, ClearanceSourced, PlacementSourced, PolicyRead, StateRead;
  }

  lemma SourcedStep(w: World, past: seq<Event>, e: Event, sha: string -> string)
    requires var now := Exec(w, past, sha);
             now.time == |past| && PhaseSourced(w, past, now.phase, sha)
             && PlacementsSourced(w, past, now.placements, sha)
    ensures var next := Next(Exec(w, past, sha), e, sha);
            && next.time == |past| + 1
            && PhaseSourced(w, past + [e], next.phase, sha)
            && PlacementsSourced(w, past + [e], next.placements, sha)
  {
    hide Exec, Next, Advances, PhaseSourced, PlacementSourced;
    var now := Exec(w, past, sha);
    var next := Next(now, e, sha);
    StepFrame(now, e, sha);
    StepAdvances(now, e, sha);
    SourcesStay(w, past, e, sha);
    if next.phase != now.phase {
      AdvanceSourced(w, past, e, next.phase, sha);
    }
    if AtExchange(now, e) {
      NewPlacementSourced(w, past, e, sha);
    }
  }

  lemma NewPlacementSourced(w: World, past: seq<Event>, e: Event, sha: string -> string)
    requires var now := Exec(w, past, sha);
             && now.time == |past| && AtExchange(now, e) && PhaseSourced(w, past, now.phase, sha)
             && PlacementsSourced(w, past, now.placements, sha)
    ensures PlacementsSourced(w, past + [e], Next(Exec(w, past, sha), e, sha).placements, sha)
  {
    hide Exec, Next, ToPlace, FirstGate, FinalGate, At, ReadPolicy, ReadState, PrepareOrder, AfterAdapter;
    var now := Exec(w, past, sha);
    OkxStep(now, e.answers, sha);
    SourcesStay(w, past, e, sha);
    assert (past + [e])[|past|] == e == CallOkx(e.answers);
  }

  // ----- what the sources say -------------------------------------------------------------

  /** Everything that must hold before an order may go out. */
  ghost predicate Licensed(w: World, es: seq<Event>, p: Placement, sha: string -> string) {
    hide *;
    var s := p.screen;
    && s.firstAt < s.stateAt < p.finalAt < p.at < |es|
    && PolicyRead(w, es, s.firstAt, s.first, sha) && Live(s.first)
    && PolicyRead(w, es, p.finalAt, p.final, sha) && Live(p.final)
    && StateRead(w, es, s.stateAt, s.state, sha)
    && WithinLimits(s.first, s.state, s.local.today) && WithinLimits(p.final, s.state, s.local.today)
    && Attested(GetFields(s.attempt.command, "commandPayload"))
    && Screenable(s.attempt.command, s.local, s.request, sha)
    && AdapterReady(Provider(s.attempt.command), s.local.secret).Ok?
    && es[p.at] == CallOkx(p.answers)
    && Lookup(p.answers.lookup) == Ok(None)
    && PassGates(s.request, p.answers, sha).outcome.Ok?
    && var gates := PassGates(s.request, p.answers, sha).outcome.value;
    p.params == gates.params && Checked(s.request, gates, p.answers, sha)
  }

  lemma SourcedIsLicensed(w: World, es: seq<Event>, p: Placement, sha: string -> string)
    requires PlacementSourced(w, es, p, sha)
    ensures Licensed(w, es, p, sha)
  {
    hide PolicyRead, StateRead, FirstGate, FinalGate, Evaluate, Screenable, AdapterReady, PassGates, Lookup, Checked,
      Live, WithinLimits, Attested, Market, FuturesDecision;
    var s := p.screen;
    FirstGateExactly(s.attempt.command, s.local, s.first, s.state, s.request, sha);
    FinalGateExactly(s.attempt.command, s.local, Ok(p.final), s.state, s.request);
    GateExactly(s.attempt.command, s.first, s.state, s.local.today);
    GateExactly(s.attempt.command, p.final, s.state, s.local.today);
    GatesSound(s.request, p.answers, sha);
  }

  /** In every interleaving, each order placed had both policy reads live, the host's enablement,
      the attestation, the account, leverage and precheck gates, and a lookup that missed -- and
      the reads were of the files as they stood, in that order. */
  lemma EveryPlacementLicensed(w: World, es: seq<Event>, sha: string -> string)
    requires Start(w)
    ensures AllLicensed(w, es, Exec(w, es, sha).placements, sha)
  {
    hide Exec, Start, Licensed, PlacementSourced;
    EverythingSourced(w, es, sha);
    forall p | p in Exec(w, es, sha).placements ensures Licensed(w, es, p, sha) {
      SourcedIsLicensed(w, es, p, sha);
    }
  }

  ghost predicate AllLicensed(w: World, es: seq<Event>, placements: seq<Placement>, sha: string -> string) {
    forall p | p in placements :: Licensed(w, es, p, sha)
  }

  // ----- kill switch ----------------------------------------------------------------------

  /** The policy file lets nothing real through. */
  predicate Stopped(w: World) {
    var policy := ReadPolicy(w.policy);
    policy.Ok? ==> !Live(policy.value)
  }

  /** The policy is stopped in every world of the run. */
  ghost predicate StoppedThroughout(w: World, es: seq<Event>, sha: string -> string) {
    hide *;
    forall k | 0 <= k <= |es| :: Stopped(Exec(w, es[..k], sha))
  }

  /** An attempt that has yet to reload the policy does not get past a stopped one. */
  lemma StoppedStep(w: World, e: Event, sha: string -> string)
    requires Stopped(w)
    ensures Next(w, e, sha).phase.Cleared? ==> w.phase.Cleared? && !AtExchange(w, e)
    ensures !AtExchange(w, e) ==> Next(w, e, sha).placements == w.placements
    ensures |w.placements| <= |Next(w, e, sha).placements| <= |w.placements| + 1
  {
    hide Next, FirstGate, FinalGate, ToPlace, PrepareOrder, AfterAdapter, Live, ReadPolicy, Evaluate;
    StepFrame(w, e, sha);
    StepAdvances(w, e, sha);
    if AtExchange(w, e) {
      OkxStep(w, e.answers, sha);
    } else if Next(w, e, sha).phase.Cleared? && w.phase.Screened? {
      var s, final := w.phase.screen, Next(w, e, sha).phase.final;
      FinalGateExactly(s.attempt.command, s.local, Ok(final), s.state, s.request);
      GateExactly(s.attempt.command, final, s.state, s.local.today);
    }
  }

  /** While the kill switch is on (or the policy otherwise stopped), an attempt that has not passed
      the final reload never places; one that has passed it places at most once, and no other does. */
  lemma {:induction false} StoppedPolicyStopsPlacements(w: World, es: seq<Event>, sha: string -> string)
    requires StoppedThroughout(w, es, sha)
    ensures PlacesAtMost(w, Exec(w, es, sha))
  {
    hide Exec, StoppedThroughout, Stopped, Next;
    if es == [] {
      ExecNothing(w, sha);
    } else {
      var past, e := es[..|es| - 1], es[|es| - 1];
      assert es == past + [e];
      StoppedPrefix(w, past, e, sha);
      StoppedPolicyStopsPlacements(w, past, sha);
      ExecNext(w, past, e, sha);
      StoppedStep(Exec(w, past, sha), e, sha);
    }
  }

  /** Between these worlds at most the attempt past its reload placed; if it did, it is over. */
  ghost predicate PlacesAtMost(before: World, after: World) {
    && |before.placements| <= |after.placements|
    && (|after.placements| > |before.placements| ==>
          before.phase.Cleared? && |after.placements| == |before.placements| + 1 && !after.phase.Cleared?)
    && (after.phase.Cleared? ==> before.phase.Cleared?)
  }

  lemma StoppedPrefix(w: World, past: seq<Event>, e: Event, sha: string -> string)
    requires StoppedThroughout(w, past + [e], sha)
    ensures StoppedThroughout(w, past, sha) && Stopped(Exec(w, past, sha))
  {
    hide Exec, Stopped;
    var es := past + [e];
    assert forall k | 0 <= k <= |past| :: es[..k] == past[..k];
    assert es[..|past|] == past;
  }

  // ----- what the kill switch does not stop -----------------------------------------------

  ghost predicate Places(w: World, e: Event, sha: string -> string) {
    hide *;
    |Next(w, e, sha).placements| > |w.placements|
  }

  /** The adapter is called, and the gates at the exchange and the lookup let the order go out. */
  ghost predicate CallsForOrder(w: World, e: Event, sha: string -> string) {
    hide *;
    e.CallOkx? && w.phase.Cleared? && ToPlace(w.phase.screen.request, e.answers, sha).Some?
  }

  /** Whatever the policy on disk, a step places an order exactly when it is the adapter call of an
      attempt past its final reload, and gates and lookup let the order go out. */
  lemma PlacesStepExactly(w: World, e: Event, sha: string -> string)
    ensures Places(w, e, sha) <==> CallsForOrder(w, e, sha)
  {
    hide Next, ToPlace, KeyOf, PrepareOrder, AfterAdapter;
    StepFrame(w, e, sha);
    if AtExchange(w, e) {
      OkxStep(w, e.answers, sha);
    }
  }

  /** Nothing but the adapter call itself and a crash takes an attempt out of the phase past its final
      reload: an edit of the policy, in particular, does not. */
  lemma StaysCleared(w: World, e: Event, sha: string -> string)
    requires w.phase.Cleared? && !e.CallOkx? && !e.Abort?
    ensures Next(w, e, sha).phase == w.phase
  {
    hide FirstGate, FinalGate, ReadPolicy, ReadState, UpdatedFile, OnCallOkx;
  }

  /** Neither a crash nor an adapter call among the first `i` events. */
  predicate Undisturbed(es: seq<Event>, i: int) {
    forall j | 0 <= j < i && j < |es| :: !es[j].Abort? && !es[j].CallOkx?
  }

  /** Event `i` is the first adapter call of the attempt that was past its reload at the start, and lets
      its order go out. */
  ghost predicate PlacesAt(w: World, es: seq<Event>, i: int, sha: string -> string) {
    && 0 <= i < |es| && Undisturbed(es, i) && CallsForOrder(w, es[i], sha)
  }

  ghost predicate PlacedSince(w: World, now: World) {
    |now.placements| > |w.placements|
  }

  /** An attempt is past its reload at the end of the run exactly if it was at its beginning, and was
      not disturbed. */
  ghost predicate SameClearance(w: World, es: seq<Event>, now: World) {
    && (now.phase.Cleared? ==> w.phase.Cleared? && Undisturbed(es, |es|))
    && (w.phase.Cleared? && Undisturbed(es, |es|) ==> now.phase == w.phase)
  }

  /** Exactly what a stopped policy does not stop: over a run in which the policy is stopped throughout,
      an order goes out if and only if an attempt was past its final reload when the run began, and the
      run comes to its adapter call without a crash, and gates and lookup let the order go out. */
  lemma {:induction false} StoppedRunPlacesExactly(w: World, es: seq<Event>, sha: string -> string)
    requires StoppedThroughout(w, es, sha)
    ensures SameClearance(w, es, Exec(w, es, sha)) && |w.placements| <= |Exec(w, es, sha).placements|
    ensures PlacedSince(w, Exec(w, es, sha)) <==> exists i :: PlacesAt(w, es, i, sha)
  {
    hide Exec, StoppedThroughout, Stopped, Next, CallsForOrder;
    if es == [] {
      ExecNothing(w, sha);
    } else {
      var past, e := es[..|es| - 1], es[|es| - 1];
      assert es == past + [e];
      StoppedPrefix(w, past, e, sha);
      StoppedRunPlacesExactly(w, past, sha);
      ExecNext(w, past, e, sha);
      ClearanceStep(w, past, e, Exec(w, past, sha), sha);
    }
  }

  lemma ClearanceStep(w: World, past: seq<Event>, e: Event, now: World, sha: string -> string)
    requires Stopped(now) && SameClearance(w, past, now) && |w.placements| <= |now.placements|
    requires PlacedSince(w, now) <==> exists i :: PlacesAt(w, past, i, sha)
    ensures SameClearance(w, past + [e], Next(now, e, sha)) && |w.placements| <= |Next(now, e, sha).placements|
    ensures PlacedSince(w, Next(now, e, sha)) <==> exists i :: PlacesAt(w, past + [e], i, sha)
  {
    hide Next, Stopped, ToPlace;
    var es, next := past + [e], Next(now, e, sha);
    StoppedStep(now, e, sha);
    PlacesStepExactly(now, e, sha);
    if now.phase.Cleared? && !e.CallOkx? && !e.Abort? {
      StaysCleared(now, e, sha);
    }
    if e.Abort? {
      AbortEnds(now, sha);
    }
    UndisturbedExtended(past, e);
    forall i | i != |past| ensures PlacesAt(w, es, i, sha) <==> PlacesAt(w, past, i, sha) {
      assert 0 <= i < |past| ==> es[i] == past[i];
    }
    assert Undisturbed(past, |past|) && w.phase.Cleared? ==> (CallsForOrder(w, e, sha) <==> CallsForOrder(now, e, sha));
    assert PlacesAt(w, es, |past|, sha) <==> Undisturbed(past, |past|) && CallsForOrder(w, e, sha);
  }

  lemma AbortEnds(w: World, sha: string -> string)
    ensures Next(w, Abort, sha).phase.Idle?
  {
    hide OnLease, OnLoadPolicy, OnLoadState, OnScreening, OnReload, OnCallOkx, OnCallOther, OnSave, OnDeliver,
      UpdatedFile;
  }

  lemma UndisturbedExtended(past: seq<Event>, e: Event)
    ensures forall i | 0 <= i <= |past| :: Undisturbed(past + [e], i) <==> Undisturbed(past, i)
    ensures Undisturbed(past + [e], |past| + 1) <==> Undisturbed(past, |past|) && !e.Abort? && !e.CallOkx?
  {
    var es := past + [e];
    assert forall j | 0 <= j < |past| :: es[j] == past[j];
    assert es[|past|] == e;
  }

  // ----- drawdown -------------------------------------------------------------------------

  /** The risk file is what the snapshots so far made it. */
  lemma {:induction false} FileFollowsHistory(w: World, es: seq<Event>, sha: string -> string)
    requires Start(w)
    ensures Exec(w, es, sha).risk == Replay(Exec(w, es, sha).history)
  {
    hide Exec, Next, Replay, UpdatedFile;
    if es == [] {
      ExecNothing(w, sha);
      ReplayNothing();
    } else {
      var past, e := es[..|es| - 1], es[|es| - 1];
      assert es == past + [e];
      FileFollowsHistory(w, past, sha);
      ExecNext(w, past, e, sha);
      StepFrame(Exec(w, past, sha), e, sha);
      if e.Capture? {
        Extended(Exec(w, past, sha).history, e.snapshot);
      }
    }
  }

  lemma ReplayNothing()
    ensures Replay([]) == None
  {
  }

  /** The losses over this history are within the limits of the policy: on the day, from the first
      equity to the last; in all, from the first ever to the last that was not zero. */
  ghost predicate HistoryWithin(p: Policy, h: seq<Snapshot>, today: Day) {
    && (p.maxDailyLoss.Some? ==>
          var xs := ObservedOn(h, today);
          xs != [] && xs[0] - xs[|xs| - 1] < Value(p.maxDailyLoss.value))
    && (p.maxTotalDrawdown.Some? ==>
          && Observed(h) != [] && LatestNonZero(Observed(h)).Some?
          && Observed(h)[0] - LatestNonZero(Observed(h)).value < Value(p.maxTotalDrawdown.value))
  }

  lemma StateWithinHistory(p: Policy, h: seq<Snapshot>, today: Day)
    requires NonNegativeHistory(h) && ReadState(Replay(h)).Ok?
    requires WithinLimits(p, ReadState(Replay(h)).value, today)
    ensures HistoryWithin(p, h, today)
  {
    FileRefinesHistory(h);
    hide Replay, ReadState, Observed, ObservedOn, LatestNonZero, Value, NonNegativeHistory;
    var s := ReadState(Replay(h)).value;
    assert DaySummary(s, today, ObservedOn(h, today));
  }

  /** The snapshots captured before an event, as the placement's risk state saw them. */
  ghost function HistoryAt(w: World, es: seq<Event>, at: nat, sha: string -> string): seq<Snapshot> {
    At(w, es, at, sha).history
  }

  ghost predicate DrawdownSafe(w: World, es: seq<Event>, p: Placement, sha: string -> string) {
    hide *;
    var h := HistoryAt(w, es, p.screen.stateAt, sha);
    NonNegativeHistory(h) ==>
      HistoryWithin(p.screen.first, h, p.screen.local.today) && HistoryWithin(p.final, h, p.screen.local.today)
  }

  /** Whole-run drawdown safety: whenever an order was placed, the equities observed up to the time
      its risk state was read were within both policies' limits.  With a daily limit set and no
      equity observed that day, nothing was placed. */
  lemma DrawdownSafety(w: World, es: seq<Event>, sha: string -> string)
    requires Start(w)
    ensures AllDrawdownSafe(w, es, Exec(w, es, sha).placements, sha)
  {
    hide Exec, Start, Licensed, DrawdownSafe;
    EveryPlacementLicensed(w, es, sha);
    forall p | p in Exec(w, es, sha).placements ensures DrawdownSafe(w, es, p, sha) {
      LicensedDrawdown(w, es, p, sha);
    }
  }

  ghost predicate AllDrawdownSafe(w: World, es: seq<Event>, placements: seq<Placement>, sha: string -> string) {
    forall p | p in placements :: DrawdownSafe(w, es, p, sha)
  }

  lemma LicensedDrawdown(w: World, es: seq<Event>, p: Placement, sha: string -> string)
    requires Start(w) && Licensed(w, es, p, sha)
    ensures DrawdownSafe(w, es, p, sha)
  {
    hide Exec, Start, HistoryWithin, WithinLimits, Replay, ReadState, NonNegativeHistory, PolicyRead, Live, Attested,
      Screenable, AdapterReady, Lookup, PassGates, Checked;
    var s := p.screen;
    FileFollowsHistory(w, es[..s.stateAt], sha);
    var h := HistoryAt(w, es, s.stateAt, sha);
    if NonNegativeHistory(h) {
      StateWithinHistory(s.first, h, s.local.today);
      StateWithinHistory(p.final, h, s.local.today);
    }
  }
}
