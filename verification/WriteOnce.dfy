/** Once a result is stored, the command is settled: no later lease of it does anything but report
    that result. */
module WriteOnce {
  import opened Wrappers
  import opened Texts
  import opened JsonValues
  import opened Payloads
  import opened Preflight
  import opened ExecutionStore
  import opened Lifecycle
  import Risk
  import RiskHistory
  import Guards

  /** The store holds `d` for this identity, or cannot be read at all. */
  ghost predicate Kept(store: JsonFile, id: string, d: Decision) {
    Find(store, id) == Ok(Some(d)) || Find(store, id).ValueError?
  }

  /** The attempt under way, if it is for this identity, is only reporting `d`. */
  ghost predicate PhaseSettled(p: Phase, id: string, d: Decision) {
    match p
    case Idle => true
    case Screened(s) => s.attempt.id != id
    case Cleared(s, _, _) => s.attempt.id != id
    case Reporting(attempt, decision) => attempt.id == id ==> decision == d
    case Missed(attempt) => attempt.id != id
    case PolicyKnown(attempt, _, _) => attempt.id != id
    case StateKnown(attempt, _, _, _, _) => attempt.id != id
    case Elsewhere(attempt) => attempt.id != id
    case Decided(attempt, _) => attempt.id != id
  }

  ghost predicate SettledAs(w: World, id: string, d: Decision) {
    Kept(w.store, id, d) && PhaseSettled(w.phase, id, d)
  }

  /** Since `before`, every report for this identity says `d`, and the exchange was not called for it. */
  ghost predicate OnlyRepeats(before: World, after: World, id: string, d: Decision) {
    && |before.reports| <= |after.reports|
    && (forall i | |before.reports| <= i < |after.reports| && after.reports[i].attempt.id == id ::
          after.reports[i].decision == d)
    && |before.trace| <= |after.trace|
    && (forall i | |before.trace| <= i < |after.trace| :: after.trace[i].attempt.id != id)
    && |before.placements| <= |after.placements|
    && (forall i | |before.placements| <= i < |after.placements| :: after.placements[i].screen.attempt.id != id)
  }

  lemma KeptStep(w: World, e: Event, id: string, d: Decision, sha: string -> string)
    requires SettledAs(w, id, d)
    ensures Kept(Next(w, e, sha).store, id, d)
  {
    hide Next, Find, Store, Recordable;
    StepStore(w, e, sha);
    if Next(w, e, sha).store != w.store {
      PutThenFind(w.store, w.phase.attempt.id, w.phase.decision, e.stamp, id);
    }
  }

  lemma PhaseSettledStep(w: World, e: Event, id: string, d: Decision, sha: string -> string)
    requires SettledAs(w, id, d)
    ensures PhaseSettled(Next(w, e, sha).phase, id, d)
  {
    hide Find, Store, Recordable, Risk.ReadPolicy, RiskHistory.ReadState, RiskHistory.UpdatedFile, FirstGate, FinalGate,
      Rejection, OkxAdapter.PrepareOrder, OkxAdapter.Placements, AfterAdapter, AfterOther, Mode, Provider,
      OkxAdapter.KeyOf;
  }

  lemma RepeatsStep(w: World, e: Event, id: string, d: Decision, sha: string -> string)
    requires SettledAs(w, id, d)
    ensures OnlyRepeats(w, Next(w, e, sha), id, d)
  {
    hide Next, Kept, ToPlace, OkxAdapter.KeyOf, AfterAdapter, OkxAdapter.PrepareOrder;
    StepFrame(w, e, sha);
    StepReports(w, e, sha);
    if AtExchange(w, e) {
      OkxStep(w, e.answers, sha);
    }
  }

  lemma RepeatsTransitive(a: World, b: World, c: World, id: string, d: Decision)
    requires OnlyRepeats(a, b, id, d) && OnlyRepeats(b, c, id, d)
    requires Extends(b, c)
    ensures OnlyRepeats(a, c, id, d)
  {
  }

  /** The records only grow. */
  ghost predicate Extends(b: World, c: World) {
    b.reports <= c.reports && b.trace <= c.trace && b.placements <= c.placements
  }

  lemma StepExtends(w: World, e: Event, sha: string -> string)
    ensures Extends(w, Next(w, e, sha))
  {
    hide Next, ToPlace, OkxAdapter.KeyOf, AfterAdapter, OkxAdapter.PrepareOrder;
    StepFrame(w, e, sha);
    StepReports(w, e, sha);
    if AtExchange(w, e) {
      OkxStep(w, e.answers, sha);
    }
  }

  /** After a result is stored, and over every later run whatever its leases, crashes, edits and
      snapshots: every report for that command repeats the result, the exchange is never called for
      it again, and the record stays -- or the store becomes unreadable as a whole. */
  lemma {:induction false} StoredIsFinal(w: World, es: seq<Event>, id: string, d: Decision, sha: string -> string)
    requires SettledAs(w, id, d)
    ensures SettledAs(Exec(w, es, sha), id, d)
    ensures OnlyRepeats(w, Exec(w, es, sha), id, d)
  {
    hide Exec, Next, Kept, PhaseSettled;
    if es == [] {
      ExecNothing(w, sha);
    } else {
      hide OnlyRepeats, SettledAs, Extends;
      var past, e := es[..|es| - 1], es[|es| - 1];
      assert es == past + [e];
      StoredIsFinal(w, past, id, d, sha);
      ExecNext(w, past, e, sha);
      var now := Exec(w, past, sha);
      SettledStep(now, e, id, d, sha);
      RepeatsStep(now, e, id, d, sha);
      StepExtends(now, e, sha);
      RepeatsTransitive(w, now, Next(now, e, sha), id, d);
    }
  }

  lemma SettledStep(w: World, e: Event, id: string, d: Decision, sha: string -> string)
    requires SettledAs(w, id, d)
    ensures SettledAs(Next(w, e, sha), id, d)
  {
    hide Next, Kept, PhaseSettled;
    KeptStep(w, e, id, d, sha);
    PhaseSettledStep(w, e, id, d, sha);
  }

  // ----- with well-behaved identities the store stays readable ----------------------------

  ghost predicate SafePhase(p: Phase) {
    p.Missed? || p.PolicyKnown? || p.StateKnown? || p.Elsewhere? || p.Decided? || p.Reporting? ==>
      Guards.SafeKey(p.attempt.id)
  }

  /** Neither the attempt under way nor any lease of the run has an identity that reads like a secret. */
  ghost predicate SafeIds(w: World, es: seq<Event>) {
    && SafeAttempt(w.phase)
    && (forall i | 0 <= i < |es| && es[i].Lease? && Get(es[i].command, "id").Str? ::
          Guards.SafeKey(Get(es[i].command, "id").text))
  }

  ghost predicate SafeAttempt(p: Phase) {
    && SafePhase(p)
    && (p.Screened? || p.Cleared? ==> Guards.SafeKey(p.screen.attempt.id))
  }

  lemma SafeAttemptStep(w: World, e: Event, sha: string -> string)
    requires SafeAttempt(w.phase)
    requires e.Lease? && Get(e.command, "id").Str? ==> Guards.SafeKey(Get(e.command, "id").text)
    ensures SafeAttempt(Next(w, e, sha).phase)
  {
    hide Find, Store, Recordable, Risk.ReadPolicy, RiskHistory.ReadState, RiskHistory.UpdatedFile, FirstGate, FinalGate,
      Rejection, OkxAdapter.PrepareOrder, OkxAdapter.Placements, AfterAdapter, AfterOther, Mode, Provider,
      OkxAdapter.KeyOf, Guards.SafeKey;
  }

  lemma FoundStep(w: World, e: Event, id: string, d: Decision, sha: string -> string)
    requires SettledAs(w, id, d) && Find(w.store, id) == Ok(Some(d)) && SafeAttempt(w.phase)
    ensures Find(Next(w, e, sha).store, id) == Ok(Some(d))
  {
    hide Next, Find, Store, Recordable, Guards.SafeKey;
    StepStore(w, e, sha);
    if Next(w, e, sha).store != w.store {
      PutThenFind(w.store, w.phase.attempt.id, w.phase.decision, e.stamp, id);
    }
  }

  /** ... and then the record is found for ever. */
  lemma {:induction false} StoredIsFound(w: World, es: seq<Event>, id: string, d: Decision, sha: string -> string)
    requires SettledAs(w, id, d) && Find(w.store, id) == Ok(Some(d)) && SafeIds(w, es)
    ensures Find(Exec(w, es, sha).store, id) == Ok(Some(d)) && SafeAttempt(Exec(w, es, sha).phase)
  {
    hide Exec, Next, SettledAs, Find, SafeAttempt, Guards.SafeKey;
    if es == [] {
      ExecNothing(w, sha);
    } else {
      var past, e := es[..|es| - 1], es[|es| - 1];
      assert es == past + [e];
      assert forall i | 0 <= i < |past| :: past[i] == es[i];
      StoredIsFound(w, past, id, d, sha);
      StoredIsFinal(w, past, id, d, sha);
      ExecNext(w, past, e, sha);
      SafeAttemptStep(Exec(w, past, sha), e, sha);
      FoundStep(Exec(w, past, sha), e, id, d, sha);
    }
  }

  // ----- what is stored -------------------------------------------------------------------

  /** The decision is on record: every later lookup finds it, or, if the identity reads like a
      secret, no later lookup of any identity succeeds. */
  ghost predicate StoredNow(w: World, next: World) {
    hide *;
    && w.phase.Decided? && SettledAs(next, w.phase.attempt.id, w.phase.decision)
    && (Guards.SafeKey(w.phase.attempt.id) ==> Find(next.store, w.phase.attempt.id) == Ok(Some(w.phase.decision)))
    && (!Guards.SafeKey(w.phase.attempt.id) ==> forall other :: Find(next.store, other).ValueError?)
  }

  /** Saving a decision: of a readable store and a guarded payload, exactly the acknowledged
      decisions of commands whose mode is literally "real" are stored, and all others leave the
      store as it was. */
  lemma SavedExactly(w: World, stamp: string, sha: string -> string)
    requires w.phase.Decided? && Records(w.store).Ok? && Guards.Clean(Obj(w.phase.decision.payload))
    ensures if Recordable(w.phase.attempt, w.phase.decision) then StoredNow(w, Next(w, Save(stamp), sha))
            else Next(w, Save(stamp), sha).store == w.store
  {
    hide OnLease, OnLoadPolicy, OnLoadState, OnScreening, OnReload, OnCallOther, OnDeliver, OnCallOkx,
      RiskHistory.UpdatedFile, Recordable, Find, Records, Store, Guards.SafeKey, Guards.Clean;
    if Recordable(w.phase.attempt, w.phase.decision) {
      var attempt, d := w.phase.attempt, w.phase.decision;
      var next := Next(w, Save(stamp), sha);
      StoresReadable(w.store, d, attempt.id, stamp);
      PutThenFind(w.store, attempt.id, d, stamp, attempt.id);
      assert Store(w.store, attempt.id, d, stamp) == Ok(next.store) && next.phase == Reporting(attempt, d);
      forall other ensures !Guards.SafeKey(attempt.id) ==> Find(next.store, other).ValueError? {
        PutThenFind(w.store, attempt.id, d, stamp, other);
      }
    }
  }

  lemma StoresReadable(store: JsonFile, d: Decision, id: string, stamp: string)
    requires Records(store).Ok? && Guards.Clean(Obj(d.payload))
    ensures Store(store, id, d, stamp).Ok?
  {
    hide Guards.Clean, Records, Entry;
  }

  /** Of all the ways to write the mode that count as real when the order is placed, exactly the
      bare word counts when the result is to be stored.  With white space around it the
      acknowledgement is lost, and a re-lease starts afresh. */
  lemma PaddedModeIsNotStored(attempt: Attempt, d: Decision, mode: string)
    requires Get(attempt.command, "executionMode") == Str(mode) && Strip(mode) == "real"
    ensures Mode(attempt.command) == "real"
    ensures Recordable(attempt, d) <==> mode == "real" && d.status == "acknowledged"
  {
  }

  /** There are such modes. */
  lemma PaddedModeExists()
    ensures Strip(" real ") == "real" && " real " != "real"
  {
    assert " real "[1..] == "real ";
    assert "real "[..4] == "real";
    assert Strip("real") == "real";
  }
}
