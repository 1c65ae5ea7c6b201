/** Guarantees of the migration over every interleaving with its disposal. */
module AuthTheorems {
  import opened Common
  import opened AuthMigration

  datatype Step =
    | Activate(scan: Scan, disposes: bool)
    | Dispose
    | ActivationAnswers(ok: bool)
    | AccountAnswers(ok: bool)
    | PromptAnswers(accepted: Option<bool>)
    | LoginAnswers(ok: bool)
    | StatusAnswers(apiKey: Option<bool>, answers: seq<Answer>)
    | RemovalAnswers(removed: Option<bool>, answers: seq<Answer>)

  ghost predicate Can(c: Controller, step: Step) {
    match step
    case Activate(_, _) => true
    case Dispose => true
    case ActivationAnswers(_) => c.phase.AwaitActivation?
    case AccountAnswers(_) => c.phase.AwaitAccount?
    case PromptAnswers(_) => c.phase.AwaitConsent?
    case LoginAnswers(_) => c.phase.AwaitLogin?
    case StatusAnswers(_, answers) => c.phase.AwaitStatus? && |answers| == |c.entries|
    case RemovalAnswers(_, answers) => Removes(c) && |answers| == |c.entries|
  }

  ghost function Do(c: Controller, step: Step): Controller
    requires Can(c, step)
  {
    match step
    case Activate(scan, disposes) => Started(c, scan, disposes)
    case Dispose => Disposed(c)
    case ActivationAnswers(ok) => Activated(c, ok)
    case AccountAnswers(ok) => AccountKnown(c, ok)
    case PromptAnswers(accepted) => Asked(c, accepted)
    case LoginAnswers(ok) => LoggedIn(c, ok)
    case StatusAnswers(apiKey, answers) => StatusKnown(c, apiKey, answers)
    case RemovalAnswers(removed, answers) => RemovalEnded(c, removed, answers)
  }

  ghost predicate IsRun(steps: seq<Step>)
    decreases |steps|, 0
  {
    steps == [] || (IsRun(steps[..|steps| - 1]) && Can(After(steps[..|steps| - 1]), Last(steps)))
  }

  ghost function After(steps: seq<Step>): Controller
    requires IsRun(steps)
    decreases |steps|, 1
  {
    if steps == [] then NEW_CONTROLLER else Do(After(steps[..|steps| - 1]), Last(steps))
  }

  // The history.

  /** What must have happened before an event. */
  ghost predicate MayFollow(log: seq<Event>, e: Event) {
    match e
    case RemovalStarted(_) => Consented in log && Confirmed in log && Disposal !in log
    case Removed(name) => RemovalStarted(name) in log
    case Kept(name) => RemovalStarted(name) in log
    case Unknown(name) => RemovalStarted(name) in log
    case _ => true
  }

  /** Removals start only after consent and confirmation, and not after a
      disposal; they end after they have started. */
  ghost predicate Orderly(log: seq<Event>) {
    forall i :: 0 <= i < |log| ==> FollowsAt(log, i)
  }

  ghost predicate FollowsAt(log: seq<Event>, i: nat)
    requires i < |log|
  {
    MayFollow(log[..i], log[i])
  }

  ghost predicate StartedAny(log: seq<Event>) {
    exists i :: 0 <= i < |log| && log[i].RemovalStarted?
  }

  lemma OrderlyGrows(log: seq<Event>, e: Event)
    requires Orderly(log) && MayFollow(log, e)
    ensures Orderly(log + [e])
    ensures StartedAny(log + [e]) <==> StartedAny(log) || e.RemovalStarted?
  {
    var more := log + [e];
    forall i | 0 <= i < |more|
      ensures FollowsAt(more, i)
    {
      assert i < |log| ==> FollowsAt(log, i);
      assert more[..i] == log[..i];
      assert i == |log| ==> log[..i] == log;
    }
    assert forall i :: 0 <= i < |log| ==> more[i] == log[i];
    assert more[|log|] == e;
  }

  // Invariants.

  ghost predicate LogOk(c: Controller) {
    Orderly(c.log) && (c.disposed <==> Disposal in c.log)
  }

  /** The activation is under way; it has been canceled exactly when disposed. */
  ghost predicate Running(c: Controller) {
    && LogOk(c)
    && (c.state.Activating? <==> !c.disposed)
    && (c.disposed ==> c.state.Manual? || c.state.RecoveryRequired?)
    && (!c.disposed ==> IsCurrent(c))
    && (c.generation <= c.activationGeneration)
    && (c.disposed ==> c.generation < c.activationGeneration)
    && (c.entries != [] ==> c.sources == Some(Names(c.entries)))
    && (c.disposed && c.state.Manual? ==> c.sources.Some?)
    && (IsPartial(c) ==> StartedAny(c.log))
  }

  /** Whoever has started to remove something will not call it manual. */
  ghost predicate Honest(c: Controller) {
    StartedAny(c.log) ==> !c.state.Manual? && (c.state.Activating? ==> IsPartial(c))
  }

  ghost predicate RemovedUpTo(c: Controller, k: nat)
    requires k <= |c.entries|
  {
    forall i :: 0 <= i < k ==> Removed(c.entries[i].name) in c.log
  }

  ghost predicate ReadBackUpTo(c: Controller, k: nat)
    requires k <= |c.entries|
  {
    forall i :: 0 <= i < k ==> ReadBack(c.entries[i].name, Absent) in c.log
  }

  ghost predicate Verified(c: Controller) {
    && c.entries != [] && c.sources == Some(Names(c.entries))
    && RemovedUpTo(c, |c.entries|) && ReadBackUpTo(c, |c.entries|)
  }

  ghost predicate Unstarted(c: Controller) {
    && c.phase.NotStarted? && c.state.Inactive? && LogOk(c) && !StartedAny(c.log)
    && c.entries == [] && c.sources.None? && !c.prompted
    && c.removedCount == 0 && c.removalInFlight == 0 && !c.removalUncertain
  }

  /** What has been established at each await of the migration. */
  ghost predicate Awaiting(c: Controller) {
    && !c.phase.NotStarted? && !c.phase.Settled?
    && Running(c) && Honest(c)
    && (c.removalInFlight == if c.phase.AwaitRemoval? then 1 else 0)
    && (c.phase.AwaitConsent? || c.phase.AwaitLogin? || c.phase.AwaitStatus? || c.phase.AwaitRemoval? ==>
          c.entries != [])
    && (c.phase.AwaitLogin? || c.phase.AwaitStatus? || c.phase.AwaitRemoval? ==> Consented in c.log)
    && (c.phase.AwaitRemoval? ==>
          && Confirmed in c.log && c.phase.k < |c.entries| && RemovedUpTo(c, c.phase.k)
          && RemovalStarted(c.entries[c.phase.k].name) in c.log)
    && (!c.phase.AwaitRemoval? ==> !StartedAny(c.log))
  }

  ghost predicate Over(c: Controller) {
    && c.phase.Settled? && LogOk(c)
    && !c.state.Activating? && !c.state.Inactive?
    && (StartedAny(c.log) ==> !c.state.Manual?)
    && (c.state.Migrated? ==> Verified(c))
  }

  ghost predicate Inv(c: Controller) {
    Unstarted(c) || Awaiting(c) || Over(c)
  }

  // Every part of the activation keeps them.

  lemma DisposalKeepsRunning(c: Controller)
    requires Running(c) && Honest(c)
    ensures Running(Disposed(c)) && Honest(Disposed(c))
    ensures StartedAny(Disposed(c).log) <==> StartedAny(c.log)
    ensures forall e :: e in c.log ==> e in Disposed(c).log
  {
    OrderlyGrows(c.log, Disposal);
  }

  lemma FinishingIsOver(c: Controller, state: State)
    requires Running(c) && state in {Ready, Migrated, Manual, RecoveryRequired}
    requires StartedAny(c.log) ==> !c.state.Manual? && state != Manual
    requires state == Migrated ==> !c.disposed && Verified(c)
    ensures Over(Finished(c, state))
  {
  }

  lemma ReadingKeepsRunning(c: Controller, disposes: bool)
    requires Running(c) && Honest(c)
    ensures Running(DisposedIf(c, disposes)) && Honest(DisposedIf(c, disposes))
    ensures StartedAny(DisposedIf(c, disposes).log) <==> StartedAny(c.log)
  {
    DisposalKeepsRunning(c);
  }

  lemma {:induction false} VerifyingKeeps(c: Controller, k: nat, answers: seq<Answer>)
    requires k <= |c.entries| == |answers| && c.entries != []
    requires Running(c) && Honest(c) && !c.disposed && RemovedUpTo(c, |c.entries|) && ReadBackUpTo(c, k)
    ensures Over(Verifying(c, k, answers))
    decreases |c.entries| - k
  {
    if k == |c.entries| {
      FinishingIsOver(c, Migrated);
    } else {
      var e := ReadBack(c.entries[k].name, answers[k].read);
      var noted := c.(log := c.log + [e]);
      OrderlyGrows(c.log, e);
      var read := DisposedIf(noted, answers[k].disposes);
      ReadingKeepsRunning(noted, answers[k].disposes);
      if !IsCurrent(read) || !answers[k].read.Absent? {
        FinishingIsOver(read, RecoveryRequired);
      } else {
        assert read == noted;
        VerifyingKeeps(read, k + 1, answers);
      }
    }
  }

  lemma RemovingKeeps(c: Controller, k: nat, answers: seq<Answer>)
    requires k <= |c.entries| == |answers| && c.entries != []
    requires Running(c) && Honest(c) && !c.disposed && RemovedUpTo(c, k) && c.removalInFlight == 0
    requires Consented in c.log && Confirmed in c.log
    ensures Inv(Removing(c, k, answers))
  {
    if k == |c.entries| {
      VerifyingKeeps(c, 0, answers);
    } else {
      var read := DisposedIf(c, answers[k].disposes);
      ReadingKeepsRunning(c, answers[k].disposes);
      if !IsCurrent(read) || answers[k].read != Text(c.entries[k].value) {
        FinishingIsOver(read, RecoveryRequired);
      } else {
        OrderlyGrows(c.log, RemovalStarted(c.entries[k].name));
        assert Awaiting(Removing(c, k, answers));
      }
    }
  }

  /** The outcome of a removal is in the books. */
  ghost predicate BookedUp(c: Controller, k: nat, removed: bool) {
    && Running(c) && StartedAny(c.log) && !c.state.Manual? && c.removalInFlight == 0
    && Consented in c.log && Confirmed in c.log
    && (removed ==> k < |c.entries| && RemovedUpTo(c, k + 1) && c.removedCount > 0)
  }

  lemma BookingKeepsRunning(c: Controller, removed: Option<bool>)
    requires Awaiting(c) && Removes(c)
    ensures BookedUp(Booked(c, removed), c.phase.k, removed == Some(true))
  {
    var booked := Booked(c, removed);
    var e := Last(booked.log);
    OrderlyGrows(c.log, e);
    assert booked.log == c.log + [e];
    assert e in booked.log && forall other :: other in c.log ==> other in booked.log;
  }

  lemma GoingOnKeeps(c: Controller, k: nat, answers: seq<Answer>)
    requires BookedUp(c, k, true) && !c.disposed && |c.entries| == |answers|
    ensures Inv(Removing(c, k + 1, answers))
  {
    RemovingKeeps(c, k + 1, answers);
  }

  lemma GivingUpIsOver(c: Controller, k: nat, removed: bool)
    requires BookedUp(c, k, removed)
    ensures Over(Finished(c, RecoveryRequired))
  {
    FinishingIsOver(c, RecoveryRequired);
  }

  lemma RemovalEndKeeps(c: Controller, removed: Option<bool>, answers: seq<Answer>)
    requires Removes(c) && |c.entries| == |answers|
    requires BookedUp(Booked(c, removed), c.phase.k, removed == Some(true))
    ensures Inv(RemovalEnded(c, removed, answers))
  {
    var booked := Booked(c, removed);
    if removed == Some(true) && IsCurrent(c) {
      GoingOnKeeps(booked, c.phase.k, answers);
    } else {
      GivingUpIsOver(booked, c.phase.k, removed == Some(true));
    }
  }

  lemma StartKeeps(c: Controller, scan: Scan, disposes: bool)
    requires Unstarted(c)
    ensures Inv(Started(c, scan, disposes))
  {
    if !c.disposed {
      var started := c.(state := Activating, activationGeneration := c.activationGeneration + 1,
                        generation := c.activationGeneration + 1);
      ReadingKeepsRunning(started, disposes);
      var read := DisposedIf(started, disposes);
      if !scan.Valid? {
        FinishingIsOver(read, Manual);
      } else {
        assert Awaiting(Scanned(read, scan));
      }
    }
  }

  lemma DisposalKeeps(c: Controller)
    requires Inv(c)
    ensures Inv(Disposed(c))
  {
    OrderlyGrows(c.log, Disposal);
    if Awaiting(c) {
      DisposalKeepsRunning(c);
      assert Awaiting(Disposed(c));
    } else if Unstarted(c) {
      assert Unstarted(Disposed(c));
    } else {
      assert Over(Disposed(c));
    }
  }

  lemma AnswerKeeps(c: Controller, step: Step)
    requires Awaiting(c) && Can(c, step) && !step.Activate? && !step.Dispose?
    ensures Inv(Do(c, step))
  {
    match step {
      case ActivationAnswers(ok) =>
        FinishingIsOver(c, RecoveryRequired);
      case AccountAnswers(ok) =>
        FinishingIsOver(c, if ok then Ready else RecoveryRequired);
      case PromptAnswers(accepted) =>
        OrderlyGrows(c.log, Consented);
        FinishingIsOver(c, Manual);
      case LoginAnswers(ok) =>
        FinishingIsOver(c, RecoveryRequired);
      case StatusAnswers(apiKey, answers) =>
        OrderlyGrows(c.log, Confirmed);
        FinishingIsOver(c, RecoveryRequired);
        if IsCurrent(c) && apiKey == Some(true) {
          RemovingKeeps(c.(log := c.log + [Confirmed]), 0, answers);
        }
      case RemovalAnswers(removed, answers) =>
        BookingKeepsRunning(c, removed);
        RemovalEndKeeps(c, removed, answers);
    }
  }

  lemma StepKeeps(c: Controller, step: Step)
    requires Inv(c) && Can(c, step)
    ensures Inv(Do(c, step))
  {
    if step.Dispose? {
      DisposalKeeps(c);
    } else if step.Activate? {
      if Unstarted(c) {
        StartKeeps(c, step.scan, step.disposes);
      }
    } else {
      AnswerKeeps(c, step);
    }
  }

  lemma {:induction false} RunKeeps(steps: seq<Step>)
    requires IsRun(steps)
    ensures Inv(After(steps))
    decreases |steps|
  {
    if steps == [] {
      assert Unstarted(NEW_CONTROLLER);
    } else {
      RunKeeps(steps[..|steps| - 1]);
      StepKeeps(After(steps[..|steps| - 1]), Last(steps));
    }
  }

  // The guarantees.

  /** Nothing is removed before accepted consent and a confirmed API-key
      login, nor once the controller has been disposed. */
  lemma RemovalsAreAuthorised(steps: seq<Step>, i: nat)
    requires IsRun(steps) && i < |After(steps).log| && After(steps).log[i].RemovalStarted?
    ensures var before := After(steps).log[..i];
      Consented in before && Confirmed in before && Disposal !in before
  {
    RunKeeps(steps);
    assert FollowsAt(After(steps).log, i);
  }

  /** `migrated` is only said of preferences that were all removed and then
      read back as absent. */
  lemma MigratedMeansRemoved(steps: seq<Step>)
    requires IsRun(steps) && After(steps).state.Migrated?
    ensures var c := After(steps);
      && c.sources.Some? && c.sources.value != []
      && forall name :: name in c.sources.value ==> Removed(name) in c.log && ReadBack(name, Absent) in c.log
  {
    RunKeeps(steps);
  }

  /** `manual` is only said when no removal was ever begun. */
  lemma ManualMeansUntouched(steps: seq<Step>, e: Event)
    requires IsRun(steps) && After(steps).state.Manual? && e in After(steps).log
    ensures !e.RemovalStarted? && !e.Removed? && !e.Unknown? && !e.Kept?
  {
    RunKeeps(steps);
    var c := After(steps);
    EndsWereStarted(c.log, e);
  }

  lemma EndsWereStarted(log: seq<Event>, e: Event)
    requires Orderly(log) && e in log
    ensures e.RemovalStarted? || e.Removed? || e.Unknown? || e.Kept? ==> StartedAny(log)
  {
    var i :| 0 <= i < |log| && log[i] == e;
    assert FollowsAt(log, i);
    if e.Removed? || e.Unknown? || e.Kept? {
      var j :| 0 <= j < i && log[j] == RemovalStarted(e.name);
    }
  }

  /** A disposal decides the state for good: the later correction of a
      `manual` state never has anything to correct. */
  lemma DisposalDecides(steps: seq<Step>, step: Step)
    requires IsRun(steps) && Can(After(steps), step) && After(steps).disposed
    ensures Do(After(steps), step).state == After(steps).state
  {
    RunKeeps(steps);
  }

  // What an undisturbed activation comes to.

  /** The answers one after another, as long as nobody disposes the controller. */
  ghost predicate Settles(c: Controller, step: Step)
    requires Can(c, step)
  {
    var c' := Do(c, step);
    match step
    case ActivationAnswers(ok) =>
      if ok then c'.phase.AwaitAccount? && c'.state.Activating? else c'.state.RecoveryRequired?
    case AccountAnswers(ok) => c'.phase.Settled? && c'.state == if ok then Ready else RecoveryRequired
    case PromptAnswers(accepted) =>
      if accepted == Some(true) then c'.phase.AwaitLogin? && c'.state.Activating? else c'.state.Manual?
    case LoginAnswers(ok) => if ok then c'.phase.AwaitStatus? && c'.state.Activating? else c'.state.RecoveryRequired?
    case StatusAnswers(apiKey, _) => apiKey != Some(true) ==> c'.state.RecoveryRequired?
    case RemovalAnswers(removed, _) => removed != Some(true) ==> c'.state.RecoveryRequired?
    case _ => true
  }

  lemma CurrentSettles(c: Controller, step: Step)
    requires Can(c, step) && IsCurrent(c) && c.state.Activating?
    ensures Settles(c, step)
  {
    match step {
      case RemovalAnswers(removed, answers) =>
        assert IsCurrent(Booked(c, removed));
      case _ =>
    }
  }

  lemma UndisturbedAnswersSettle(steps: seq<Step>, step: Step)
    requires IsRun(steps) && Can(After(steps), step) && !After(steps).disposed
    ensures Settles(After(steps), step)
  {
    RunKeeps(steps);
    if !step.Activate? && !step.Dispose? {
      CurrentSettles(After(steps), step);
    }
  }

  /** A disposal during the activation leaves it to the user exactly when
      nothing has been touched and there is something to handle. */
  lemma DisposalOutcome(steps: seq<Step>)
    requires IsRun(steps) && Awaiting(After(steps)) && !After(steps).disposed
    ensures var c := After(steps);
      Disposed(c).state == if StartedAny(c.log) || c.sources.None? then RecoveryRequired else Manual
  {
  }

  /** Nothing has changed since the scan, and nothing disposes. */
  ghost predicate Unchanged(entries: seq<Entry>, answers: seq<Answer>) {
    |answers| == |entries| && forall k :: 0 <= k < |answers| ==> answers[k] == Answer(Text(entries[k].value), false)
  }

  ghost predicate AllGone(entries: seq<Entry>, answers: seq<Answer>) {
    |answers| == |entries| && forall k :: 0 <= k < |answers| ==> answers[k] == Answer(Absent, false)
  }

  /** A removal starts exactly on a preference that still has the scanned value;
      on any other it is left alone and the user is asked to recover. */
  lemma ChangedPreferencesAreKept(c: Controller, k: nat, answers: seq<Answer>)
    requires k < |c.entries| == |answers| && IsCurrent(c) && !answers[k].disposes
    ensures var c' := Removing(c, k, answers);
      if answers[k].read == Text(c.entries[k].value)
      then c'.phase == AwaitRemoval(k) && c'.log == c.log + [RemovalStarted(c.entries[k].name)] && c'.state == c.state
      else c'.phase.Settled? && c'.log == c.log && c'.state == RecoveryRequired
  {
  }

  lemma {:induction false} VerifyingSucceeds(c: Controller, k: nat, answers: seq<Answer>)
    requires k <= |c.entries| && AllGone(c.entries, answers) && IsCurrent(c)
    ensures var c' := Verifying(c, k, answers);
      c'.state == Migrated && c'.phase.Settled? && c'.sources == c.sources
    decreases |c.entries| - k
  {
    if k < |c.entries| {
      VerifyingSucceeds(c.(log := c.log + [ReadBack(c.entries[k].name, answers[k].read)]), k + 1, answers);
    }
  }

  /** The migration of these entries has got to its k-th removal. */
  ghost predicate At(c: Controller, entries: seq<Entry>, k: nat) {
    && c.phase == AwaitRemoval(k) && k < |entries| && c.entries == entries
    && c.sources == Some(Names(entries)) && IsCurrent(c) && c.removalInFlight == 1
  }

  lemma NextRemoval(c: Controller, entries: seq<Entry>, k: nat, answers: seq<Answer>)
    requires At(c, entries, k) && k + 1 < |entries| && Unchanged(entries, answers)
    ensures Can(c, RemovalAnswers(Some(true), answers))
    ensures At(Do(c, RemovalAnswers(Some(true), answers)), entries, k + 1)
  {
  }

  lemma LastRemoval(c: Controller, entries: seq<Entry>, answers: seq<Answer>)
    requires entries != [] && At(c, entries, |entries| - 1) && AllGone(entries, answers)
    ensures Can(c, RemovalAnswers(Some(true), answers))
    ensures var c' := Do(c, RemovalAnswers(Some(true), answers));
      c'.state == Migrated && c'.sources == Some(Names(entries))
  {
    VerifyingSucceeds(Booked(c, Some(true)), 0, answers);
  }

  lemma Continue(steps: seq<Step>, step: Step)
    requires IsRun(steps) && Can(After(steps), step)
    ensures IsRun(steps + [step]) && After(steps + [step]) == Do(After(steps), step)
  {
    assert (steps + [step])[..|steps|] == steps;
  }

  lemma {:induction false} RemovalsGoOn(steps: seq<Step>, entries: seq<Entry>, k: nat,
                                        same: seq<Answer>, gone: seq<Answer>)
    returns (all: seq<Step>)
    requires IsRun(steps) && At(After(steps), entries, k) && Unchanged(entries, same) && AllGone(entries, gone)
    ensures IsRun(all) && After(all).state == Migrated && After(all).sources == Some(Names(entries))
    decreases |entries| - k
  {
    var c := After(steps);
    if k + 1 < |entries| {
      NextRemoval(c, entries, k, same);
      Continue(steps, RemovalAnswers(Some(true), same));
      all := RemovalsGoOn(steps + [RemovalAnswers(Some(true), same)], entries, k + 1, same, gone);
    } else {
      LastRemoval(c, entries, gone);
      Continue(steps, RemovalAnswers(Some(true), gone));
      all := steps + [RemovalAnswers(Some(true), gone)];
    }
  }

  /** With consent, a confirmed login, every removal done and every preference
      read back as absent, the activation of any legacy entries ends migrated. */
  lemma UndisturbedMigrationSucceeds(entries: seq<Entry>, same: seq<Answer>, gone: seq<Answer>)
    returns (all: seq<Step>)
    requires entries != [] && Unchanged(entries, same) && AllGone(entries, gone)
    ensures IsRun(all) && After(all).state == Migrated && After(all).sources == Some(Names(entries))
  {
    var s1 := [Activate(Valid(entries), false)];
    Continue([], Activate(Valid(entries), false));
    assert [] + s1 == s1;
    Continue(s1, PromptAnswers(Some(true)));
    var s2 := s1 + [PromptAnswers(Some(true))];
    Continue(s2, LoginAnswers(true));
    var s3 := s2 + [LoginAnswers(true)];
    Continue(s3, StatusAnswers(Some(true), same));
    all := RemovalsGoOn(s3 + [StatusAnswers(Some(true), same)], entries, 0, same, gone);
  }
}
