/** Guarantees over every sequence of calls a smoke session may receive. */
module SmokeTheorems {
  import opened Common
  import opened SmokePlan
  import opened SmokeSession

  datatype Call =
    | Record(proof: string, step: Step, observed: Option<U64>, luck: Luck)
    | Finish(proof: string, request: Completion, native: Observations, luck: Luck)

  ghost function Outcome(s: Session, call: Call): (Session, Result<Response, ()>) {
    match call
    case Record(proof, step, observed, luck) => Recording(s, proof, step, observed, luck)
    case Finish(proof, request, native, luck) => Completing(s, proof, request, native, luck)
  }

  ghost function After(s: Session, calls: seq<Call>): Session {
    if calls == [] then s else Outcome(After(s, calls[..|calls| - 1]), Last(calls)).0
  }

  /** What the report file shows of a committed session. */
  ghost function ImageOf(s: Session): Image {
    if s.closing.Some? then Report(s.plan, s.closing.value.request, s.steps, s.closing.value.native)
    else Progress(s.plan, LastDuration(s.steps), s.steps)
  }

  ghost predicate Untouched(s: Session) {
    s.steps == [] && s.closing.None?
  }

  ghost predicate Keeps(s: Session, s': Session) {
    Coherent(s') && s'.plan == s.plan && s'.proof == s.proof
  }

  lemma CallKeepsCoherence(s: Session, call: Call)
    requires Coherent(s)
    ensures Keeps(s, Outcome(s, call).0)
  {
    if call.Record? && Accepts(s, call.proof, call.step, call.observed) && Commits(call.luck) {
      var response := Outcome(s, call).1.value;
      RecordingKeepsCoherence(s, call.step, call.observed, response);
    }
  }

  lemma {:induction false} RunKeepsCoherence(s: Session, calls: seq<Call>)
    requires Coherent(s)
    ensures Keeps(s, After(s, calls))
    decreases |calls|
  {
    if calls != [] {
      var s' := After(s, calls[..|calls| - 1]);
      RunKeepsCoherence(s, calls[..|calls| - 1]);
      CallKeepsCoherence(s', Last(calls));
      assert Keeps(s', After(s, calls));
    }
  }

  // The transcript and its conclusion.

  /** What a completed session's report says about its transcript. */
  ghost predicate ReportFits(actions: seq<Action>, steps: seq<Step>, request: Completion) {
    && OpenAction(steps).None?
    && (request.status.AllPassed? <==> request.diagnostic.None?)
    && (request.status.AllPassed? ==> PassedActions(steps) == |actions| && Failure(steps).None?)
    && (request.phase == Some(ActionPhase) <==> Failure(steps).Some?)
    && (Failure(steps).Some? ==> request.diagnostic == Failure(steps))
    && LastDuration(steps) <= request.duration
  }

  lemma ConclusionFits(actions: seq<Action>, steps: seq<Step>, request: Completion)
    requires Transcript(actions, steps) && Concludes(actions, steps, request)
    ensures ReportFits(actions, steps, request)
  {
    if steps != [] {
      TranscriptEnds(actions, steps);
    }
  }

  /** Whatever calls a session receives, its transcript is well formed, and a
      completed session's report fits its transcript. */
  lemma TranscriptsAreWellFormed(plan: Plan, proof: string, content: Option<Image>, calls: seq<Call>)
    requires ValidPlan(plan)
    ensures var s := After(Fresh(plan, proof, content), calls);
      && Transcript(plan.actions, s.steps)
      && (s.closing.Some? ==> ReportFits(plan.actions, s.steps, s.closing.value.request))
  {
    RunKeepsCoherence(Fresh(plan, proof, content), calls);
    var s := After(Fresh(plan, proof, content), calls);
    if s.closing.Some? {
      ConclusionFits(plan.actions, s.steps, s.closing.value.request);
    }
  }

  /** A backend retry that passed moved the backend on by exactly one
      generation, in the transcript and in the native report. */
  lemma PassedRetryAdvances(plan: Plan, proof: string, content: Option<Image>, calls: seq<Call>)
    requires ValidPlan(plan) && plan.scenario == BackendRetryScenario
    ensures var s := After(Fresh(plan, proof, content), calls);
      s.closing.Some? && s.closing.value.request.status.AllPassed? ==>
        && s.before.Some? && s.after == Some(s.before.value + 1)
        && s.closing.value.native.generationAfter == s.closing.value.native.generationBefore + 1
  {
    RunKeepsCoherence(Fresh(plan, proof, content), calls);
    var s := After(Fresh(plan, proof, content), calls);
    if s.steps != [] {
      TranscriptEnds(plan.actions, s.steps);
    }
  }

  ghost const LUCKY := Luck(true, true, true, true, true, true)

  /** The call that records the last step of a transcript. */
  ghost function Recorder(s: Session, step: Step): Call {
    Record(s.proof, step,
           if step.action != BackendRetry then None
           else if step.state.Passed? then Some(2) else Some(1), LUCKY)
  }

  ghost function Recorders(s: Session, steps: seq<Step>): seq<Call> {
    if steps == [] then []
    else
      var earlier := Recorders(s, steps[..|steps| - 1]);
      earlier + [Recorder(After(s, earlier), Last(steps))]
  }

  lemma RecorderRecords(s: Session, step: Step)
    requires Coherent(s) && s.closing.None? && s.before in {None, Some(1)}
    requires Transcript(s.plan.actions, s.steps + [step])
    ensures var s' := Outcome(s, Recorder(s, step)).0;
      s'.steps == s.steps + [step] && s'.closing.None? && s'.before in {None, Some(1)}
  {
    TranscriptEnds(s.plan.actions, s.steps + [step]);
    RetryStandsAlone(s.plan, |s.steps| / 2);
    assert Accepts(s, s.proof, step, Recorder(s, step).observed);
  }

  /** Conversely every well-formed transcript can be recorded. */
  lemma {:induction false} EveryTranscriptCanBeRecorded(plan: Plan, proof: string, content: Option<Image>,
                                                        steps: seq<Step>)
    requires ValidPlan(plan) && Transcript(plan.actions, steps)
    ensures After(Fresh(plan, proof, content), Recorders(Fresh(plan, proof, content), steps)).steps == steps
    ensures After(Fresh(plan, proof, content), Recorders(Fresh(plan, proof, content), steps)).closing.None?
    ensures After(Fresh(plan, proof, content), Recorders(Fresh(plan, proof, content), steps)).before in {None, Some(1)}
    decreases |steps|
  {
    var s0 := Fresh(plan, proof, content);
    if steps == [] {
    } else {
      var some, step := steps[..|steps| - 1], Last(steps);
      assert steps == some + [step];
      PrefixIsTranscript(plan.actions, some, step);
      EveryTranscriptCanBeRecorded(plan, proof, content, some);
      var earlier := Recorders(s0, some);
      RunKeepsCoherence(s0, earlier);
      RecorderRecords(After(s0, earlier), step);
      var all := Recorders(s0, steps);
      assert all[..|all| - 1] == earlier;
    }
  }

  // Publication.

  /** A call either changes nothing, or publishes exactly what it commits. */
  lemma CallsPublishWhatTheyCommit(s: Session, call: Call)
    ensures var (s', r) := Outcome(s, call);
      && (s' != s ==> Commits(call.luck) && r.Ok? && s'.content == Some(ImageOf(s')))
      && (!Commits(call.luck) ==> s' == s)
      && (r.Err? ==> s' == s)
  {
  }

  /** A durable publication answers plainly, one whose directory could not be
      synchronised with the warning. */
  lemma AnswersTellDurability(s: Session, call: Call)
    ensures var (s', r) := Outcome(s, call);
      s' != s ==>
        && (call.luck.synced <==> r.value.diagnostic.None?)
        && (!call.luck.synced ==>
              r.value.diagnostic == Some(Diagnostic("report-durability-warning",
                                                    "Smoke report was committed but durability sync failed.")))
        && (r.value.status.Recorded? <==> call.Record?)
  {
  }

  /** Every report that fits the transcript and the observations is accepted by
      a session that is not over, if the disk plays along. */
  lemma FittingReportsAreAccepted(s: Session, request: Completion, native: Observations)
    requires s.closing.None? && Concludes(s.plan.actions, s.steps, request)
    requires Observed(s.plan.scenario, request.status, native)
    ensures var (s', r) := Outcome(s, Finish(s.proof, request, native, LUCKY));
      && r.Ok? && s'.closing.Some?
      && s'.content == Some(Report(s.plan, request, s.steps, native))
  {
  }

  /** From the first publication on, the file shows the committed session. */
  lemma {:induction false} FileShowsTheSession(plan: Plan, proof: string, content: Option<Image>, calls: seq<Call>)
    ensures var s := After(Fresh(plan, proof, content), calls);
      if Untouched(s) then s == Fresh(plan, proof, content) else s.content == Some(ImageOf(s))
    decreases |calls|
  {
    if calls == [] {
    } else {
      FileShowsTheSession(plan, proof, content, calls[..|calls| - 1]);
      CallsPublishWhatTheyCommit(After(Fresh(plan, proof, content), calls[..|calls| - 1]), Last(calls));
    }
  }

  /** Two calls that differ at most in what the platform does with them. */
  ghost predicate SameRequest(call: Call, again: Call) {
    match call
    case Record(proof, step, observed, _) =>
      again.Record? && again.proof == proof && again.step == step && again.observed == observed
    case Finish(proof, request, native, _) =>
      again.Finish? && again.proof == proof && again.request == request && again.native == native
  }

  lemma StepRepeats(s: Session, call: Call, again: Call)
    requires Coherent(s) && call.Record? && SameRequest(call, again) && Outcome(s, call).1.Ok?
    ensures Outcome(Outcome(s, call).0, again) == Outcome(s, call)
  {
    var s' := Outcome(s, call).0;
    CallKeepsCoherence(s, call);
    TranscriptEnds(s.plan.actions, s'.steps);
    RepeatsAreNoSteps(s.plan.actions, s'.steps);
  }

  lemma CompletionRepeats(s: Session, call: Call, again: Call)
    requires call.Finish? && SameRequest(call, again) && Outcome(s, call).1.Ok?
    ensures Outcome(Outcome(s, call).0, again) == Outcome(s, call)
  {
  }

  /** An accepted call, repeated at once, gets the same answer, writes nothing
      and needs no luck. */
  lemma RepeatsAreHarmless(plan: Plan, proof: string, content: Option<Image>, calls: seq<Call>, call: Call, again: Call)
    requires ValidPlan(plan) && SameRequest(call, again)
    requires Outcome(After(Fresh(plan, proof, content), calls), call).1.Ok?
    ensures var (s, r) := Outcome(After(Fresh(plan, proof, content), calls), call);
      Outcome(s, again) == (s, r)
  {
    RunKeepsCoherence(Fresh(plan, proof, content), calls);
    var s := After(Fresh(plan, proof, content), calls);
    if call.Record? {
      StepRepeats(s, call, again);
    } else {
      CompletionRepeats(s, call, again);
    }
  }

  /** No step that could be recorded as new is answered as a repeat. */
  lemma NewStepsAreNotMistaken(plan: Plan, proof: string, content: Option<Image>, calls: seq<Call>, step: Step)
    requires ValidPlan(plan)
    ensures var s := After(Fresh(plan, proof, content), calls);
      !(IsRepeat(s, step) && Transcript(plan.actions, s.steps + [step]))
  {
    RunKeepsCoherence(Fresh(plan, proof, content), calls);
    var s := After(Fresh(plan, proof, content), calls);
    if s.steps != [] {
      RepeatsAreNoSteps(plan.actions, s.steps);
    }
  }

  /** A terminal report is never overwritten. */
  lemma {:induction false} ReportsAreFinal(s: Session, calls: seq<Call>)
    requires s.closing.Some?
    ensures After(s, calls) == s
    decreases |calls|
  {
    if calls == [] {
    } else {
      ReportsAreFinal(s, calls[..|calls| - 1]);
    }
  }
}
