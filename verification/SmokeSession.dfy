/** The packaged-smoke session: steps and the completion of one test run are
    published to the report file before they are committed in memory. */
module SmokeSession {
  import opened Common
  import opened SmokePlan

  // Well-formed transcripts.

  /** Started/Passed pairs for a prefix of the plan, then at most one open
      Started or one Started/Failed pair, in the order of time. */
  ghost predicate Transcript(actions: seq<Action>, steps: seq<Step>) {
    && (forall k :: 0 <= k < |steps| ==> StepFits(actions, steps, k))
    && (forall i, j :: 0 <= i < j < |steps| ==> steps[i].duration <= steps[j].duration)
  }

  ghost predicate StepFits(actions: seq<Action>, steps: seq<Step>, k: nat)
    requires k < |steps|
  {
    && k / 2 < |actions| && steps[k].action == actions[k / 2]
    && steps[k].duration <= MAX_SAFE_INTEGER
    && if k % 2 == 0 then steps[k].state.Started? && steps[k].diagnostic.None?
       else if steps[k].state.Passed? then steps[k].diagnostic.None?
       else
         && steps[k].state.Failed? && k == |steps| - 1
         && steps[k].diagnostic.Some? && ActionDiagnostic(steps[k].diagnostic.value)
  }

  ghost predicate FailedAtLast(steps: seq<Step>) {
    steps != [] && Last(steps).state.Failed?
  }

  /** The number of actions that have passed. */
  ghost function PassedActions(steps: seq<Step>): int {
    if FailedAtLast(steps) then |steps| / 2 - 1 else |steps| / 2
  }

  /** The action that is under way. */
  ghost function OpenAction(steps: seq<Step>): Option<Action> {
    if steps != [] && Last(steps).state.Started? then Some(Last(steps).action) else None
  }

  ghost function Failure(steps: seq<Step>): Option<Diagnostic> {
    if FailedAtLast(steps) then Last(steps).diagnostic else None
  }

  function LastDuration(steps: seq<Step>): U64 {
    if steps == [] then 0 else Last(steps).duration
  }

  /** The transcripts that may be completed, each with its own kind of report:
      nothing began, everything passed, or an action failed. */
  ghost predicate Concludes(actions: seq<Action>, steps: seq<Step>, request: Completion) {
    && LastDuration(steps) <= request.duration <= MAX_SAFE_INTEGER
    && if request.status.AllPassed? then
         |steps| == 2 * |actions| && !FailedAtLast(steps) && request.phase.None? && request.diagnostic.None?
       else
         && request.diagnostic.Some? && InCatalog(request.diagnostic.value)
         && request.phase.Some?
         && match request.phase.value
            case ActionPhase => FailedAtLast(steps) && request.diagnostic == Last(steps).diagnostic
            case Cleanup =>
              |steps| == 2 * |actions| && !FailedAtLast(steps) && request.diagnostic.value.code == "cleanup-failed"
            case Startup => steps == [] && request.diagnostic.value.code == "startup-failed"
            case Sidecar => steps == [] && request.diagnostic.value.code == "sidecar-failed"
            case Protocol => steps == [] && request.diagnostic.value.code == "protocol-failed"
  }

  /** What may come next, told from the bookkeeping instead of the transcript. */
  ghost predicate NextFits(actions: seq<Action>, steps: seq<Step>, step: Step) {
    && !FailedAtLast(steps)
    && LastDuration(steps) <= step.duration <= MAX_SAFE_INTEGER
    && match step.state
       case Started =>
         && step.diagnostic.None? && OpenAction(steps).None?
         && 0 <= PassedActions(steps) < |actions| && actions[PassedActions(steps)] == step.action
       case Passed => step.diagnostic.None? && OpenAction(steps) == Some(step.action)
       case Failed =>
         && step.diagnostic.Some? && ActionDiagnostic(step.diagnostic.value)
         && OpenAction(steps) == Some(step.action)
  }

  /** In a transcript the last step alone says where in the plan it stands. */
  lemma TranscriptEnds(actions: seq<Action>, steps: seq<Step>)
    requires Transcript(actions, steps) && steps != []
    ensures StepFits(actions, steps, |steps| - 1)
    ensures Last(steps).state.Started? <==> |steps| % 2 == 1
    ensures 0 <= PassedActions(steps) <= |actions|
  {
    assert StepFits(actions, steps, |steps| - 1);
  }

  lemma PrefixIsTranscript(actions: seq<Action>, steps: seq<Step>, step: Step)
    requires Transcript(actions, steps + [step])
    ensures Transcript(actions, steps) && !FailedAtLast(steps)
  {
    forall k | 0 <= k < |steps|
      ensures StepFits(actions, steps, k) && !steps[k].state.Failed?
    {
      assert StepFits(actions, steps + [step], k);
    }
    forall i, j | 0 <= i < j < |steps|
      ensures steps[i].duration <= steps[j].duration
    {
      assert (steps + [step])[i].duration <= (steps + [step])[j].duration;
    }
  }

  lemma ExtensionFits(actions: seq<Action>, steps: seq<Step>, step: Step)
    requires Transcript(actions, steps) && NextFits(actions, steps, step)
    ensures Transcript(actions, steps + [step])
  {
    var all := steps + [step];
    if steps != [] {
      TranscriptEnds(actions, steps);
    }
    forall k | 0 <= k < |all|
      ensures StepFits(actions, all, k)
    {
      if k < |steps| {
        assert StepFits(actions, steps, k);
      }
    }
  }

  lemma ExtensionFitted(actions: seq<Action>, steps: seq<Step>, step: Step)
    requires Transcript(actions, steps + [step])
    ensures NextFits(actions, steps, step)
  {
    var all := steps + [step];
    PrefixIsTranscript(actions, steps, step);
    TranscriptEnds(actions, all);
    if steps != [] {
      TranscriptEnds(actions, steps);
      assert all[|steps| - 1].duration <= all[|steps|].duration;
    }
  }

  lemma ExtendsExactly(actions: seq<Action>, steps: seq<Step>, step: Step)
    requires Transcript(actions, steps)
    ensures Transcript(actions, steps + [step]) <==> NextFits(actions, steps, step)
  {
    if NextFits(actions, steps, step) {
      ExtensionFits(actions, steps, step);
    }
    if Transcript(actions, steps + [step]) {
      ExtensionFitted(actions, steps, step);
    }
  }

  lemma ExtensionCounts(actions: seq<Action>, steps: seq<Step>, step: Step)
    requires Transcript(actions, steps + [step])
    ensures var all := steps + [step];
      && PassedActions(all) == PassedActions(steps) + (if step.state.Passed? then 1 else 0)
      && OpenAction(all) == (if step.state.Started? then Some(step.action) else None)
      && Failure(all) == (if step.state.Failed? then step.diagnostic else None)
      && !FailedAtLast(steps)
  {
    PrefixIsTranscript(actions, steps, step);
    TranscriptEnds(actions, steps + [step]);
  }

  /** No legal next step looks like the last one. */
  lemma RepeatsAreNoSteps(actions: seq<Action>, steps: seq<Step>)
    requires Transcript(actions, steps) && steps != []
    ensures !Transcript(actions, steps + [Last(steps)])
  {
    ExtendsExactly(actions, steps, Last(steps));
    TranscriptEnds(actions, steps);
  }

  // The report file.

  /** What the serialised progress or report file says. */
  datatype Image =
    | Progress(plan: Plan, duration: U64, steps: seq<Step>)
    | Report(plan: Plan, request: Completion, steps: seq<Step>, native: Observations)

  /** What the platform does with one publication. */
  datatype Luck = Luck(destinationValid: bool, fits: bool, created: bool, written: bool, renamed: bool, synced: bool)

  predicate Commits(luck: Luck) {
    luck.destinationValid && luck.fits && luck.created && luck.written && luck.renamed
  }

  /** Whether the parent directory is known to hold the new name. */
  datatype Publish = Durable | CommittedWithWarning

  class ReportTarget {
    var content: Option<Image>

    constructor (content: Option<Image>)
      ensures this.content == content
    {
      this.content := content;
    }

    method WriteAtomically(image: Image, luck: Luck) returns (r: Result<Publish, ()>)
      modifies this
      ensures r.Ok? <==> Commits(luck)
      ensures content == if r.Ok? then Some(image) else old(content)
      ensures r.Ok? ==> (r.value.Durable? <==> luck.synced)
    {
      if !luck.destinationValid || !luck.fits || !luck.created {
        return Err(());
      }
      var temporary := image;
      if !luck.written || !luck.renamed {
        return Err(());
      }
      content := Some(temporary);
      return Ok(if luck.synced then Durable else CommittedWithWarning);
    }
  }

  function Answer(status: UpdateStatus, publish: Publish): Response {
    Response(status, if publish.Durable? then None else Some(DURABILITY_WARNING))
  }

  // The session as a value: the transcript determines most of its state.

  datatype Closing = Closing(request: Completion, response: Response, native: Observations)

  datatype Session = Session(
    plan: Plan,
    proof: string,
    steps: seq<Step>,
    response: Option<Response>,
    before: Option<U64>,
    after: Option<U64>,
    closing: Option<Closing>,
    content: Option<Image>)

  ghost function Fresh(plan: Plan, proof: string, content: Option<Image>): Session {
    Session(plan, proof, [], None, None, None, None, content)
  }

  /** The observed backend generation a step must come with. */
  ghost predicate GenerationFits(s: Session, step: Step, observed: Option<U64>) {
    if step.action != BackendRetry then observed.None?
    else
      && observed.Some? && SafePositive(observed.value)
      && (step.state.Passed? ==> s.before == Some(observed.value - 1))
  }

  ghost predicate IsRepeat(s: Session, step: Step) {
    s.steps != [] && Last(s.steps) == step
  }

  /** The observation recorded with the last step. */
  ghost function RecordedGeneration(s: Session, step: Step): Option<U64> {
    if step.action != BackendRetry then None else if step.state.Started? then s.before else s.after
  }

  ghost predicate Accepts(s: Session, proof: string, step: Step, observed: Option<U64>) {
    && proof == s.proof && s.closing.None?
    && Transcript(s.plan.actions, s.steps + [step])
    && GenerationFits(s, step, observed)
  }

  /** The generations before and after the retry, once the step is recorded. */
  ghost function GenerationsAfter(s: Session, step: Step, observed: Option<U64>): (Option<U64>, Option<U64>) {
    if step.action != BackendRetry then (s.before, s.after)
    else if step.state.Started? then (observed, s.after)
    else (s.before, observed)
  }

  ghost function WithStep(s: Session, step: Step, response: Response,
                          generations: (Option<U64>, Option<U64>)): Session
  {
    s.(steps := s.steps + [step], response := Some(response), before := generations.0, after := generations.1)
  }

  ghost function Recording(s: Session, proof: string, step: Step, observed: Option<U64>, luck: Luck):
    (Session, Result<Response, ()>)
  {
    if Accepts(s, proof, step, observed) then
      if !Commits(luck) then (s, Err(()))
      else
        var response := Answer(Recorded, if luck.synced then Durable else CommittedWithWarning);
        (WithStep(s, step, response, GenerationsAfter(s, step, observed))
           .(content := Some(Progress(s.plan, step.duration, s.steps + [step]))),
         Ok(response))
    else if proof == s.proof && s.closing.None? && IsRepeat(s, step) && observed == RecordedGeneration(s, step)
      && s.response.Some?
    then (s, Ok(s.response.value))
    else (s, Err(()))
  }

  ghost predicate Concluding(s: Session, proof: string, request: Completion, native: Observations) {
    && proof == s.proof && s.closing.None?
    && Concludes(s.plan.actions, s.steps, request)
    && Observed(s.plan.scenario, request.status, native)
  }

  ghost function Completing(s: Session, proof: string, request: Completion, native: Observations, luck: Luck):
    (Session, Result<Response, ()>)
  {
    if Concluding(s, proof, request, native) then
      if !Commits(luck) then (s, Err(()))
      else
        var response := Answer(Completed, if luck.synced then Durable else CommittedWithWarning);
        (s.(closing := Some(Closing(request, response, native)),
            content := Some(Report(s.plan, request, s.steps, native))),
         Ok(response))
    else if proof == s.proof && s.closing.Some?
      && s.closing.value.request == request && s.closing.value.native == native
    then (s, Ok(s.closing.value.response))
    else (s, Err(()))
  }

  /** A backend retry is the whole plan of its scenario, so its generations
      are known from the length of the transcript. */
  ghost predicate GenerationsOk(s: Session) {
    && (s.before.Some? <==> s.plan.scenario == BackendRetryScenario && |s.steps| >= 1)
    && (s.after.Some? <==> s.plan.scenario == BackendRetryScenario && |s.steps| == 2)
    && (s.before.Some? ==> SafePositive(s.before.value))
    && (s.after.Some? && Last(s.steps).state.Passed? ==> s.after.value == s.before.value + 1)
  }

  ghost predicate Coherent(s: Session) {
    && ValidPlan(s.plan)
    && Transcript(s.plan.actions, s.steps)
    && (s.response.Some? <==> s.steps != [])
    && GenerationsOk(s)
    && (s.closing.Some? ==>
          && Concludes(s.plan.actions, s.steps, s.closing.value.request)
          && Observed(s.plan.scenario, s.closing.value.request.status, s.closing.value.native))
  }

  lemma RecordingKeepsCoherence(s: Session, step: Step, observed: Option<U64>, response: Response)
    requires Coherent(s) && Accepts(s, s.proof, step, observed)
    ensures Coherent(WithStep(s, step, response, GenerationsAfter(s, step, observed)))
  {
    var s' := WithStep(s, step, response, GenerationsAfter(s, step, observed));
    TranscriptEnds(s.plan.actions, s'.steps);
    RetryStandsAlone(s.plan, |s.steps| / 2);
    if s.steps != [] {
      PrefixIsTranscript(s.plan.actions, s.steps, step);
      TranscriptEnds(s.plan.actions, s.steps);
    }
  }

  class ActiveProtocol {
    const plan: Plan
    const sessionProof: string
    const target: ReportTarget
    var transitions: seq<Step>
    var lastRequest: Option<Step>
    var lastResponse: Option<Response>
    var nextAction: nat
    var pendingAction: Option<Action>
    var actionFailure: Option<Diagnostic>
    var terminal: bool
    var completion: Option<(Completion, Response)>
    var native: Option<Observations>
    var generationBefore: Option<U64>
    var generationAfter: Option<U64>

    ghost function Model(): Session
      reads this, target
    {
      Session(plan, sessionProof, transitions, lastResponse, generationBefore, generationAfter,
              if completion.Some? && native.Some?
              then Some(Closing(completion.value.0, completion.value.1, native.value)) else None,
              target.content)
    }

    /** The bookkeeping fields are what the transcript says. */
    ghost predicate Bookkept()
      reads this
    {
      && nextAction == PassedActions(transitions)
      && pendingAction == OpenAction(transitions)
      && actionFailure == Failure(transitions)
      && lastRequest == (if transitions == [] then None else Some(Last(transitions)))
      && (terminal <==> completion.Some?) && (terminal <==> native.Some?)
    }

    ghost predicate Valid()
      reads this, target
    {
      Coherent(Model()) && Bookkept()
    }

    constructor (plan: Plan, proof: string, target: ReportTarget)
      requires ValidPlan(plan)
      ensures Valid() && this.target == target
      ensures Model() == Fresh(plan, proof, target.content)
    {
      this.plan, this.sessionProof, this.target := plan, proof, target;
      transitions, lastRequest, lastResponse := [], None, None;
      nextAction, pendingAction, actionFailure := 0, None, None;
      terminal, completion, native, generationBefore, generationAfter := false, None, None, None, None;
    }

    /** What the first checks of `record_step_active` let through. */
    ghost predicate Admits(request: Step)
      reads this, target
    {
      && Valid() && !terminal && actionFailure.None?
      && LastDuration(transitions) <= request.duration <= MAX_SAFE_INTEGER
    }

    method CheckStarted(request: Step, observed: Option<U64>) returns (r: Result<(Option<U64>, Option<U64>), ()>)
      requires Admits(request) && request.state.Started?
      ensures r.Ok? <==> NextFits(plan.actions, transitions, request) && GenerationFits(Model(), request, observed)
      ensures r.Ok? ==> r.value == GenerationsAfter(Model(), request, observed)
    {
      if transitions != [] {
        TranscriptEnds(plan.actions, transitions);
      }
      if request.diagnostic.Some? || pendingAction.Some?
        || nextAction >= |plan.actions| || plan.actions[nextAction] != request.action
      {
        return Err(());
      }
      RetryStandsAlone(plan, nextAction);
      if request.action != BackendRetry {
        return if observed.Some? then Err(()) else Ok((generationBefore, generationAfter));
      }
      if observed.None? || !SafePositive(observed.value) || plan.scenario != BackendRetryScenario
        || generationBefore.Some? || generationAfter.Some?
      {
        return Err(());
      }
      return Ok((observed, generationAfter));
    }

    method CheckPassed(request: Step, observed: Option<U64>) returns (r: Result<(Option<U64>, Option<U64>), ()>)
      requires Admits(request) && request.state.Passed?
      ensures r.Ok? <==> NextFits(plan.actions, transitions, request) && GenerationFits(Model(), request, observed)
      ensures r.Ok? ==> r.value == GenerationsAfter(Model(), request, observed)
    {
      if request.diagnostic.Some? || pendingAction != Some(request.action) {
        return Err(());
      }
      if request.action != BackendRetry {
        return if observed.Some? then Err(()) else Ok((generationBefore, generationAfter));
      }
      OpenRetry();
      var expected := if generationBefore.Some? then CheckedSucc(generationBefore.value) else None;
      if observed.None? || !SafePositive(observed.value) || generationAfter.Some? || expected != observed {
        return Err(());
      }
      return Ok((generationBefore, observed));
    }

    method CheckFailed(request: Step, observed: Option<U64>) returns (r: Result<(Option<U64>, Option<U64>), ()>)
      requires Admits(request) && request.state.Failed?
      ensures r.Ok? <==> NextFits(plan.actions, transitions, request) && GenerationFits(Model(), request, observed)
      ensures r.Ok? ==> r.value == GenerationsAfter(Model(), request, observed)
    {
      if request.diagnostic.None? || pendingAction != Some(request.action)
        || !ActionDiagnostic(request.diagnostic.value)
      {
        return Err(());
      }
      if request.action != BackendRetry {
        return if observed.Some? then Err(()) else Ok((generationBefore, generationAfter));
      }
      OpenRetry();
      if observed.None? || !SafePositive(observed.value) || generationBefore.None? || generationAfter.Some? {
        return Err(());
      }
      return Ok((generationBefore, observed));
    }

    /** While a retry is under way, only its first generation is known. */
    lemma OpenRetry()
      requires Valid() && pendingAction == Some(BackendRetry)
      ensures generationBefore.Some? && generationAfter.None?
    {
      TranscriptEnds(plan.actions, transitions);
      RetryStandsAlone(plan, |transitions| / 2);
    }

    /** The checking half of `record_step_active`: the generations to commit. */
    method CheckStep(request: Step, observed: Option<U64>)
      returns (r: Result<(Option<U64>, Option<U64>), ()>)
      requires Valid() && !terminal
      ensures r.Ok? <==> Accepts(Model(), sessionProof, request, observed)
      ensures r.Ok? ==> r.value == GenerationsAfter(Model(), request, observed)
    {
      ExtendsExactly(plan.actions, transitions, request);
      if actionFailure.Some? {
        return Err(());
      }
      if request.duration > MAX_SAFE_INTEGER || request.duration < LastDuration(transitions) {
        return Err(());
      }
      match request.state {
        case Started => r := CheckStarted(request, observed);
        case Passed => r := CheckPassed(request, observed);
        case Failed => r := CheckFailed(request, observed);
      }
    }

    method CommitStep(request: Step, response: Response, generations: (Option<U64>, Option<U64>))
      requires Bookkept() && Transcript(plan.actions, transitions + [request])
      modifies this
      ensures Bookkept()
      ensures Model() == WithStep(old(Model()), request, response, generations)
    {
      ExtensionCounts(plan.actions, transitions, request);
      generationBefore, generationAfter := generations.0, generations.1;
      match request.state {
        case Started => pendingAction := Some(request.action);
        case Passed => pendingAction, nextAction := None, nextAction + 1;
        case Failed => pendingAction, actionFailure := None, request.diagnostic;
      }
      transitions := transitions + [request];
      lastRequest := Some(request);
      lastResponse := Some(response);
    }

    /** The answer to a repeat of the last step. */
    method RepeatStep(request: Step, observed: Option<U64>) returns (r: Result<Response, ()>)
      requires Valid() && !terminal && lastRequest == Some(request)
      ensures !Accepts(Model(), sessionProof, request, observed)
      ensures r == if observed == RecordedGeneration(Model(), request) then Ok(lastResponse.value) else Err(())
    {
      RepeatsAreNoSteps(plan.actions, transitions);
      var recorded := if request.state.Started? then generationBefore else generationAfter;
      if (request.action == BackendRetry && recorded != observed)
        || (request.action != BackendRetry && observed.Some?)
      {
        return Err(());
      }
      return if lastResponse.Some? then Ok(lastResponse.value) else Err(());
    }

    method RecordStep(proof: string, request: Step, observed: Option<U64>, luck: Luck)
      returns (r: Result<Response, ()>)
      requires Valid()
      modifies this, target
      ensures Valid()
      ensures (Model(), r) == Recording(old(Model()), proof, request, observed, luck)
    {
      if proof != sessionProof || terminal {
        return Err(());
      }
      if lastRequest == Some(request) {
        r := RepeatStep(request, observed);
        return;
      }
      r := RecordNewStep(request, observed, luck);
    }

    method RecordNewStep(request: Step, observed: Option<U64>, luck: Luck) returns (r: Result<Response, ()>)
      requires Valid() && !terminal && lastRequest != Some(request)
      modifies this, target
      ensures Valid()
      ensures (Model(), r) == Recording(old(Model()), sessionProof, request, observed, luck)
    {
      var verdict := CheckStep(request, observed);
      if verdict.Err? {
        return Err(());
      }
      RecordingKeepsCoherence(Model(), request, observed, Response(Recorded, None));
      var publish := target.WriteAtomically(Progress(plan, request.duration, transitions + [request]), luck);
      if publish.Err? {
        return Err(());
      }
      var response := Answer(Recorded, publish.value);
      CommitStep(request, response, verdict.value);
      return Ok(response);
    }

    method ValidateCompletion(request: Completion) returns (ok: bool)
      requires Valid() && !terminal
      ensures ok <==> Concludes(plan.actions, transitions, request)
    {
      if transitions != [] {
        TranscriptEnds(plan.actions, transitions);
      }
      if pendingAction.Some? {
        return false;
      }
      if request.duration > MAX_SAFE_INTEGER || request.duration < LastDuration(transitions) {
        return false;
      }
      if request.status.AllPassed? {
        return request.phase.None? && request.diagnostic.None? && actionFailure.None? && nextAction == |plan.actions|;
      }
      if request.diagnostic.None? || !InCatalog(request.diagnostic.value) || request.phase.None? {
        return false;
      }
      var code := request.diagnostic.value.code;
      match request.phase.value {
        case ActionPhase =>
          return actionFailure == request.diagnostic && (code == "action-failed" || code == "action-timeout");
        case Cleanup => return actionFailure.None? && nextAction == |plan.actions| && code == "cleanup-failed";
        case Startup => return transitions == [] && code == "startup-failed";
        case Sidecar => return transitions == [] && code == "sidecar-failed";
        case Protocol => return transitions == [] && code == "protocol-failed";
      }
    }

    method Complete(proof: string, request: Completion, observations: Observations, luck: Luck)
      returns (r: Result<Response, ()>)
      requires Valid()
      modifies this, target
      ensures Valid()
      ensures (Model(), r) == Completing(old(Model()), proof, request, observations, luck)
    {
      if proof != sessionProof {
        return Err(());
      }
      if completion.Some? {
        r := RepeatCompletion(request, observations);
        return;
      }
      var fits := ValidateCompletion(request);
      var plausible := ValidateObservations(plan.scenario, request.status, observations);
      if !fits || !plausible {
        return Err(());
      }
      r := PublishCompletion(request, observations, luck);
    }

    method RepeatCompletion(request: Completion, observations: Observations) returns (r: Result<Response, ()>)
      requires Valid() && terminal
      ensures r == if completion.value.0 == request && native.value == observations
                   then Ok(completion.value.1) else Err(())
    {
      var plausible := ValidateObservations(plan.scenario, request.status, observations);
      if !plausible || native != Some(observations) {
        return Err(());
      }
      return if completion.value.0 == request then Ok(completion.value.1) else Err(());
    }

    method PublishCompletion(request: Completion, observations: Observations, luck: Luck)
      returns (r: Result<Response, ()>)
      requires Valid() && Concluding(Model(), sessionProof, request, observations)
      modifies this, target
      ensures Valid()
      ensures (Model(), r) == Completing(old(Model()), sessionProof, request, observations, luck)
    {
      var publish := target.WriteAtomically(Report(plan, request, transitions, observations), luck);
      if publish.Err? {
        return Err(());
      }
      var response := Answer(Completed, publish.value);
      terminal, native := true, Some(observations);
      completion := Some((request, response));
      return Ok(response);
    }
  }
}
