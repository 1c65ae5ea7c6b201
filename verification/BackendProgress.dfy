/** What the steps of the backend system achieve: starts run, stops stop,
    cleanups release, and each retry has been accepted. */
module BackendProgress {
  import opened Common
  import O = BackendOwnership
  import opened BackendSystem
  import opened BackendInvariant
  import opened BackendTheorems

  // Starts run unless they are stopped.

  ghost predicate RequestsStop(step: Step) {
    step.BlockingTask? && step.work.RequestStop?
  }

  lemma StartStaysUnstopped(s: System, token: U64, step: StartStep)
    requires !s.own.stopping && CanStart(s, token, step)
    requires step.RegisterClaimed? ==> s.own.pendingStart == Some(token)
    ensures !DoStart(s, token, step).own.stopping
  {
  }

  lemma UnstoppedStays(s: System, step: Step)
    requires StartsOk(s) && !s.own.stopping && Can(s, step) && !RequestsStop(step)
    ensures !Do(s, step).own.stopping
  {
    match step {
      case StartTask(token, start) => StartStaysUnstopped(s, token, start);
      case CleanTask(c, clean) =>
      case StopCall(k, move) =>
      case BlockingTask(task, work) =>
      case _ =>
    }
  }

  lemma StartsAreOk(steps: seq<Step>)
    requires IsRun(steps)
    ensures StartsOk(After(steps)) && O.Wf(After(steps).own)
  {
    RunInv(steps);
  }

  lemma {:induction false} UnstoppedRun(steps: seq<Step>, more: seq<Step>)
    requires IsRun(steps) && IsRun(steps + more) && !After(steps).own.stopping
    requires forall step :: step in more ==> !RequestsStop(step)
    ensures !After(steps + more).own.stopping
    decreases |more|
  {
    if more == [] {
      assert steps + more == steps;
    } else {
      var before := more[..|more| - 1];
      assert (steps + more)[..|steps + more| - 1] == steps + before;
      assert Last(more) in more && forall step :: step in before ==> step in more;
      UnstoppedRun(steps, before);
      StartsAreOk(steps + before);
      UnstoppedStays(After(steps + before), Last(more));
    }
  }

  /** A retry that no stop has overtaken registers its tree as the active one,
      whatever was stopped before it was reserved. */
  lemma RetriesRun(steps: seq<Step>, more: seq<Step>, token: U64)
    requires IsRun(steps) && Can(After(steps), Coordinate(ReserveOrBreak)) && !After(steps).exit.retriesStopped
    requires IsRun(steps + [Coordinate(ReserveOrBreak)] + more)
    requires forall step :: step in more ==> !RequestsStop(step)
    requires CanStart(After(steps + [Coordinate(ReserveOrBreak)] + more), token, RegisterClaimed)
    ensures var s := After(steps + [Coordinate(ReserveOrBreak)] + more);
      var tree, s' := s.starts[token].tree, DoStart(s, token, RegisterClaimed);
      O.OwnsActive(s'.own, tree.root) && s'.own.tree == Some(tree)
  {
    var reserved := steps + [Coordinate(ReserveOrBreak)];
    assert reserved[..|reserved| - 1] == steps;
    assert After(reserved) == Do(After(steps), Coordinate(ReserveOrBreak));
    UnstoppedRun(reserved, more);
    ClaimedTreesAreAccepted(reserved + more, token);
  }

  /** The very first start likewise. */
  lemma FirstStartRuns(steps: seq<Step>, token: U64)
    requires IsRun(steps) && (forall step :: step in steps ==> !RequestsStop(step))
    requires CanStart(After(steps), token, RegisterClaimed)
    ensures var tree, s' := After(steps).starts[token].tree, DoStart(After(steps), token, RegisterClaimed);
      O.OwnsActive(s'.own, tree.root) && s'.own.tree == Some(tree)
  {
    assert [] + steps == steps;
    UnstoppedRun([], steps);
    ClaimedTreesAreAccepted(steps, token);
  }

  // Stops stop.

  /** A stop task ends all activity and works on the tree that is owned; without
      one it reports success exactly when no process is owned either. */
  lemma StopTasksTakeEffect(s: System, task: nat)
    requires O.Wf(s.own) && CanTask(s, task, RequestStop)
    ensures var s' := DoTask(s, task, RequestStop);
      && (forall pid :: !O.OwnsActive(s'.own, pid))
      && s'.own.stopping
      && O.HasOwnedWork(s'.own) == O.HasOwnedWork(s.own) && s'.own.tree == s.own.tree
      && task in s'.stops.tasks
      && (s.own.tree.Some? ==> s'.stops.tasks[task] == Killing(s.own.tree.value))
      && (s.own.tree.None? ==> s'.stops.tasks[task] == Finished(O.OwnedRootPid(s.own).None?))
  {
  }

  lemma StartStaysQuenched(s: System, token: U64, step: StartStep)
    requires O.Wf(s.own) && O.Quenched(s.own) && CanStart(s, token, step)
    ensures O.Quenched(DoStart(s, token, step).own)
  {
  }

  lemma QuenchedStays(s: System, step: Step)
    requires O.Wf(s.own) && O.Quenched(s.own) && Can(s, step) && !Reserves(s, step)
    ensures O.Quenched(Do(s, step).own)
  {
    match step {
      case StartTask(token, start) => StartStaysQuenched(s, token, start);
      case CleanTask(c, clean) =>
      case StopCall(k, move) =>
      case BlockingTask(task, work) =>
      case _ =>
    }
  }

  /** From a stop on, nothing is active until the next reservation, however the
      starts, cleanups and calls under way go on. */
  lemma {:induction false} StopsLastUntilTheNextReservation(steps: seq<Step>, stop: Step, more: seq<Step>, pid: O.Pid)
    requires IsRun(steps + [stop]) && RequestsStop(stop) && IsRun(steps + [stop] + more)
    requires After(steps + [stop] + more).own.generation == After(steps + [stop]).own.generation
    ensures !O.OwnsActive(After(steps + [stop] + more).own, pid)
  {
    assert (steps + [stop])[..|steps|] == steps;
    RunInv(steps);
    StopTasksTakeEffect(After(steps), stop.task);
    assert O.Quenched(After(steps + [stop]).own);
    QuenchedRun(steps + [stop], more);
  }

  lemma GenerationGrows(s: System, step: Step)
    requires O.Wf(s.own) && Can(s, step)
    ensures Do(s, step).own.generation == s.own.generation + (if Reserves(s, step) then 1 else 0)
  {
    if !Reserves(s, step) {
      OwnershipEvolves(s, step);
    }
  }

  lemma {:induction false} GenerationNeverFalls(steps: seq<Step>, more: seq<Step>)
    requires IsRun(steps) && IsRun(steps + more)
    ensures After(steps).own.generation <= After(steps + more).own.generation
    decreases |more|
  {
    if more == [] {
      assert steps + more == steps;
    } else {
      var before := more[..|more| - 1];
      assert (steps + more)[..|steps + more| - 1] == steps + before;
      GenerationNeverFalls(steps, before);
      StartsAreOk(steps + before);
      GenerationGrows(After(steps + before), Last(more));
    }
  }

  lemma {:induction false} QuenchedRun(steps: seq<Step>, more: seq<Step>)
    requires IsRun(steps) && IsRun(steps + more) && O.Quenched(After(steps).own)
    requires After(steps + more).own.generation == After(steps).own.generation
    ensures O.Quenched(After(steps + more).own)
    decreases |more|
  {
    if more == [] {
      assert steps + more == steps;
    } else {
      var before := more[..|more| - 1];
      assert (steps + more)[..|steps + more| - 1] == steps + before;
      StartsAreOk(steps + before);
      GenerationNeverFalls(steps, before);
      GenerationGrows(After(steps + before), Last(more));
      QuenchedRun(steps, before);
      QuenchedStays(After(steps + before), Last(more));
    }
  }

  // Cleanups release.

  /** Once termination and reaping have succeeded, releasing the owned tree ends
      all owned work and owes the waiters a notification. */
  lemma ReleasesEndOwnership(s: System, c: nat)
    requires O.Wf(s.own) && CanClean(s, c, Release) && O.Owns(s.own, s.cleaners[c].tree)
    requires s.own.tree == Some(s.cleaners[c].tree)
    ensures var s' := DoClean(s, c, Release);
      !O.HasOwnedWork(s'.own) && s'.own.tree.None? && s'.signal.owed == s.signal.owed + 1 && c !in s'.cleaners
  {
  }

  /** Nothing keeps a cleanup from its end but termination and reaping. */
  lemma CleanupsComplete(s: System, c: nat)
    requires O.Wf(s.own) && CanClean(s, c, Terminate(true)) && s.own.tree == Some(s.cleaners[c].tree)
    ensures CanClean(DoClean(s, c, Terminate(true)), c, Reap(true))
    ensures var reaped := DoClean(DoClean(s, c, Terminate(true)), c, Reap(true));
      && CanClean(reaped, c, Release)
      && !O.HasOwnedWork(DoClean(reaped, c, Release).own)
  {
  }

  /** A failed termination is tried again, a failed reaping starts over. */
  lemma CleanupsRetry(s: System, c: nat)
    ensures CanClean(s, c, Terminate(false)) ==>
      DoClean(s, c, Terminate(false)) == s && CanClean(s, c, Terminate(true))
    ensures CanClean(s, c, Reap(false)) ==> CanClean(DoClean(s, c, Reap(false)), c, Terminate(true))
  {
  }

  /** At exit the forced release does what a cleanup would have done. */
  lemma ForcedReleasesEndOwnership(s: System, k: nat)
    requires O.Wf(s.own) && CanCall(s, k, ForceRelease) && s.own.tree == Some(s.stops.calls[k].tree)
    ensures var s' := DoCall(s, k, ForceRelease);
      && !O.HasOwnedWork(s'.own) && s'.signal.owed == s.signal.owed + 1
      && k in s'.stops.calls && s'.stops.calls[k] == ForceReturned(true) && s'.stops.gate.Free?
  {
  }

  /** A start that ends without a tree gives its reservation back. */
  lemma EndedStartsReleaseTheirReservation(s: System, token: U64)
    requires O.Wf(s.own) && CanStart(s, token, CompleteStart) && s.own.pendingStart == Some(token)
    ensures var s' := DoStart(s, token, CompleteStart);
      !O.HasOwnedWork(s'.own) && token !in s'.starts && s'.signal.owed == s.signal.owed + 1
  {
  }

  /** A call that waits while nothing is owned is told so at its next look. */
  lemma WaitersAreAnswered(s: System, k: nat)
    requires CanCall(s, k, Subscribe) && !O.HasOwnedWork(s.own)
    ensures CanCall(DoCall(s, k, Subscribe), k, Check)
    ensures var answered := DoCall(DoCall(s, k, Subscribe), k, Check).stops;
      k in answered.calls && answered.calls[k] == Returned(true, s.own.generation) && answered.gate.Free?
  {
  }

  /** With nothing owned before and after, the answer is that of the stop task. */
  lemma IdleStopsAnswer(s: System, k: nat)
    requires CanCall(s, k, Decide) && !s.stops.calls[k].waits && !O.HasOwnedWork(s.own)
    ensures var answered := DoCall(s, k, Decide).stops;
      && k in answered.calls && answered.calls[k] == Returned(s.stops.calls[k].stopped, s.own.generation)
      && answered.gate.Free?
  {
  }

  /** A stop remembers whether there was anything to wait for. */
  lemma StopsRememberTheWork(s: System, k: nat, task: nat)
    requires CanCall(s, k, SpawnTask(task)) && s.stops.calls[k].Inside?
    ensures var s' := DoCall(s, k, SpawnTask(task));
      && k in s'.stops.calls && s'.stops.calls[k] == Joining(O.HasOwnedWork(s.own), task)
      && task in s'.stops.tasks && s'.stops.tasks[task] == Requesting
  {
  }

  /** With nothing owned a stop runs straight through to success. */
  lemma IdleStopsSucceed(s: System, k: nat, task: nat)
    requires CanCall(s, k, SpawnTask(task)) && s.stops.calls[k].Inside?
    requires O.Wf(s.own) && !O.HasOwnedWork(s.own)
    ensures var spawned := DoCall(s, k, SpawnTask(task));
      && CanTask(spawned, task, RequestStop)
      && var requested := DoTask(spawned, task, RequestStop);
         && CanCall(requested, k, Join)
         && CanCall(DoCall(requested, k, Join), k, Decide)
         && var answered := DoCall(DoCall(requested, k, Join), k, Decide).stops;
            k in answered.calls && answered.calls[k] == Returned(true, s.own.generation) && answered.gate.Free?
  {
    StopsRememberTheWork(s, k, task);
    var requested := DoTask(DoCall(s, k, SpawnTask(task)), task, RequestStop);
    StopTasksTakeEffect(DoCall(s, k, SpawnTask(task)), task);
    IdleStopsAnswer(DoCall(requested, k, Join), k);
  }

  /** A stop that found something owned waits for its release, whatever its
      task has reported. */
  lemma BusyStopsWait(s: System, k: nat)
    requires CanCall(s, k, Decide) && (s.stops.calls[k].waits || O.HasOwnedWork(s.own))
    ensures var watching := DoCall(s, k, Decide);
      k in watching.stops.calls && watching.stops.calls[k].Watching? && watching.stops.gate == s.stops.gate
  {
  }

  /** A forced exit kills the owned tree and releases it; without one it fails
      as long as something is owned. */
  lemma ForcedExitsReleaseTheTree(s: System, k: nat, task: nat)
    requires CanCall(s, k, SpawnTask(task)) && s.stops.calls[k].ForceInside? && O.Wf(s.own)
    ensures var s' := DoCall(s, k, SpawnTask(task));
      && k in s'.stops.calls
      && (!O.HasOwnedWork(s.own) ==> s'.stops.calls[k] == ForceReturned(true))
      && (O.HasOwnedWork(s.own) && s.own.tree.None? ==> s'.stops.calls[k] == ForceReturned(false))
      && (s.own.tree.Some? ==>
            s'.stops.calls[k] == ForceJoining(task, s.own.tree.value)
            && task in s'.stops.tasks && s'.stops.tasks[task] == Forcing(s.own.tree.value))
  {
  }

  lemma KilledTreesAreReleased(s: System, k: nat)
    requires O.Wf(s.own) && CanCall(s, k, Join) && s.stops.calls[k].ForceJoining?
    requires s.own.tree == Some(s.stops.calls[k].tree)
    ensures var joined := DoCall(s, k, Join);
      if s.stops.tasks[s.stops.calls[k].task].ok
      then CanCall(joined, k, ForceRelease) && !O.HasOwnedWork(DoCall(joined, k, ForceRelease).own)
      else k in joined.stops.calls && joined.stops.calls[k] == ForceReturned(false) && joined.own == s.own
  {
  }

  // Retries are accepted ones.

  /** The coordinator goes on exactly with a stop that succeeded. */
  lemma StopsDecideRetries(s: System)
    requires CanCoordinate(s, SeeStopped)
    ensures DoCoordinate(s, SeeStopped).coordinator
         == if s.stops.calls[s.coordinator.call].ok then Retrying else Receiving
  {
  }

  /** A reservation launches a start that can claim its tree and register it;
      after shutdown has begun there is none, and the coordinator ends. */
  lemma ReservationsLaunch(s: System, root: O.Pid)
    requires CanCoordinate(s, ReserveOrBreak)
    ensures var s' := DoCoordinate(s, ReserveOrBreak);
      if s.exit.retriesStopped then s' == s.(coordinator := Ended)
      else
        var token := s'.own.generation;
        && token == s.own.generation + 1 && s'.coordinator == Starting(token)
        && s'.own.pendingStart == Some(token) && O.HasOwnedWork(s'.own)
        && CanStart(s', token, ClaimTree(root))
        && CanStart(DoStart(s', token, ClaimTree(root)), token, RegisterClaimed)
  {
  }

  /** A cleanup takes over the tree of a start. */
  lemma HandedOverTreesAreCleaned(s: System, token: U64, c: nat)
    requires CanStart(s, token, HandOver(c)) && s.starts[token].tree.owner in s.trees.facts
    ensures var s' := DoStart(s, token, HandOver(c));
      && CanClean(s', c, Terminate(true)) && s'.cleaners[c].tree == s.starts[token].tree
      && CanStart(s', token, CompleteStart)
  {
  }

  /** The last step of the retry coordinator. */
  ghost function LastAct(steps: seq<Step>): Option<CoordinatorStep> {
    if steps == [] then None
    else if Last(steps).Coordinate? then Some(Last(steps).act)
    else LastAct(steps[..|steps| - 1])
  }

  /** Where the coordinator stands is what its last step left it to. */
  ghost predicate Follows(coordinator: Coordinator, last: Option<CoordinatorStep>) {
    && (coordinator.Reserving? ==> last == Some(GatewayAnswers(true)))
    && (coordinator.Retrying? ==> last == Some(SeeStopped))
    && (coordinator.Stopping? ==> last == Some(BeginStop(coordinator.call)))
    && (coordinator.Starting? ==> last == Some(ReserveOrBreak))
    && (last == Some(GatewayAnswers(false)) ==> coordinator.Receiving?)
  }

  lemma ActFollows(s: System, act: CoordinatorStep)
    requires CanCoordinate(s, act)
    ensures Follows(DoCoordinate(s, act).coordinator, Some(act))
  {
  }

  lemma {:induction false} CoordinatorFollows(steps: seq<Step>)
    requires IsRun(steps)
    ensures Follows(After(steps).coordinator, LastAct(steps))
    decreases |steps|
  {
    if steps != [] {
      var s, step := After(steps[..|steps| - 1]), Last(steps);
      if step.Coordinate? {
        ActFollows(s, step.act);
        assert Do(s, step) == DoCoordinate(s, step.act);
      } else {
        CoordinatorFollows(steps[..|steps| - 1]);
        CoordinatorUntouched(s, step);
      }
    }
  }

  /** A start is reserved only directly after the gateway has accepted the
      retry, which it is asked only after a stop that succeeded; a rejection
      sends the coordinator back to its channel. */
  lemma ReservationsWereAccepted(steps: seq<Step>, step: Step)
    requires IsRun(steps) && Can(After(steps), step)
    requires Do(After(steps), step).own.generation != After(steps).own.generation
    ensures LastAct(steps) == Some(GatewayAnswers(true))
  {
    RunInv(steps);
    CoordinatorFollows(steps);
    GenerationGrows(After(steps), step);
  }

  lemma GatewayIsAskedAfterStops(steps: seq<Step>, accepted: bool)
    requires IsRun(steps) && CanCoordinate(After(steps), GatewayAnswers(accepted))
    ensures LastAct(steps) == Some(SeeStopped) && !O.HasOwnedWork(After(steps).own)
    ensures DoCoordinate(After(steps), GatewayAnswers(accepted)).coordinator
         == if accepted then Reserving else Receiving
  {
    RunInv(steps);
    CoordinatorFollows(steps);
  }

  // Shutdown reports what it was told.

  lemma ShutdownRecordsAnswers(s: System, a: nat)
    ensures forall error :: CanShutdown(s, a, Collect(error)) ==>
      var exit, call := ShutdownExit(s, a, Collect(error)), s.stops.calls[s.exit.callers[a].call];
      && exit.backendCleanups == s.exit.backendCleanups + [if call.ok then Ok(()) else Err(error)]
      && exit.gatewayStops == s.exit.gatewayStops
    ensures forall result, k :: CanShutdown(s, a, GatewayStopped(result, k)) ==>
      var s' := DoShutdown(s, a, GatewayStopped(result, k));
      && s'.exit.gatewayStops == s.exit.gatewayStops + [result]
      && k in s'.stops.calls && s'.stops.calls[k].AwaitGate?
  {
  }

  /** Both failures are told, a single one as it is. */
  lemma CombinedResults(gateway: Outcome, backend: Outcome)
    ensures Combine(gateway, backend).Ok? <==> gateway.Ok? && backend.Ok?
    ensures gateway.Ok? && backend.Err? ==> Combine(gateway, backend) == backend
    ensures gateway.Err? && backend.Ok? ==> Combine(gateway, backend) == gateway
    ensures gateway.Err? && backend.Err? ==>
      Combine(gateway, backend)
      == Err("gateway shutdown failed: " + gateway.error + "; backend cleanup failed: " + backend.error)
  {
  }
}
