/** The coordinator, application shutdown, and the guarantees of whole runs. */
module BackendTheorems {
  import opened Common
  import O = BackendOwnership
  import opened BackendSystem
  import opened BackendInvariant

  ghost predicate Forced(call: Call) {
    call.ForceAwaitGate? || call.ForceInside? || call.ForceJoining? || call.ForceReleasing? || call.ForceReturned?
  }

  /** The call has not been answered yet, or for the current generation. */
  ghost predicate Current(s: System, k: nat) {
    && k in s.stops.calls && !Forced(s.stops.calls[k])
    && (s.stops.calls[k].Returned? ==> s.stops.calls[k].generation == s.own.generation)
  }

  ghost predicate CoordinatorOk(s: System) {
    && (s.coordinator.Stopping? ==> Current(s, s.coordinator.call))
    && (s.coordinator.Retrying? || s.coordinator.Reserving? ==> !O.HasOwnedWork(s.own))
  }

  /** Both parts of the shutdown have run once, with this combined result. */
  ghost predicate RanBoth(exit: Exit, result: Outcome) {
    && |exit.gatewayStops| == 1 && |exit.backendCleanups| == 1
    && result == Combine(exit.gatewayStops[0], exit.backendCleanups[0])
  }

  ghost predicate CallerOk(s: System, caller: Caller) {
    var exit := s.exit;
    match caller
    case LeaderFlags => exit.state.Running? && exit.gatewayStops == [] && exit.backendCleanups == []
    case LeaderCloses =>
      exit.state.Running? && exit.retriesStopped && exit.gatewayStops == [] && exit.backendCleanups == []
    case LeaderCleans(gateway, k) =>
      && exit.state.Running? && exit.retriesStopped && exit.gatewayStops == [gateway] && exit.backendCleanups == []
      && Current(s, k)
    case LeaderStores(result) =>
      && exit.state.Running? && exit.retriesStopped && RanBoth(exit, result)
      && (result.Ok? ==> !O.HasOwnedWork(s.own))
    case LeaderSends(result) => exit.state == Complete(result) && exit.completion.None?
    case Follower => !exit.state.Idle?
    case Got(result) => exit.state == Complete(result)
  }

  ghost predicate Leads(caller: Caller) {
    !caller.Follower? && !caller.Got?
  }

  ghost predicate OneLeader(exit: Exit) {
    && (forall a, b :: a in exit.callers && b in exit.callers && Leads(exit.callers[a]) && Leads(exit.callers[b])
          ==> a == b)
    && (exit.completion.None? && !exit.state.Idle? ==> exists a :: a in exit.callers && Leads(exit.callers[a]))
  }

  ghost predicate ResultOk(s: System) {
    var exit := s.exit;
    && (exit.completion.Some? ==> exit.state == Complete(exit.completion.value))
    && (exit.state.Idle? ==> exit.callers == map[] && exit.gatewayStops == [] && exit.backendCleanups == [])
    && (exit.state.Complete? ==>
          && exit.retriesStopped && RanBoth(exit, exit.state.result)
          && (exit.state.result.Ok? ==> !O.HasOwnedWork(s.own)))
  }

  ghost predicate ExitOk(s: System) {
    && (forall a :: a in s.exit.callers ==> CallerOk(s, s.exit.callers[a]))
    && OneLeader(s.exit)
    && ResultOk(s)
  }

  ghost predicate Inv(s: System) {
    && StartsOk(s) && TreesOk(s) && Tracked(s) && GateOk(s.stops) && WaitersOk(s) && AnswersOk(s)
    && CoordinatorOk(s) && ExitOk(s)
  }

  lemma CallsElsewhereStay(s: System, step: Step, k: nat)
    requires Can(s, step) && k in s.stops.calls && !(step.StopCall? && step.call == k)
    ensures k in Do(s, step).stops.calls && Do(s, step).stops.calls[k] == s.stops.calls[k]
  {
    match step {
      case StopCall(other, move) => assert k in CallStops(s, other, move).calls;
      case BlockingTask(task, work) => assert TaskStops(s, task, work).calls == s.stops.calls;
      case StartTask(token, start) => assert DoStart(s, token, start).stops == s.stops;
      case CleanTask(c, clean) => assert DoClean(s, c, clean).stops == s.stops;
      case _ =>
    }
  }

  /** A call that returns does so for the generation of that moment. */
  lemma MovingStaysCurrent(s: System, k: nat, step: CallStep)
    requires CanCall(s, k, step)
    ensures k in CallStops(s, k, step).calls
    ensures var call := CallStops(s, k, step).calls[k];
      && !s.stops.calls[k].Returned? && (call.Returned? ==> call.generation == s.own.generation)
      && (Forced(call) <==> Forced(s.stops.calls[k]))
  {
  }

  lemma CallStaysCurrent(s: System, step: Step, k: nat)
    requires O.Wf(s.own) && Can(s, step) && !Reserves(s, step) && Current(s, k)
    ensures Current(Do(s, step), k)
  {
    OwnershipEvolves(s, step);
    if step.StopCall? && step.call == k {
      MovingStaysCurrent(s, k, step.move);
      assert Do(s, step).stops == CallStops(s, k, step.move);
    } else {
      CallsElsewhereStay(s, step, k);
    }
  }

  lemma CoordinatingKeepsOk(s: System, step: CoordinatorStep)
    requires O.Wf(s.own) && AnswersOk(s) && CoordinatorOk(s) && CanCoordinate(s, step)
    ensures CoordinatorOk(DoCoordinate(s, step))
  {
  }

  lemma CoordinatorStaysOk(s: System, step: Step)
    requires O.Wf(s.own) && AnswersOk(s) && CoordinatorOk(s) && Can(s, step)
    ensures CoordinatorOk(Do(s, step))
  {
    if step.Coordinate? {
      CoordinatingKeepsOk(s, step.act);
    } else {
      OwnershipEvolves(s, step);
      CoordinatorUntouched(s, step);
      if s.coordinator.Stopping? {
        CallStaysCurrent(s, step, s.coordinator.call);
      }
    }
  }

  lemma CoordinatorUntouched(s: System, step: Step)
    requires Can(s, step) && !step.Coordinate?
    ensures Do(s, step).coordinator == s.coordinator
  {
  }

  lemma ExitUntouched(s: System, step: Step)
    requires Can(s, step) && !step.Shutdown?
    ensures Do(s, step).exit == s.exit
  {
  }

  lemma OthersKeepExit(s: System, step: Step)
    requires O.Wf(s.own) && ExitOk(s) && Can(s, step) && !step.Shutdown?
    ensures ExitOk(Do(s, step))
  {
    var s' := Do(s, step);
    ExitUntouched(s, step);
    if !Reserves(s, step) {
      OwnershipEvolves(s, step);
    }
    forall a | a in s.exit.callers
      ensures CallerOk(s', s.exit.callers[a])
    {
      var caller := s.exit.callers[a];
      assert CallerOk(s, caller);
      if caller.LeaderCleans? {
        CallStaysCurrent(s, step, caller.call);
      }
    }
  }

  lemma OtherCallersStayOk(s: System, a: nat, step: ShutdownStep, b: nat)
    requires ExitOk(s) && CanShutdown(s, a, step)
    requires b in s.exit.callers && b != a
    ensures CallerOk(DoShutdown(s, a, step), s.exit.callers[b])
  {
    assert CallerOk(s, s.exit.callers[b]);
    assert a in s.exit.callers ==> CallerOk(s, s.exit.callers[a]);
  }

  lemma MovingCallerIsOk(s: System, a: nat, step: ShutdownStep)
    requires AnswersOk(s) && ExitOk(s) && CanShutdown(s, a, step)
    ensures a in DoShutdown(s, a, step).exit.callers
    ensures CallerOk(DoShutdown(s, a, step), DoShutdown(s, a, step).exit.callers[a])
  {
    assert a in s.exit.callers ==> CallerOk(s, s.exit.callers[a]);
  }

  lemma OneLeaderStays(s: System, a: nat, step: ShutdownStep)
    requires ExitOk(s) && CanShutdown(s, a, step)
    ensures OneLeader(ShutdownExit(s, a, step))
  {
    var exit := ShutdownExit(s, a, step);
    assert a in s.exit.callers ==> CallerOk(s, s.exit.callers[a]);
    if exit.completion.None? && !exit.state.Idle? && !Leads(exit.callers[a]) {
      var b :| b in s.exit.callers && Leads(s.exit.callers[b]);
      assert b in exit.callers && Leads(exit.callers[b]);
    }
  }

  lemma ShutdownKeepsExit(s: System, a: nat, step: ShutdownStep)
    requires AnswersOk(s) && ExitOk(s) && CanShutdown(s, a, step)
    ensures ExitOk(DoShutdown(s, a, step))
  {
    var s' := DoShutdown(s, a, step);
    MovingCallerIsOk(s, a, step);
    OneLeaderStays(s, a, step);
    forall b | b in s'.exit.callers
      ensures CallerOk(s', s'.exit.callers[b])
    {
      if b != a {
        assert s'.exit.callers[b] == s.exit.callers[b];
        OtherCallersStayOk(s, a, step, b);
      }
    }
    assert a in s.exit.callers ==> CallerOk(s, s.exit.callers[a]);
    assert ResultOk(s');
  }

  lemma ExitStaysOk(s: System, step: Step)
    requires O.Wf(s.own) && AnswersOk(s) && ExitOk(s) && Can(s, step)
    ensures ExitOk(Do(s, step))
  {
    if step.Shutdown? {
      ShutdownKeepsExit(s, step.caller, step.phase);
    } else {
      OthersKeepExit(s, step);
    }
  }

  lemma StepKeepsInv(s: System, step: Step)
    requires Inv(s) && Can(s, step)
    ensures Inv(Do(s, step))
  {
    if Reserves(s, step) {
      ReservingKeepsStarts(s, step);
    } else {
      StartsStayOk(s, step);
    }
    TreesStayOk(s, step);
    TrackingStays(s, step);
    GateStaysOk(s, step);
    WaitersStayOk(s, step);
    AnswersStayOk(s, step);
    CoordinatorStaysOk(s, step);
    ExitStaysOk(s, step);
  }

  lemma {:induction false} RunInv(steps: seq<Step>)
    requires IsRun(steps)
    ensures Inv(After(steps))
    decreases |steps|
  {
    if steps == [] {
      assert Inv(BOOT);
    } else {
      RunInv(steps[..|steps| - 1]);
      StepKeepsInv(After(steps[..|steps| - 1]), Last(steps));
    }
  }

  // No process tree is forgotten.

  ghost predicate Gone(s: System, id: nat) {
    id in s.trees.facts && Confirmed(s.trees.facts[id])
  }

  /** Every tree that was ever claimed is owned, or was killed and reaped, or
      is about to be offered to the ownership by the pending start. Forgetting
      would be a claimed tree in none of these places. */
  lemma NoTreeIsForgotten(steps: seq<Step>, id: nat)
    requires IsRun(steps) && id in After(steps).trees.facts && !Gone(After(steps), id)
    ensures var s := After(steps);
      var tree := O.Tree(s.trees.facts[id].root, id);
      && O.HasOwnedWork(s.own)
      && (s.own.tree == Some(tree)
          || (s.own.pendingStart.Some? && s.starts.Items >= {(s.own.generation, Claimed(tree))}))
  {
    RunInv(steps);
    var s := After(steps);
    if !s.trees.facts[id].accepted {
      assert (s.own.generation, Claimed(O.Tree(s.trees.facts[id].root, id))) in s.starts.Items;
    }
  }

  /** The offer is never refused: a claimed tree is registered, or retained for
      its cleanup when the start has been cancelled meanwhile. */
  lemma ClaimedTreesAreAccepted(steps: seq<Step>, token: U64)
    requires IsRun(steps) && CanStart(After(steps), token, RegisterClaimed)
    ensures var s := After(steps);
      var s' := DoStart(s, token, RegisterClaimed);
      && s'.own.tree == Some(s.starts[token].tree)
      && (O.OwnsActive(s'.own, s.starts[token].tree.root) <==> !s.own.stopping)
      && (s.own.stopping ==> s'.own.stoppingPid == Some(s.starts[token].tree.root))
  {
    RunInv(steps);
    RegisteringAccepts(After(steps), token);
    assert After(steps).own.pendingStart == Some(token);
  }

  /** A tree leaves the ownership only once its end is confirmed. */
  lemma OnlyConfirmedTreesAreReleased(steps: seq<Step>, step: Step)
    requires IsRun(steps) && Can(After(steps), step) && After(steps).own.tree.Some?
    ensures var tree := After(steps).own.tree;
      Do(After(steps), step).own.tree != tree ==> Gone(Do(After(steps), step), tree.value.owner)
  {
    var s := After(steps);
    RunInv(steps);
    StepKeepsInv(s, step);
    if step.StartTask? {
      assert !step.start.RegisterClaimed?;
      assert Do(s, step).own.tree == s.own.tree;
    } else {
      AcceptanceStays(s, step);
    }
  }

  /** A retry launches a new backend only over the confirmed ends of all
      earlier ones, and never once shutdown has begun. */
  lemma RetriesStartFromNothing(steps: seq<Step>, step: Step)
    requires IsRun(steps) && Can(After(steps), step)
    requires Do(After(steps), step).own.generation != After(steps).own.generation
    ensures var s := After(steps);
      && !O.HasOwnedWork(s.own)
      && !s.exit.retriesStopped
      && (forall id :: id in s.trees.facts ==> Gone(s, id))
  {
    var s := After(steps);
    RunInv(steps);
    if !Reserves(s, step) {
      OwnershipEvolves(s, step);
      assert false;
    }
    forall id | id in s.trees.facts
      ensures Gone(s, id)
    {
      assert s.trees.facts[id].accepted;
    }
  }

  // Waiting for the cleanup.

  lemma WaiterCanWake(s: System, k: nat)
    requires WaitersOk(s) && k in s.stops.calls && s.stops.calls[k].Sleeping? && !O.HasOwnedWork(s.own)
    ensures CanCall(s, k, Wake) || (s.signal.owed > 0 && CanCall(Notified(s), k, Wake))
  {
  }

  ghost function Notified(s: System): System
    requires Can(s, Notify)
  {
    Do(s, Notify)
  }

  /** A caller asleep after the last release can be woken, at the latest after
      the next of the notifications that are on their way. */
  lemma NoWakeupIsLost(steps: seq<Step>, k: nat)
    requires IsRun(steps)
    requires k in After(steps).stops.calls && After(steps).stops.calls[k].Sleeping?
    requires !O.HasOwnedWork(After(steps).own)
    ensures var s := After(steps);
      CanCall(s, k, Wake) || (s.signal.owed > 0 && CanCall(Notified(s), k, Wake))
  {
    RunInv(steps);
    WaiterCanWake(After(steps), k);
  }

  /** A confirmation is true when it is given and stays true until a new
      launch is reserved; a refusal means a timeout, a failed task, or work
      still owned at the deadline. */
  lemma AnswersAreTruthful(steps: seq<Step>, k: nat, move: CallStep)
    requires IsRun(steps) && k in After(steps).stops.calls
    ensures var s := After(steps);
      var call := s.stops.calls[k];
      call.Returned? && call.ok && call.generation == s.own.generation ==> !O.HasOwnedWork(s.own)
    ensures CanCall(After(steps), k, move) ==> AnswersWell(After(steps), k, move)
  {
    RunInv(steps);
    if CanCall(After(steps), k, move) {
      AnsweringWell(After(steps), k, move);
    }
  }

  ghost predicate AnswersWell(s: System, k: nat, move: CallStep)
    requires CanCall(s, k, move)
  {
    var stops := CallStops(s, k, move);
    && k in stops.calls
    && (stops.calls[k].Returned? ==>
          && stops.calls[k].generation == s.own.generation
          && (stops.calls[k].ok ==> !O.HasOwnedWork(s.own))
          && (!stops.calls[k].ok ==>
                || move.GateTimesOut? || move.JoinTimesOut? || move.JoinFails?
                || (move.Decide? && !s.stops.calls[k].stopped)
                || (move.FinalCheck? && O.HasOwnedWork(s.own))))
  }

  lemma AnsweringWell(s: System, k: nat, move: CallStep)
    requires CanCall(s, k, move)
    ensures AnswersWell(s, k, move)
  {
  }

  /** Also after its caller has timed out, a blocking stop task keeps the next
      one from starting. */
  lemma OneStopTaskAtATime(steps: seq<Step>, one: nat, other: nat)
    requires IsRun(steps)
    requires one in After(steps).stops.tasks && other in After(steps).stops.tasks
    ensures one == other
  {
    RunInv(steps);
    var stops := After(steps).stops;
    if stops.gate.ByCall? {
      assert Joins(stops.calls[stops.gate.call], one) && Joins(stops.calls[stops.gate.call], other);
    }
  }

  ghost predicate Finished(call: Call) {
    call.Returned? || call.ForceReturned?
  }

  /** No stop call hangs: in every reachable state it can go on by itself. */
  lemma CallsNeverStick(steps: seq<Step>, k: nat) returns (move: CallStep)
    requires IsRun(steps)
    requires k in After(steps).stops.calls && !Finished(After(steps).stops.calls[k])
    ensures CanCall(After(steps), k, move)
  {
    RunInv(steps);
    var stops := After(steps).stops;
    match stops.calls[k] {
      case AwaitGate => move := GateTimesOut;
      case ForceAwaitGate => move := GateTimesOut;
      case Inside => move := SpawnTask(0);
      case ForceInside => move := SpawnTask(0);
      case Joining(_, _) => move := JoinTimesOut;
      case ForceJoining(_, _) => move := JoinTimesOut;
      case Joined(_, _) => move := Decide;
      case Watching => move := Subscribe;
      case Subscribed(_) => move := Check;
      case Sleeping(_) => move := Deadline;
      case LastCheck => move := FinalCheck;
      case ForceReleasing(_) => move := ForceRelease;
    }
  }

  // Application shutdown.

  /** However many callers there are, the gateway is stopped once, then the
      backend is cleaned up once, whatever the gateway answered, and everybody
      is told the combined result. */
  lemma ShutdownRunsOnce(steps: seq<Step>, a: nat, b: nat)
    requires IsRun(steps) && a in After(steps).exit.callers && b in After(steps).exit.callers
    ensures var exit := After(steps).exit;
      var x, y := exit.callers[a], exit.callers[b];
      && |exit.backendCleanups| <= |exit.gatewayStops| <= 1
      && (Leads(x) && Leads(y) ==> a == b)
      && (x.Got? ==> RanBoth(exit, x.result))
      && (x.Got? && y.Got? ==> x.result == y.result)
  {
    RunInv(steps);
    var s := After(steps);
    assert CallerOk(s, s.exit.callers[a]) && CallerOk(s, s.exit.callers[b]);
  }

  lemma {:induction false} FreshCall(calls: map<nat, Call>) returns (k: nat)
    ensures forall other :: other in calls ==> other < k
    decreases |calls|
  {
    if calls == map[] {
      k := 0;
    } else {
      var one :| one in calls;
      var rest := FreshCall(calls - {one});
      k := if rest <= one then one + 1 else rest;
      assert forall other :: other in calls ==> other == one || other in calls - {one};
    }
  }

  /** While a caller waits for the result, the result is there or the leader,
      or the stop call it waits for, can go on. */
  lemma ShutdownNeverSticks(steps: seq<Step>, a: nat) returns (step: Step)
    requires IsRun(steps) && a in After(steps).exit.callers && !After(steps).exit.callers[a].Got?
    ensures Can(After(steps), step)
    ensures step.Shutdown? || (step.StopCall? && exists b, gateway ::
              b in After(steps).exit.callers && After(steps).exit.callers[b] == LeaderCleans(gateway, step.call))
  {
    RunInv(steps);
    var s := After(steps);
    var exit := s.exit;
    assert CallerOk(s, exit.callers[a]);
    if exit.callers[a].Follower? && exit.completion.Some? {
      return Shutdown(a, Receive);
    }
    var leader :| leader in exit.callers && Leads(exit.callers[leader]);
    assert CallerOk(s, exit.callers[leader]);
    match exit.callers[leader] {
      case LeaderFlags => step := Shutdown(leader, StopRetries);
      case LeaderCloses =>
        var unused := FreshCall(s.stops.calls);
        step := Shutdown(leader, GatewayStopped(Ok(()), unused));
      case LeaderStores(_) => step := Shutdown(leader, Store);
      case LeaderSends(_) => step := Shutdown(leader, Send);
      case LeaderCleans(gateway, call) =>
        if s.stops.calls[call].Returned? {
          step := Shutdown(leader, Collect(""));
        } else {
          var move := CallsNeverStick(steps, call);
          step := StopCall(call, move);
        }
    }
  }

  ghost predicate StaysStopped(s: System, s': System) {
    && s'.exit.retriesStopped
    && s'.own.generation == s.own.generation
    && (s.exit.state.Complete? ==> s'.exit.state == s.exit.state)
    && (O.HasOwnedWork(s'.own) ==> O.HasOwnedWork(s.own))
  }

  lemma StoppedStaysStopped(s: System, step: Step)
    requires Inv(s) && Can(s, step) && s.exit.retriesStopped
    ensures StaysStopped(s, Do(s, step))
  {
    OwnershipEvolves(s, step);
    if step.Shutdown? {
      assert step.caller in s.exit.callers ==> CallerOk(s, s.exit.callers[step.caller]);
      assert Do(s, step).exit == ShutdownExit(s, step.caller, step.phase);
    } else {
      ExitUntouched(s, step);
    }
  }

  /** Once shutdown has stopped the retries, no later step launches a backend;
      once it has reported success, nothing is ever owned again. */
  lemma {:induction false} ShutdownIsFinal(steps: seq<Step>, more: seq<Step>)
    requires IsRun(steps) && IsRun(steps + more) && After(steps).exit.retriesStopped
    ensures StaysStopped(After(steps), After(steps + more))
    ensures After(steps).exit.state == Complete(Ok(())) ==>
      !O.HasOwnedWork(After(steps).own) && !O.HasOwnedWork(After(steps + more).own)
    decreases |more|
  {
    RunInv(steps);
    if more == [] {
      assert steps + more == steps;
    } else {
      var before := more[..|more| - 1];
      assert (steps + more)[..|steps + more| - 1] == steps + before;
      ShutdownIsFinal(steps, before);
      RunInv(steps + before);
      StoppedStaysStopped(After(steps + before), Last(more));
    }
  }
}
