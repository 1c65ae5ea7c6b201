/** The backend's life as a transition system. Start tasks, cleanup tasks, stop
    calls, blocking stop tasks, the retry coordinator and the shutdown callers
    run interleaved; each section under a lock and each await point is a step.
    What the operating system answers is chosen freely. */
module BackendSystem {
  import opened Common
  import O = BackendOwnership

  type Outcome = Result<(), string>

  // Actors.

  /** A start task, named by its token. Once it has claimed a tree it holds the
      child until it hands it to a cleanup task. */
  datatype Start = Launching | Claimed(tree: O.Tree) | Holding(tree: O.Tree) | Ending

  datatype CleanPhase = Terminating | Reaping | Releasing

  datatype Cleaner = Cleaner(tree: O.Tree, phase: CleanPhase)

  /** `stop_backend_bounded`, and `force_release_backend_for_exit`. A subscribed
      or sleeping call remembers the notification epoch its future was created in;
      a returned one remembers the generation it answered for. */
  datatype Call =
    | AwaitGate
    | Inside
    | Joining(waits: bool, task: nat)
    | Joined(waits: bool, stopped: bool)
    | Watching
    | Subscribed(epoch: nat)
    | Sleeping(epoch: nat)
    | LastCheck
    | Returned(ok: bool, generation: U64)
    | ForceAwaitGate
    | ForceInside
    | ForceJoining(task: nat, tree: O.Tree)
    | ForceReleasing(tree: O.Tree)
    | ForceReturned(ok: bool)

  /** A blocking task on the thread pool. */
  datatype Task = Requesting | Killing(tree: O.Tree) | Forcing(tree: O.Tree) | Finished(ok: bool) | Panicked

  /** Still occupies a thread. */
  predicate Alive(task: Task) {
    !task.Finished? && !task.Panicked?
  }

  datatype Gate = Free | ByCall(call: nat) | Orphan(task: nat)

  datatype Coordinator =
    | Receiving
    | Stopping(call: nat)
    | Retrying
    | Reserving
    | Starting(token: U64)
    | Ended

  datatype ShutdownState = Idle | Running | Complete(result: Outcome)

  datatype Caller =
    | LeaderFlags
    | LeaderCloses
    | LeaderCleans(gateway: Outcome, call: nat)
    | LeaderStores(result: Outcome)
    | LeaderSends(result: Outcome)
    | Follower
    | Got(result: Outcome)

  /** What has been established about a claimed tree. */
  datatype Facts = Facts(root: O.Pid, accepted: bool, terminated: bool, reaped: bool, forced: bool)

  /** Claimed trees, named by their owner handle. */
  datatype Trees = Trees(facts: map<nat, Facts>, nextOwner: nat)

  datatype Stops = Stops(calls: map<nat, Call>, gate: Gate, tasks: map<nat, Task>)

  /** `tokio::sync::Notify`: `epoch` counts the `notify_waiters` calls, `owed`
      the actors that have changed the ownership and have yet to make theirs. */
  datatype Signal = Signal(epoch: nat, owed: nat)

  /** `gatewayStops` and `backendCleanups` are the results of what shutdown
      leaders have run. */
  datatype Exit = Exit(
    retriesStopped: bool,
    state: ShutdownState,
    completion: Option<Outcome>,
    callers: map<nat, Caller>,
    gatewayStops: seq<Outcome>,
    backendCleanups: seq<Outcome>)

  datatype System = System(
    own: O.Ownership,
    starts: map<U64, Start>,
    trees: Trees,
    cleaners: map<nat, Cleaner>,
    stops: Stops,
    signal: Signal,
    coordinator: Coordinator,
    exit: Exit)

  /** Setup has reserved the first start before anything else runs. */
  ghost const BOOT := System(
    O.Reserved(O.NOTHING_OWNED), map[1 := Launching], Trees(map[], 0), map[],
    Stops(map[], Free, map[]), Signal(0, 0), Receiving, Exit(false, Idle, None, map[], [], []))

  function Owe(signal: Signal, changed: bool): Signal {
    if changed then signal.(owed := signal.owed + 1) else signal
  }

  function Learn(trees: Trees, owner: nat, facts: Facts): Trees {
    trees.(facts := trees.facts[owner := facts])
  }

  // Start tasks.

  datatype StartStep =
    | LaunchFails
    | ClaimTree(root: O.Pid)
    | RegisterClaimed
    | HandOver(cleaner: nat)
    | LoseChild
    | CompleteStart

  ghost predicate CanStart(s: System, token: U64, step: StartStep) {
    && token in s.starts
    && match step
       case LaunchFails => s.starts[token].Launching?
       case ClaimTree(_) => s.starts[token].Launching?
       case RegisterClaimed => s.starts[token].Claimed? && s.starts[token].tree.owner in s.trees.facts
       case HandOver(c) => s.starts[token].Holding? && c !in s.cleaners
       case LoseChild => s.starts[token].Holding?
       case CompleteStart => s.starts[token].Ending?
  }

  ghost function DoStart(s: System, token: U64, step: StartStep): System
    requires CanStart(s, token, step)
  {
    match step
    case LaunchFails => s.(starts := s.starts[token := Ending])
    case ClaimTree(root) =>
      var owner := s.trees.nextOwner;
      s.(starts := s.starts[token := Claimed(O.Tree(root, owner))],
         trees := Trees(s.trees.facts[owner := Facts(root, false, false, false, false)], owner + 1))
    case RegisterClaimed =>
      var tree := s.starts[token].tree;
      var own := O.TreeRetained(O.TreeRegistered(s.own, token, tree), token, tree);
      s.(own := own,
         starts := s.starts[token := Holding(tree)],
         trees := Learn(s.trees, tree.owner, s.trees.facts[tree.owner].(accepted := O.Owns(own, tree))))
    case HandOver(c) =>
      s.(starts := s.starts[token := Ending],
         cleaners := s.cleaners[c := Cleaner(s.starts[token].tree, Terminating)])
    case LoseChild => s.(starts := s.starts[token := Ending])
    case CompleteStart =>
      s.(own := O.StartCompleted(s.own, token),
         starts := s.starts - {token},
         signal := Owe(s.signal, s.own.pendingStart == Some(token)))
  }

  // Cleanup tasks and the exit watcher.

  datatype CleanStep =
    | Terminate(ok: bool)
    | Reap(ok: bool)
    | Release
    | Vanish
    | MarkExited

  ghost predicate CanClean(s: System, c: nat, step: CleanStep) {
    && c in s.cleaners && s.cleaners[c].tree.owner in s.trees.facts
    && match step
       case Terminate(_) => s.cleaners[c].phase.Terminating?
       case Reap(_) => s.cleaners[c].phase.Reaping?
       case Release => s.cleaners[c].phase.Releasing?
       case Vanish => true
       case MarkExited => true
  }

  ghost function DoClean(s: System, c: nat, step: CleanStep): System
    requires CanClean(s, c, step)
  {
    var tree := s.cleaners[c].tree;
    var facts := s.trees.facts[tree.owner];
    match step
    case Terminate(ok) =>
      if !ok then s
      else s.(trees := Learn(s.trees, tree.owner, facts.(terminated := true)),
              cleaners := s.cleaners[c := Cleaner(tree, Reaping)])
    case Reap(ok) =>
      if !ok then s.(cleaners := s.cleaners[c := Cleaner(tree, Terminating)])
      else s.(trees := Learn(s.trees, tree.owner, facts.(reaped := true)),
              cleaners := s.cleaners[c := Cleaner(tree, Releasing)])
    case Release =>
      s.(own := O.TreeCleared(s.own, tree),
         signal := Owe(s.signal, O.Owns(s.own, tree)),
         cleaners := s.cleaners - {c})
    case Vanish => s.(cleaners := s.cleaners - {c})
    case MarkExited =>
      s.(own := O.TreeRootExitMarked(s.own, tree), signal := Owe(s.signal, O.Owns(s.own, tree)))
  }

  // Stop calls, the cleanup gate and the blocking tasks.

  datatype CallStep =
    | GateTimesOut
    | EnterGate
    | SpawnTask(task: nat)
    | Join
    | JoinFails
    | JoinTimesOut
    | Decide
    | Subscribe
    | Check
    | Wake
    | Deadline
    | FinalCheck
    | ForceRelease

  ghost predicate CanCall(s: System, k: nat, step: CallStep) {
    && k in s.stops.calls
    && var call, tasks := s.stops.calls[k], s.stops.tasks;
       match step
       case GateTimesOut => call.AwaitGate? || call.ForceAwaitGate?
       case EnterGate => (call.AwaitGate? || call.ForceAwaitGate?) && s.stops.gate.Free?
       case SpawnTask(task) => (call.Inside? || call.ForceInside?) && task !in tasks
       case Join => (call.Joining? || call.ForceJoining?) && call.task in tasks && tasks[call.task].Finished?
       case JoinFails => (call.Joining? || call.ForceJoining?) && call.task in tasks && tasks[call.task].Panicked?
       case JoinTimesOut => call.Joining? || call.ForceJoining?
       case Decide => call.Joined?
       case Subscribe => call.Watching?
       case Check => call.Subscribed?
       case Wake => call.Sleeping? && s.signal.epoch > call.epoch
       case Deadline => call.Sleeping?
       case FinalCheck => call.LastCheck?
       case ForceRelease => call.ForceReleasing?
  }

  function Move(stops: Stops, k: nat, call: Call): Stops {
    stops.(calls := stops.calls[k := call])
  }

  /** Returning drops the guard of the cleanup gate. */
  function Return(stops: Stops, k: nat, call: Call): Stops {
    stops.(calls := stops.calls[k := call], gate := Free)
  }

  ghost function CallStops(s: System, k: nat, step: CallStep): Stops
    requires CanCall(s, k, step)
  {
    var stops, call := s.stops, s.stops.calls[k];
    var busy, now := O.HasOwnedWork(s.own), s.own.generation;
    match step
    case GateTimesOut => Move(stops, k, if call.AwaitGate? then Returned(false, now) else ForceReturned(false))
    case EnterGate => Move(stops, k, if call.AwaitGate? then Inside else ForceInside).(gate := ByCall(k))
    case SpawnTask(task) =>
      if call.Inside? then Move(stops, k, Joining(busy, task)).(tasks := stops.tasks[task := Requesting])
      else if !busy then Return(stops, k, ForceReturned(true))
      else if s.own.tree.None? then Return(stops, k, ForceReturned(false))
      else
        Move(stops, k, ForceJoining(task, s.own.tree.value))
          .(tasks := stops.tasks[task := Forcing(s.own.tree.value)])
    case Join =>
      var ok := stops.tasks[call.task].ok;
      var joined := stops.(tasks := stops.tasks - {call.task});
      if call.Joining? then Move(joined, k, Joined(call.waits, ok))
      else if ok then Move(joined, k, ForceReleasing(call.tree))
      else Return(joined, k, ForceReturned(false))
    case JoinFails =>
      Return(stops.(tasks := stops.tasks - {call.task}), k,
             if call.Joining? then Returned(false, now) else ForceReturned(false))
    case JoinTimesOut =>
      Move(stops, k, if call.Joining? then Returned(false, now) else ForceReturned(false))
        .(gate := Orphan(call.task))
    case Decide =>
      if !call.waits && !busy then Return(stops, k, Returned(call.stopped, now)) else Move(stops, k, Watching)
    case Subscribe => Move(stops, k, Subscribed(s.signal.epoch))
    case Check => if !busy then Return(stops, k, Returned(true, now)) else Move(stops, k, Sleeping(call.epoch))
    case Wake => Move(stops, k, Watching)
    case Deadline => Move(stops, k, LastCheck)
    case FinalCheck => Return(stops, k, Returned(!busy, now))
    case ForceRelease => Return(stops, k, ForceReturned(true))
  }

  ghost function DoCall(s: System, k: nat, step: CallStep): System
    requires CanCall(s, k, step)
  {
    if step.ForceRelease? then
      var tree := s.stops.calls[k].tree;
      s.(own := O.TreeCleared(s.own, tree),
         signal := Owe(s.signal, O.Owns(s.own, tree)),
         stops := CallStops(s, k, step))
    else s.(stops := CallStops(s, k, step))
  }

  datatype TaskStep = RequestStop | Kill(ok: bool) | Panic | OrphanEnds

  ghost predicate CanTask(s: System, task: nat, step: TaskStep) {
    && task in s.stops.tasks
    && var work := s.stops.tasks[task];
       match step
       case RequestStop => work.Requesting?
       case Kill(_) => (work.Killing? || work.Forcing?) && work.tree.owner in s.trees.facts
       case Panic => Alive(work)
       case OrphanEnds => s.stops.gate == Orphan(task) && !Alive(work)
  }

  /** The body of `stop_backend` without the termination. */
  function AfterRequest(own: O.Ownership): Task {
    if own.tree.Some? then Killing(own.tree.value) else Finished(own.pid.None? && own.stoppingPid.None?)
  }

  ghost function TaskStops(s: System, task: nat, step: TaskStep): Stops
    requires CanTask(s, task, step)
  {
    var tasks := s.stops.tasks;
    match step
    case RequestStop => s.stops.(tasks := tasks[task := AfterRequest(s.own)])
    case Kill(ok) => s.stops.(tasks := tasks[task := Finished(ok)])
    case Panic => s.stops.(tasks := tasks[task := Panicked])
    case OrphanEnds => s.stops.(tasks := tasks - {task}, gate := Free)
  }

  ghost function DoTask(s: System, task: nat, step: TaskStep): System
    requires CanTask(s, task, step)
  {
    var work := s.stops.tasks[task];
    s.(stops := TaskStops(s, task, step),
       own := if step.RequestStop? then O.TreeStopRequested(s.own) else s.own,
       trees :=
         if step.Kill? && step.ok then
           var facts := s.trees.facts[work.tree.owner];
           Learn(s.trees, work.tree.owner,
                 if work.Killing? then facts.(terminated := true) else facts.(forced := true))
         else s.trees)
  }

  // The retry coordinator.

  datatype CoordinatorStep =
    | BeginStop(call: nat)
    | SeeStopped
    | GatewayAnswers(accepted: bool)
    | ReserveOrBreak
    | StartEnds
    | ChannelCloses

  ghost predicate CanCoordinate(s: System, step: CoordinatorStep) {
    match step
    case BeginStop(k) => s.coordinator.Receiving? && k !in s.stops.calls
    case SeeStopped =>
      && s.coordinator.Stopping? && s.coordinator.call in s.stops.calls
      && s.stops.calls[s.coordinator.call].Returned?
    case GatewayAnswers(_) => s.coordinator.Retrying?
    case ReserveOrBreak => s.coordinator.Reserving? && s.own.generation < U64_MAX
    case StartEnds => s.coordinator.Starting? && s.coordinator.token !in s.starts
    case ChannelCloses => s.coordinator.Receiving?
  }

  ghost function DoCoordinate(s: System, step: CoordinatorStep): System
    requires CanCoordinate(s, step)
  {
    match step
    case BeginStop(k) => s.(coordinator := Stopping(k), stops := Move(s.stops, k, AwaitGate))
    case SeeStopped =>
      s.(coordinator := if s.stops.calls[s.coordinator.call].ok then Retrying else Receiving)
    case GatewayAnswers(accepted) => s.(coordinator := if accepted then Reserving else Receiving)
    case ReserveOrBreak =>
      if s.exit.retriesStopped then s.(coordinator := Ended)
      else
        var own := O.Reserved(s.own);
        s.(own := own, starts := s.starts[own.generation := Launching], coordinator := Starting(own.generation))
    case StartEnds => s.(coordinator := Receiving)
    case ChannelCloses => s.(coordinator := Ended)
  }

  // Application shutdown.

  datatype ShutdownStep =
    | Enter
    | StopRetries
    | GatewayStopped(result: Outcome, call: nat)
    | Collect(error: string)
    | Store
    | Send
    | Receive

  ghost predicate CanShutdown(s: System, a: nat, step: ShutdownStep) {
    var callers := s.exit.callers;
    match step
    case Enter => a !in callers
    case StopRetries => a in callers && callers[a].LeaderFlags?
    case GatewayStopped(_, k) => a in callers && callers[a].LeaderCloses? && k !in s.stops.calls
    case Collect(_) =>
      && a in callers && callers[a].LeaderCleans?
      && callers[a].call in s.stops.calls && s.stops.calls[callers[a].call].Returned?
    case Store => a in callers && callers[a].LeaderStores?
    case Send => a in callers && callers[a].LeaderSends?
    case Receive => a in callers && callers[a].Follower? && s.exit.completion.Some?
  }

  function Combine(gateway: Outcome, backend: Outcome): (result: Outcome)
    ensures result.Ok? <==> gateway.Ok? && backend.Ok?
  {
    if gateway.Ok? then backend
    else if backend.Ok? then gateway
    else Err("gateway shutdown failed: " + gateway.error + "; backend cleanup failed: " + backend.error)
  }

  function Put(exit: Exit, a: nat, caller: Caller): Exit {
    exit.(callers := exit.callers[a := caller])
  }

  ghost function ShutdownExit(s: System, a: nat, step: ShutdownStep): Exit
    requires CanShutdown(s, a, step)
  {
    var exit := s.exit;
    match step
    case Enter =>
      (match exit.state
       case Idle => Put(exit, a, LeaderFlags).(state := Running)
       case Running => Put(exit, a, Follower)
       case Complete(result) => Put(exit, a, Got(result)))
    case StopRetries => Put(exit, a, LeaderCloses).(retriesStopped := true)
    case GatewayStopped(result, k) =>
      Put(exit, a, LeaderCleans(result, k)).(gatewayStops := exit.gatewayStops + [result])
    case Collect(error) =>
      var backend: Outcome := if s.stops.calls[exit.callers[a].call].ok then Ok(()) else Err(error);
      Put(exit, a, LeaderStores(Combine(exit.callers[a].gateway, backend)))
        .(backendCleanups := exit.backendCleanups + [backend])
    case Store => Put(exit, a, LeaderSends(exit.callers[a].result)).(state := Complete(exit.callers[a].result))
    case Send => Put(exit, a, Got(exit.callers[a].result)).(completion := Some(exit.callers[a].result))
    case Receive => Put(exit, a, Got(exit.completion.value))
  }

  ghost function DoShutdown(s: System, a: nat, step: ShutdownStep): System
    requires CanShutdown(s, a, step)
  {
    s.(exit := ShutdownExit(s, a, step),
       stops := if step.GatewayStopped? then Move(s.stops, step.call, AwaitGate) else s.stops)
  }

  // All steps.

  datatype Step =
    | StartTask(token: U64, start: StartStep)
    | CleanTask(cleaner: nat, clean: CleanStep)
    | StopCall(call: nat, move: CallStep)
    | BlockingTask(task: nat, work: TaskStep)
    | Coordinate(act: CoordinatorStep)
    | Shutdown(caller: nat, phase: ShutdownStep)
    | NewCall(call: nat, force: bool)
    | Notify

  ghost predicate Can(s: System, step: Step) {
    match step
    case StartTask(token, start) => CanStart(s, token, start)
    case CleanTask(c, clean) => CanClean(s, c, clean)
    case StopCall(k, move) => CanCall(s, k, move)
    case BlockingTask(task, work) => CanTask(s, task, work)
    case Coordinate(act) => CanCoordinate(s, act)
    case Shutdown(a, phase) => CanShutdown(s, a, phase)
    case NewCall(k, _) => k !in s.stops.calls
    case Notify => s.signal.owed > 0
  }

  ghost function Do(s: System, step: Step): System
    requires Can(s, step)
  {
    match step
    case StartTask(token, start) => DoStart(s, token, start)
    case CleanTask(c, clean) => DoClean(s, c, clean)
    case StopCall(k, move) => DoCall(s, k, move)
    case BlockingTask(task, work) => DoTask(s, task, work)
    case Coordinate(act) => DoCoordinate(s, act)
    case Shutdown(a, phase) => DoShutdown(s, a, phase)
    case NewCall(k, force) => s.(stops := Move(s.stops, k, if force then ForceAwaitGate else AwaitGate))
    case Notify => s.(signal := Signal(s.signal.epoch + 1, s.signal.owed - 1))
  }

  ghost predicate IsRun(steps: seq<Step>)
    decreases |steps|, 0
  {
    steps == [] || (IsRun(steps[..|steps| - 1]) && Can(After(steps[..|steps| - 1]), Last(steps)))
  }

  ghost function After(steps: seq<Step>): System
    requires IsRun(steps)
    decreases |steps|, 1
  {
    if steps == [] then BOOT else Do(After(steps[..|steps| - 1]), Last(steps))
  }
}
