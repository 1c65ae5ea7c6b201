/** What holds in every reachable state of the backend system. */
module BackendInvariant {
  import opened Common
  import O = BackendOwnership
  import opened BackendSystem

  // Ownership.

  /** What any step other than a new reservation may do to the ownership. */
  ghost predicate Evolves(own: O.Ownership, own': O.Ownership) {
    && O.Wf(own')
    && own'.generation == own.generation
    && (O.HasOwnedWork(own') ==> O.HasOwnedWork(own))
  }

  ghost predicate Reserves(s: System, step: Step) {
    step.Coordinate? && step.act.ReserveOrBreak? && !s.exit.retriesStopped
  }

  lemma OperationEvolves(own: O.Ownership, op: O.Op)
    requires O.Wf(own) && O.WellFormedOp(op) && !op.Reserve?
    ensures Evolves(own, O.Apply(own, op))
  {
  }

  lemma StartEvolves(s: System, token: U64, step: StartStep)
    requires O.Wf(s.own) && CanStart(s, token, step)
    ensures Evolves(s.own, DoStart(s, token, step).own)
  {
    if step.RegisterClaimed? {
      var tree := s.starts[token].tree;
      OperationEvolves(s.own, O.Register(token, tree.root, Some(tree)));
      OperationEvolves(O.TreeRegistered(s.own, token, tree), O.Retain(token, tree));
    } else if step.CompleteStart? {
      OperationEvolves(s.own, O.Complete(token));
    }
  }

  /** Steps of other actors also leave a pending reservation alone. */
  ghost predicate Spares(own: O.Ownership, own': O.Ownership) {
    Evolves(own, own') && own'.pendingStart == own.pendingStart
  }

  lemma CleanSpares(s: System, c: nat, step: CleanStep)
    requires O.Wf(s.own) && CanClean(s, c, step)
    ensures Spares(s.own, DoClean(s, c, step).own) && DoClean(s, c, step).starts == s.starts
  {
    OperationEvolves(s.own, O.Clear(s.cleaners[c].tree));
    OperationEvolves(s.own, O.Mark(s.cleaners[c].tree));
  }

  lemma CallSpares(s: System, k: nat, step: CallStep)
    requires O.Wf(s.own) && CanCall(s, k, step)
    ensures Spares(s.own, DoCall(s, k, step).own) && DoCall(s, k, step).starts == s.starts
  {
    if step.ForceRelease? {
      OperationEvolves(s.own, O.Clear(s.stops.calls[k].tree));
    } else {
      assert DoCall(s, k, step).own == s.own;
    }
  }

  lemma TaskSpares(s: System, task: nat, step: TaskStep)
    requires O.Wf(s.own) && CanTask(s, task, step)
    ensures Spares(s.own, DoTask(s, task, step).own) && DoTask(s, task, step).starts == s.starts
  {
    OperationEvolves(s.own, O.StopTree);
  }

  lemma OthersSpare(s: System, step: Step)
    requires O.Wf(s.own) && Can(s, step) && !Reserves(s, step) && !step.StartTask?
    ensures Spares(s.own, Do(s, step).own) && Do(s, step).starts == s.starts
  {
    match step {
      case CleanTask(c, clean) => CleanSpares(s, c, clean);
      case StopCall(k, move) => CallSpares(s, k, move);
      case BlockingTask(task, work) => TaskSpares(s, task, work);
      case _ =>
    }
  }

  lemma OwnershipEvolves(s: System, step: Step)
    requires O.Wf(s.own) && Can(s, step) && !Reserves(s, step)
    ensures Evolves(s.own, Do(s, step).own)
  {
    if step.StartTask? {
      StartEvolves(s, step.token, step.start);
    } else {
      OthersSpare(s, step);
    }
  }

  // Start tasks: exactly one task stands behind a pending reservation.

  ghost predicate StartsOk(s: System) {
    && O.Wf(s.own)
    && (s.own.pendingStart.Some? ==>
          s.own.generation in s.starts && !s.starts[s.own.generation].Holding?)
    && (forall token :: token in s.starts ==> token <= s.own.generation)
    && (forall token :: token in s.starts && (s.starts[token].Launching? || s.starts[token].Claimed?) ==>
          s.own.pendingStart == Some(token))
  }

  lemma StartTaskKeepsStarts(s: System, token: U64, step: StartStep)
    requires StartsOk(s) && CanStart(s, token, step)
    ensures StartsOk(DoStart(s, token, step))
  {
    StartEvolves(s, token, step);
    if step.RegisterClaimed? {
      assert s.own.pendingStart == Some(token);
    }
  }

  lemma StartsStayOk(s: System, step: Step)
    requires StartsOk(s) && Can(s, step) && !Reserves(s, step)
    ensures StartsOk(Do(s, step))
  {
    if step.StartTask? {
      StartTaskKeepsStarts(s, step.token, step.start);
    } else {
      OthersSpare(s, step);
    }
  }

  lemma ReservingKeepsStarts(s: System, step: Step)
    requires StartsOk(s) && Can(s, step) && Reserves(s, step) && !O.HasOwnedWork(s.own)
    ensures StartsOk(Do(s, step))
  {
  }

  // Trees: none leaves the ownership unconfirmed.

  ghost predicate Confirmed(facts: Facts) {
    (facts.terminated && facts.reaped) || facts.forced
  }

  ghost predicate Known(trees: Trees, tree: O.Tree) {
    tree.owner in trees.facts && trees.facts[tree.owner].root == tree.root
  }

  ghost predicate Accounted(own: O.Ownership, trees: Trees) {
    && (forall id :: id in trees.facts ==> id < trees.nextOwner)
    && (own.tree.Some? ==> Known(trees, own.tree.value) && trees.facts[own.tree.value.owner].accepted)
    && (forall id :: id in trees.facts && trees.facts[id].accepted ==>
          (own.tree.Some? && own.tree.value.owner == id) || Confirmed(trees.facts[id]))
  }

  ghost predicate StartKnows(trees: Trees, start: Start) {
    && (start.Claimed? || start.Holding? ==> Known(trees, start.tree))
    && (start.Claimed? ==> !trees.facts[start.tree.owner].accepted)
  }

  ghost predicate CleanerKnows(trees: Trees, cleaner: Cleaner) {
    && Known(trees, cleaner.tree)
    && (cleaner.phase.Reaping? ==> trees.facts[cleaner.tree.owner].terminated)
    && (cleaner.phase.Releasing? ==> Confirmed(trees.facts[cleaner.tree.owner]))
  }

  ghost predicate TaskKnows(trees: Trees, task: Task) {
    task.Killing? || task.Forcing? ==> Known(trees, task.tree)
  }

  /** A forced call waits for the task that works on its tree. */
  ghost predicate CallKnows(trees: Trees, tasks: map<nat, Task>, call: Call) {
    && (call.ForceReleasing? ==> Known(trees, call.tree) && trees.facts[call.tree.owner].forced)
    && (call.ForceJoining? ==>
          && Known(trees, call.tree) && call.task in tasks
          && var task := tasks[call.task];
             && !task.Killing? && !task.Requesting?
             && (task.Forcing? ==> task.tree == call.tree)
             && (task.Finished? && task.ok ==> trees.facts[call.tree.owner].forced))
  }

  ghost predicate TreesOk(s: System) {
    && Accounted(s.own, s.trees)
    && (forall token :: token in s.starts ==> StartKnows(s.trees, s.starts[token]))
    && (forall c :: c in s.cleaners ==> CleanerKnows(s.trees, s.cleaners[c]))
    && (forall task :: task in s.stops.tasks ==> TaskKnows(s.trees, s.stops.tasks[task]))
    && (forall k :: k in s.stops.calls ==> CallKnows(s.trees, s.stops.tasks, s.stops.calls[k]))
  }

  /** What is known about a tree is never unlearned. */
  ghost predicate Grows(trees: Trees, trees': Trees) {
    forall id :: id in trees.facts ==>
      && id in trees'.facts
      && var f, f' := trees.facts[id], trees'.facts[id];
         f'.root == f.root && (f.terminated ==> f'.terminated) && (f.reaped ==> f'.reaped) && (f.forced ==> f'.forced)
  }

  lemma GrowingKeepsActors(s: System, trees: Trees)
    requires TreesOk(s) && Grows(s.trees, trees)
    ensures forall token :: token in s.starts && !s.starts[token].Claimed? ==> StartKnows(trees, s.starts[token])
    ensures forall c :: c in s.cleaners ==> CleanerKnows(trees, s.cleaners[c])
    ensures forall task :: task in s.stops.tasks ==> TaskKnows(trees, s.stops.tasks[task])
    ensures forall k :: k in s.stops.calls ==> CallKnows(trees, s.stops.tasks, s.stops.calls[k])
  {
  }

  lemma RegisteringAccepts(s: System, token: U64)
    requires StartsOk(s) && TreesOk(s) && CanStart(s, token, RegisterClaimed)
    ensures var s', tree := DoStart(s, token, RegisterClaimed), s.starts[token].tree;
      s'.own.tree == Some(tree) && s'.trees.facts[tree.owner].accepted
  {
    assert s.own.pendingStart == Some(token);
  }

  lemma StartTaskKeepsTrees(s: System, token: U64, step: StartStep)
    requires StartsOk(s) && TreesOk(s) && CanStart(s, token, step)
    ensures TreesOk(DoStart(s, token, step))
  {
    var s' := DoStart(s, token, step);
    assert StartKnows(s.trees, s.starts[token]);
    GrowingKeepsActors(s, s'.trees);
    if step.RegisterClaimed? {
      RegisteringAccepts(s, token);
      forall other | other in s.starts && other != token
        ensures !s.starts[other].Claimed?
      {
        assert s.own.pendingStart == Some(token);
      }
    }
  }

  lemma ReleasingKeepsAccounts(own: O.Ownership, trees: Trees, tree: O.Tree)
    requires O.Wf(own) && Accounted(own, trees) && Known(trees, tree) && Confirmed(trees.facts[tree.owner])
    ensures Accounted(O.TreeCleared(own, tree), trees)
  {
  }

  lemma LearningKeepsTrees(s: System, owner: nat, facts: Facts)
    requires TreesOk(s) && owner in s.trees.facts
    requires var f := s.trees.facts[owner];
      f.root == facts.root && f.accepted == facts.accepted
      && (f.terminated ==> facts.terminated) && (f.reaped ==> facts.reaped) && (f.forced ==> facts.forced)
    ensures TreesOk(s.(trees := Learn(s.trees, owner, facts)))
  {
    GrowingKeepsActors(s, Learn(s.trees, owner, facts));
  }

  lemma CleanTaskKeepsTrees(s: System, c: nat, step: CleanStep)
    requires O.Wf(s.own) && TreesOk(s) && CanClean(s, c, step)
    ensures TreesOk(DoClean(s, c, step))
  {
    var cleaner := s.cleaners[c];
    var facts := s.trees.facts[cleaner.tree.owner];
    assert CleanerKnows(s.trees, cleaner);
    match step {
      case Terminate(ok) => LearningKeepsTrees(s, cleaner.tree.owner, facts.(terminated := true));
      case Reap(ok) => LearningKeepsTrees(s, cleaner.tree.owner, facts.(reaped := true));
      case Release => ReleasingKeepsAccounts(s.own, s.trees, cleaner.tree);
      case _ =>
    }
  }

  lemma BlockingTaskKeepsTrees(s: System, task: nat, step: TaskStep)
    requires O.Wf(s.own) && TreesOk(s) && GateOk(s.stops) && CanTask(s, task, step)
    ensures TreesOk(DoTask(s, task, step))
  {
    var work := s.stops.tasks[task];
    assert TaskKnows(s.trees, work);
    if step.Kill? {
      KillingKeepsTrees(s, task, step.ok);
    } else {
      assert DoTask(s, task, step).trees == s.trees;
      forall k | k in s.stops.calls
        ensures CallKnows(s.trees, TaskStops(s, task, step).tasks, s.stops.calls[k])
      {
        assert CallKnows(s.trees, s.stops.tasks, s.stops.calls[k]);
        assert step.OrphanEnds? ==> !Joins(s.stops.calls[k], task);
      }
    }
  }

  lemma KillingKeepsTrees(s: System, task: nat, ok: bool)
    requires TreesOk(s) && CanTask(s, task, Kill(ok))
    ensures TreesOk(DoTask(s, task, Kill(ok)))
  {
    var work := s.stops.tasks[task];
    assert TaskKnows(s.trees, work);
    if ok {
      var facts := s.trees.facts[work.tree.owner];
      LearningKeepsTrees(s, work.tree.owner,
                         if work.Killing? then facts.(terminated := true) else facts.(forced := true));
    }
    var s' := DoTask(s, task, Kill(ok));
    forall k | k in s.stops.calls
      ensures CallKnows(s'.trees, s'.stops.tasks, s.stops.calls[k])
    {
      assert CallKnows(s.trees, s.stops.tasks, s.stops.calls[k]);
    }
  }

  lemma StopCallKeepsTrees(s: System, k: nat, step: CallStep)
    requires O.Wf(s.own) && TreesOk(s) && GateOk(s.stops) && CanCall(s, k, step)
    ensures TreesOk(DoCall(s, k, step))
  {
    var call, stops := s.stops.calls[k], CallStops(s, k, step);
    assert CallKnows(s.trees, s.stops.tasks, call);
    if step.ForceRelease? {
      ReleasingKeepsAccounts(s.own, s.trees, call.tree);
    }
    MovingCallKnows(s, k, step);
    OtherCallsKnow(s, k, step);
    TasksKnow(s, k, step);
  }

  lemma MovingCallKnows(s: System, k: nat, step: CallStep)
    requires TreesOk(s) && CanCall(s, k, step)
    ensures k in CallStops(s, k, step).calls
    ensures CallKnows(s.trees, CallStops(s, k, step).tasks, CallStops(s, k, step).calls[k])
  {
    assert CallKnows(s.trees, s.stops.tasks, s.stops.calls[k]);
  }

  lemma OtherCallsKnow(s: System, k: nat, step: CallStep)
    requires TreesOk(s) && GateOk(s.stops) && CanCall(s, k, step)
    ensures forall other :: other in s.stops.calls && other != k ==>
      CallKnows(s.trees, CallStops(s, k, step).tasks, s.stops.calls[other])
  {
    forall other | other in s.stops.calls && other != k
      ensures CallKnows(s.trees, CallStops(s, k, step).tasks, s.stops.calls[other])
    {
      assert CallKnows(s.trees, s.stops.tasks, s.stops.calls[other]);
      assert Guarded(s.stops.calls[other]) ==> !Guarded(s.stops.calls[k]);
    }
  }

  lemma TasksKnow(s: System, k: nat, step: CallStep)
    requires TreesOk(s) && CanCall(s, k, step)
    ensures forall task :: task in CallStops(s, k, step).tasks ==> TaskKnows(s.trees, CallStops(s, k, step).tasks[task])
  {
    var tasks := CallStops(s, k, step).tasks;
    forall task | task in tasks
      ensures TaskKnows(s.trees, tasks[task])
    {
      assert task in s.stops.tasks ==> TaskKnows(s.trees, s.stops.tasks[task]);
    }
  }

  lemma OthersKeepTrees(s: System, step: Step)
    requires O.Wf(s.own) && TreesOk(s) && Can(s, step)
    requires step.Coordinate? || step.Shutdown? || step.NewCall? || step.Notify?
    requires Reserves(s, step) ==> !O.HasOwnedWork(s.own)
    ensures TreesOk(Do(s, step))
  {
    var s' := Do(s, step);
    assert s'.trees == s.trees && s'.cleaners == s.cleaners && s'.stops.tasks == s.stops.tasks;
    assert Accounted(s'.own, s'.trees);
    forall k | k in s'.stops.calls
      ensures CallKnows(s.trees, s.stops.tasks, s'.stops.calls[k])
    {
      assert k in s.stops.calls ==> CallKnows(s.trees, s.stops.tasks, s.stops.calls[k]);
    }
  }

  lemma TreesStayOk(s: System, step: Step)
    requires StartsOk(s) && TreesOk(s) && GateOk(s.stops) && Can(s, step)
    requires Reserves(s, step) ==> !O.HasOwnedWork(s.own)
    ensures TreesOk(Do(s, step))
  {
    match step {
      case StartTask(token, start) => StartTaskKeepsTrees(s, token, start);
      case CleanTask(c, clean) => CleanTaskKeepsTrees(s, c, clean);
      case StopCall(k, move) => StopCallKeepsTrees(s, k, move);
      case BlockingTask(task, work) => BlockingTaskKeepsTrees(s, task, work);
      case _ => OthersKeepTrees(s, step);
    }
  }

  /** A tree the ownership has not accepted is still in the hands of the start
      task whose reservation is pending. */
  ghost predicate Tracked(s: System) {
    forall id :: id in s.trees.facts && !s.trees.facts[id].accepted ==>
      && s.own.pendingStart.Some? && s.own.generation in s.starts
      && s.starts[s.own.generation] == Claimed(O.Tree(s.trees.facts[id].root, id))
  }

  lemma StartTaskKeepsTracking(s: System, token: U64, step: StartStep)
    requires StartsOk(s) && TreesOk(s) && Tracked(s) && CanStart(s, token, step)
    ensures Tracked(DoStart(s, token, step))
  {
    if step.RegisterClaimed? {
      RegisteringAccepts(s, token);
      assert s.own.pendingStart == Some(token);
    }
  }

  lemma TrackingStays(s: System, step: Step)
    requires StartsOk(s) && TreesOk(s) && Tracked(s) && Can(s, step)
    requires Reserves(s, step) ==> !O.HasOwnedWork(s.own)
    ensures Tracked(Do(s, step))
  {
    if step.StartTask? {
      StartTaskKeepsTracking(s, step.token, step.start);
    } else {
      if !Reserves(s, step) {
        OthersSpare(s, step);
      }
      AcceptanceStays(s, step);
    }
  }

  /** Only a start task claims a tree, and only one claim is ever decided. */
  lemma AcceptanceStays(s: System, step: Step)
    requires Can(s, step) && !step.StartTask?
    ensures var trees := Do(s, step).trees;
      forall id :: id in trees.facts <==> id in s.trees.facts
    ensures var trees := Do(s, step).trees;
      forall id :: id in s.trees.facts ==>
        trees.facts[id].accepted == s.trees.facts[id].accepted && trees.facts[id].root == s.trees.facts[id].root
  {
    match step {
      case StopCall(k, move) => assert DoCall(s, k, move).trees == s.trees;
      case _ =>
    }
  }

  // The cleanup gate: one call, or one blocking task left behind, is inside.

  ghost predicate Guarded(call: Call) {
    || call.Inside? || call.Joining? || call.Joined? || call.Watching? || call.Subscribed?
    || call.Sleeping? || call.LastCheck?
    || call.ForceInside? || call.ForceJoining? || call.ForceReleasing?
  }

  ghost predicate Joins(call: Call, task: nat) {
    (call.Joining? || call.ForceJoining?) && call.task == task
  }

  ghost predicate GateOk(stops: Stops) {
    && (forall k :: k in stops.calls && Guarded(stops.calls[k]) ==> stops.gate == ByCall(k))
    && (stops.gate.ByCall? ==> stops.gate.call in stops.calls && Guarded(stops.calls[stops.gate.call]))
    && (stops.gate.Orphan? ==> stops.gate.task in stops.tasks)
    && (forall k, task :: k in stops.calls && Joins(stops.calls[k], task) ==> task in stops.tasks)
    && (forall task :: task in stops.tasks ==>
          || stops.gate == Orphan(task)
          || (stops.gate.ByCall? && Joins(stops.calls[stops.gate.call], task)))
  }

  ghost predicate HandlesTask(step: CallStep) {
    step.SpawnTask? || step.Join? || step.JoinFails? || step.JoinTimesOut?
  }

  lemma SpawningKeepsGate(s: System, k: nat, task: nat)
    requires GateOk(s.stops) && CanCall(s, k, SpawnTask(task))
    ensures GateOk(CallStops(s, k, SpawnTask(task)))
  {
    assert forall other :: other !in s.stops.tasks || !Joins(s.stops.calls[k], other);
  }

  lemma JoiningKeepsGate(s: System, k: nat, step: CallStep)
    requires GateOk(s.stops) && CanCall(s, k, step) && HandlesTask(step) && !step.SpawnTask?
    ensures GateOk(CallStops(s, k, step))
  {
    assert Joins(s.stops.calls[k], s.stops.calls[k].task);
  }

  lemma OtherMovesKeepGate(s: System, k: nat, step: CallStep)
    requires GateOk(s.stops) && CanCall(s, k, step) && !HandlesTask(step)
    ensures GateOk(CallStops(s, k, step))
  {
    assert forall task :: !Joins(s.stops.calls[k], task);
  }

  lemma GateStaysOk(s: System, step: Step)
    requires GateOk(s.stops) && Can(s, step)
    ensures GateOk(Do(s, step).stops)
  {
    match step {
      case StopCall(k, move) =>
        if move.SpawnTask? {
          SpawningKeepsGate(s, k, move.task);
        } else if HandlesTask(move) {
          JoiningKeepsGate(s, k, move);
        } else {
          OtherMovesKeepGate(s, k, move);
        }
        assert Do(s, step).stops == CallStops(s, k, move);
      case BlockingTask(task, work) => BlockingTaskKeepsGate(s, task, work);
      case StartTask(token, start) => assert DoStart(s, token, start).stops == s.stops;
      case CleanTask(c, clean) => assert DoClean(s, c, clean).stops == s.stops;
      case _ => NewCallsKeepGate(s, step);
    }
  }

  lemma BlockingTaskKeepsGate(s: System, task: nat, step: TaskStep)
    requires GateOk(s.stops) && CanTask(s, task, step)
    ensures GateOk(TaskStops(s, task, step))
  {
  }

  lemma NewCallsKeepGate(s: System, step: Step)
    requires GateOk(s.stops) && Can(s, step)
    requires step.Coordinate? || step.Shutdown? || step.NewCall? || step.Notify?
    ensures GateOk(Do(s, step).stops)
  {
  }

  // Waiting for the release of the ownership.

  /** A sleeping call whose wait is over is about to be notified. */
  ghost predicate WaitersOk(s: System) {
    && (forall k :: k in s.stops.calls && s.stops.calls[k].Subscribed? ==> s.stops.calls[k].epoch <= s.signal.epoch)
    && (forall k :: k in s.stops.calls && s.stops.calls[k].Sleeping? ==>
          && s.stops.calls[k].epoch <= s.signal.epoch
          && (!O.HasOwnedWork(s.own) && s.stops.calls[k].epoch == s.signal.epoch ==> s.signal.owed > 0))
  }

  /** Every step that ends the owned work owes a notification for it. */
  lemma ReleaseIsSignalled(s: System, step: Step)
    requires O.Wf(s.own) && Can(s, step)
    ensures O.HasOwnedWork(s.own) && !O.HasOwnedWork(Do(s, step).own) ==> Do(s, step).signal == Owe(s.signal, true)
  {
    match step {
      case StartTask(token, start) =>
      case CleanTask(c, clean) =>
      case StopCall(k, move) => assert !move.ForceRelease? ==> DoCall(s, k, move).own == s.own;
      case BlockingTask(task, work) =>
      case _ =>
    }
  }

  lemma WaitersStayOk(s: System, step: Step)
    requires O.Wf(s.own) && WaitersOk(s) && Can(s, step)
    ensures WaitersOk(Do(s, step))
  {
    var s' := Do(s, step);
    ReleaseIsSignalled(s, step);
    if step.StopCall? {
      StopCallKeepsWaiters(s, step.call, step.move);
    } else if step.StartTask? {
      assert s'.stops == s.stops;
    } else if step.CleanTask? {
      assert s'.stops == s.stops;
    }
  }

  lemma StopCallKeepsWaiters(s: System, k: nat, step: CallStep)
    requires O.Wf(s.own) && WaitersOk(s) && CanCall(s, k, step)
    ensures WaitersOk(DoCall(s, k, step))
  {
  }

  // What a returned call has answered.

  ghost predicate AnswersOk(s: System) {
    forall k :: k in s.stops.calls && s.stops.calls[k].Returned? ==>
      && s.stops.calls[k].generation <= s.own.generation
      && (s.stops.calls[k].ok && s.stops.calls[k].generation == s.own.generation ==> !O.HasOwnedWork(s.own))
  }

  lemma StopCallKeepsAnswers(s: System, k: nat, step: CallStep)
    requires O.Wf(s.own) && AnswersOk(s) && CanCall(s, k, step)
    ensures AnswersOk(DoCall(s, k, step))
  {
    CallSpares(s, k, step);
  }

  lemma AnswersStayOk(s: System, step: Step)
    requires O.Wf(s.own) && AnswersOk(s) && Can(s, step)
    ensures AnswersOk(Do(s, step))
  {
    if step.StopCall? {
      StopCallKeepsAnswers(s, step.call, step.move);
    } else {
      NobodyElseAnswers(s, step);
      if !Reserves(s, step) {
        OwnershipEvolves(s, step);
      }
    }
  }

  lemma NobodyElseAnswers(s: System, step: Step)
    requires Can(s, step) && !step.StopCall?
    ensures var calls := Do(s, step).stops.calls;
      forall k :: k in calls && calls[k].Returned? ==> k in s.stops.calls && calls[k] == s.stops.calls[k]
  {
    match step {
      case StartTask(token, start) => assert DoStart(s, token, start).stops == s.stops;
      case CleanTask(c, clean) => assert DoClean(s, c, clean).stops == s.stops;
      case BlockingTask(task, work) => assert TaskStops(s, task, work).calls == s.stops.calls;
      case _ =>
    }
  }
}
