/** The guarantees of the launch-intent router over every run. */
module LaunchTheorems {
  import opened Common
  import Q = LaunchQueue
  import D = LaunchDispatch
  import opened LaunchRouter
  import opened LaunchInvariant

  // Runs.

  ghost predicate IsRun(maximum: nat, initial: Option<Q.Intent>, steps: seq<Step>)
    decreases |steps|, 0
  {
    steps == [] ||
    (IsRun(maximum, initial, steps[..|steps| - 1])
     && Can(After(maximum, initial, steps[..|steps| - 1]), Last(steps)))
  }

  ghost function After(maximum: nat, initial: Option<Q.Intent>, steps: seq<Step>): Router
    requires IsRun(maximum, initial, steps)
    decreases |steps|, 1
  {
    if steps == [] then Start(maximum, initial)
    else Do(After(maximum, initial, steps[..|steps| - 1]), Last(steps))
  }

  /** The command line parser only builds an initial intent with a nonzero id. */
  ghost predicate GoodStart(initial: Option<Q.Intent>) {
    initial.Some? ==> initial.value.id != 0
  }

  lemma StartFollowsQueue(maximum: nat, initial: Option<Q.Intent>)
    ensures FollowsQueue(maximum, Start(maximum, initial))
    ensures Start(maximum, initial).queue.seen == (if initial.Some? then {initial.value.id} else {})
    ensures Start(maximum, initial).queue.consumed == {}
  {
    var s := Start(maximum, initial);
    var start := Q.Run(maximum, []);
    assert start == Q.History(Q.NewQueue(maximum), []);
    if initial.Some? {
      assert s.ops[..0] == [];
      assert s.queue == Q.Enqueued(start.queue, initial.value).queue;
    }
    assert Q.Run(maximum, s.ops).delivered == [];
  }

  lemma StartInv(maximum: nat, initial: Option<Q.Intent>)
    requires GoodStart(initial)
    ensures Inv(maximum, Start(maximum, initial))
  {
    StartFollowsQueue(maximum, initial);
    FreshDispatches(Start(maximum, initial));
  }

  lemma FreshDispatches(s: Router)
    requires s.scheduled == [] && s.nextTicket == Some(1) && s.turn == D.FIRST_TURN
    requires s.threads == map[] && s.owner == map[] && s.emitted == [] && s.abandoned == {}
    ensures DispatchInv(s) && EmittedInOrder(s)
  {
    assert forall t, k :: !Owns(s, t, k);
    assert !SomebodyEmits(s);
  }

  lemma {:induction false} RunInv(maximum: nat, initial: Option<Q.Intent>, steps: seq<Step>)
    requires GoodStart(initial) && IsRun(maximum, initial, steps)
    ensures Inv(maximum, After(maximum, initial, steps))
    decreases |steps|
  {
    if steps == [] {
      StartInv(maximum, initial);
    } else {
      var before := steps[..|steps| - 1];
      RunInv(maximum, initial, before);
      StepKeepsInv(maximum, After(maximum, initial, before), Last(steps));
    }
  }

  // Delivery always comes to an end.

  /** The steps a delivering call takes by itself once it is scheduled to run. */
  ghost predicate Advances(step: Step) {
    Local(step) || step.TakeTurn? || step.CompleteTurn? || step.CancelNext? || step.Return? || step.DropStale?
  }

  ghost predicate SomebodyDelivers(s: Router) {
    exists t :: t in s.threads && s.threads[t].Delivering?
  }

  /** The step a delivering call can take now, unless it waits for its turn. */
  ghost function OwnStep(thread: Thread, t: nat): Step
    requires thread.Delivering?
  {
    match thread.phase
    case Before => FinishBefore(t)
    case Waiting => if thread.rest == [] then Return(t) else TakeTurn(t)
    case Emitting(_) => EmitReturns(t, true)
    case Settled(_, _) => CompleteTurn(t)
    case Unwinding => if thread.guard == [] then Return(t) else CancelNext(t)
  }

  /** A call can be blocked only by owning a later ticket than the current one. */
  lemma BlockedOwnsTicket(s: Router, t: nat)
    requires t in s.threads && s.threads[t].Delivering? && ThreadOk(s, s.threads[t])
    requires !Can(s, OwnStep(s.threads[t], t))
    ensures s.threads[t].guard != [] && Owns(s, t, s.threads[t].guard[0])
  {
  }

  lemma OwnerAdvances(s: Router, t: nat)
    requires t in s.threads && ThreadOk(s, s.threads[t])
    requires Owned(s.threads[t]) != [] && Owned(s.threads[t])[0] == D.Position(s.turn)
    ensures s.threads[t].Delivering? && Can(s, OwnStep(s.threads[t], t)) && Advances(OwnStep(s.threads[t], t))
  {
  }

  /** Some delivering call is never blocked: the one that owns the current turn. */
  lemma SomebodyAdvances(s: Router)
    requires DispatchInv(s) && SomebodyDelivers(s)
    ensures exists step :: Advances(step) && Can(s, step)
  {
    var t :| t in s.threads && s.threads[t].Delivering?;
    var step := OwnStep(s.threads[t], t);
    if Can(s, step) {
      assert Advances(step);
    } else {
      assert ThreadOk(s, s.threads[t]);
      BlockedOwnsTicket(s, t);
      OwnerOfTurn(s);
      var t' := s.owner[D.Position(s.turn)];
      assert ThreadOk(s, s.threads[t']);
      OwnerAdvances(s, t');
    }
  }

  ghost function Effort(thread: Thread): nat {
    if thread.Routing? then 0
    else
      match thread.phase
      case Before => 4 * |thread.rest| + |thread.guard| + 2
      case Waiting => 4 * |thread.rest| + |thread.guard| + 1
      case Emitting(_) => 4 * |thread.rest| + |thread.guard| + 4
      case Settled(_, _) => 4 * |thread.rest| + |thread.guard| + 3
      case Unwinding => |thread.guard| + 1
  }

  ghost function Work(threads: map<nat, Thread>): nat
    decreases |threads|
  {
    if threads == map[] then 0
    else
      var t :| t in threads;
      Effort(threads[t]) + Work(threads - {t})
  }

  lemma {:induction false} WorkOf(threads: map<nat, Thread>, t: nat)
    requires t in threads
    ensures Work(threads) == Effort(threads[t]) + Work(threads - {t})
    decreases |threads|
  {
    var u :| u in threads && Work(threads) == Effort(threads[u]) + Work(threads - {u});
    if u != t {
      WorkOf(threads - {u}, t);
      WorkOf(threads - {t}, u);
      assert threads - {u} - {t} == threads - {t} - {u};
    }
  }

  lemma WorkChanges(threads: map<nat, Thread>, t: nat, thread: Thread)
    requires t in threads && Effort(thread) < Effort(threads[t])
    ensures Work(threads[t := thread]) < Work(threads)
  {
    WorkOf(threads, t);
    WorkOf(threads[t := thread], t);
    assert threads[t := thread] - {t} == threads - {t};
  }

  lemma TakingTurnLowersEffort(thread: Thread)
    requires thread.Delivering? && thread.phase.Waiting? && thread.rest != [] && thread.guard == Tickets(thread.rest)
    ensures var front := thread.rest[0];
      Effort(Delivering(thread.rest[1..], D.Without(thread.guard, front.ticket), Emitting(front))) < Effort(thread)
  {
  }

  /** The call a step leaves behind. */
  ghost function Left(s: Router, step: Step): Thread
    requires Can(s, step) && Advances(step) && !step.Return? && !step.DropStale?
  {
    var thread := s.threads[step.t];
    match step
    case FinishBefore(_) => thread.(phase := Waiting)
    case BeforePanics(_) => thread.(phase := Unwinding)
    case TakeTurn(_) =>
      Delivering(thread.rest[1..], D.Without(thread.guard, thread.rest[0].ticket), Emitting(thread.rest[0]))
    case EmitReturns(_, _) => thread.(phase := Settled(thread.phase.held, false))
    case EmitPanics(_) => thread.(phase := Settled(thread.phase.held, true))
    case CompleteTurn(_) => thread.(phase := if thread.phase.panicked then Unwinding else Waiting)
    case CancelNext(_) => thread.(guard := thread.guard[1..])
  }

  lemma LeftIsLeft(s: Router, step: Step)
    requires Can(s, step) && Advances(step) && !step.Return? && !step.DropStale?
    ensures Do(s, step).threads == s.threads[step.t := Left(s, step)]
  {
  }

  lemma EffortFalls(s: Router, step: Step)
    requires Can(s, step) && Advances(step) && !step.Return? && !step.DropStale?
    requires step.TakeTurn? ==> s.threads[step.t].guard == Tickets(s.threads[step.t].rest)
    ensures Effort(Left(s, step)) < Effort(s.threads[step.t])
  {
    if step.TakeTurn? {
      TakingTurnLowersEffort(s.threads[step.t]);
    }
  }

  /** Every such step, also a panicking one, leaves strictly less to do. */
  lemma AdvancingLowersWork(s: Router, step: Step)
    requires DispatchInv(s) && Can(s, step) && Advances(step)
    ensures Work(Do(s, step).threads) < Work(s.threads)
  {
    StaleIsUnreachable(s, step.t);
    assert ThreadOk(s, s.threads[step.t]);
    if step.Return? {
      WorkOf(s.threads, step.t);
    } else {
      LeftIsLeft(s, step);
      EffortFalls(s, step);
      WorkChanges(s.threads, step.t, Left(s, step));
    }
  }

  ghost predicate IsDrain(s: Router, steps: seq<Step>)
    decreases |steps|
  {
    steps == []
    || (Can(s, steps[0]) && Advances(steps[0]) && IsDrain(Do(s, steps[0]), steps[1..]))
  }

  ghost function AfterDrain(s: Router, steps: seq<Step>): Router
    requires IsDrain(s, steps)
    decreases |steps|
  {
    if steps == [] then s else AfterDrain(Do(s, steps[0]), steps[1..])
  }

  /** Without new arrivals every continuation is finite, and one that cannot be
      continued has finished all deliveries. */
  lemma {:induction false} DeliveryTerminates(maximum: nat, s: Router, steps: seq<Step>)
    requires Inv(maximum, s) && IsDrain(s, steps)
    ensures |steps| <= Work(s.threads)
    ensures var s' := AfterDrain(s, steps);
      && Inv(maximum, s')
      && ((forall step :: Advances(step) ==> !Can(s', step)) ==> !SomebodyDelivers(s'))
    decreases |steps|
  {
    if steps == [] {
      if SomebodyDelivers(s) {
        SomebodyAdvances(s);
      }
    } else {
      AdvancingLowersWork(s, steps[0]);
      StepKeepsInv(maximum, s, steps[0]);
      DeliveryTerminates(maximum, Do(s, steps[0]), steps[1..]);
    }
  }

  // What a user of the router sees.

  /** Every ticket that has not had its turn is cancelled or belongs to exactly
      one call, and the owner of the current turn has it in front. */
  lemma OutstandingTickets(maximum: nat, initial: Option<Q.Intent>, steps: seq<Step>, k: U64)
    requires GoodStart(initial) && IsRun(maximum, initial, steps)
    requires var s := After(maximum, initial, steps); D.Position(s.turn) <= k <= |s.scheduled|
    ensures var s := After(maximum, initial, steps);
      if k in s.turn.cancelled then forall t :: !Owns(s, t, k)
      else exists t :: Owns(s, t, k)
                    && (forall t' :: Owns(s, t', k) ==> t' == t)
                    && (k == D.Position(s.turn) ==> Owned(s.threads[t])[0] == k)
  {
    RunInv(maximum, initial, steps);
    var s := After(maximum, initial, steps);
    if k in s.turn.cancelled {
      forall t: nat
        ensures !Owns(s, t, k)
      {
        assert Owns(s, t, k) ==> k in s.owner;
      }
    } else {
      assert k in s.owner;
      assert Owns(s, s.owner[k], k);
      OwnerOfTurn(s);
    }
  }

  lemma AtMostOneEmits(maximum: nat, initial: Option<Q.Intent>, steps: seq<Step>, t: nat, t': nat)
    requires GoodStart(initial) && IsRun(maximum, initial, steps)
    requires var s := After(maximum, initial, steps);
      t in s.threads && t' in s.threads && Holds(s.threads[t]) && Holds(s.threads[t'])
    ensures t == t'
  {
    RunInv(maximum, initial, steps);
    HolderIsUnique(After(maximum, initial, steps), t, t');
  }

  lemma {:induction false} SurvivorsAreOrdered(log: seq<Scheduled>, abandoned: set<U64>)
    requires forall i, j :: 0 <= i < j < |log| ==> log[i].ticket < log[j].ticket
    ensures var out := Survivors(log, abandoned);
      && (forall i, j :: 0 <= i < j < |out| ==> out[i].ticket < out[j].ticket)
      && (forall x :: x in out <==> x in log && x.ticket !in abandoned)
  {
    if log != [] {
      var earlier := log[..|log| - 1];
      SurvivorsAreOrdered(earlier, abandoned);
      assert log == earlier + [Last(log)];
      forall x | x in Survivors(earlier, abandoned)
        ensures x.ticket < Last(log).ticket
      {
        assert x in earlier;
      }
    }
  }

  /** The concurrent router emits like a single queue: in scheduling order, each
      intent at most once, a failed one never again, and exactly those tickets
      are missing that a panic gave up. */
  lemma EmissionsFollowTheSchedule(maximum: nat, initial: Option<Q.Intent>, steps: seq<Step>)
    requires GoodStart(initial) && IsRun(maximum, initial, steps)
    ensures var s := After(maximum, initial, steps);
      && Intents(s.scheduled) == Q.Run(maximum, s.ops).delivered
      && s.emitted <= Survivors(s.scheduled, s.abandoned)
      && (!SomebodyDelivers(s) ==> s.emitted == Survivors(s.scheduled, s.abandoned))
      && (forall i, j :: 0 <= i < j < |s.emitted| ==>
            s.emitted[i].ticket < s.emitted[j].ticket && s.emitted[i].intent.id != s.emitted[j].intent.id)
  {
    RunInv(maximum, initial, steps);
    var s := After(maximum, initial, steps);
    EmittedIsPrefix(s);
    if !SomebodyDelivers(s) {
      NothingOutstanding(s);
    }
    Q.DeliveredOnce(maximum, s.ops);
    EmittedAreDistinct(s);
  }

  lemma EmittedAreDistinct(s: Router)
    requires Numbered(s) && s.emitted <= Survivors(s.scheduled, s.abandoned) && Q.DistinctIds(Intents(s.scheduled))
    ensures forall i, j :: 0 <= i < j < |s.emitted| ==>
      s.emitted[i].ticket < s.emitted[j].ticket && s.emitted[i].intent.id != s.emitted[j].intent.id
  {
    SurvivorsAreOrdered(s.scheduled, s.abandoned);
    var out := Survivors(s.scheduled, s.abandoned);
    forall i, j | 0 <= i < j < |s.emitted|
      ensures s.emitted[i].ticket < s.emitted[j].ticket && s.emitted[i].intent.id != s.emitted[j].intent.id
    {
      var x, y := out[i], out[j];
      assert x in out && y in out;
      assert x in s.scheduled && y in s.scheduled;
      var a :| 0 <= a < |s.scheduled| && s.scheduled[a] == x;
      var b :| 0 <= b < |s.scheduled| && s.scheduled[b] == y;
      assert Intents(s.scheduled)[a].id != Intents(s.scheduled)[b].id;
    }
  }

  lemma {:induction false} SurvivorsPrefix(log: seq<Scheduled>, abandoned: set<U64>, n: nat)
    requires n <= |log|
    ensures Survivors(log[..n], abandoned) <= Survivors(log, abandoned)
    decreases |log| - n
  {
    if n == |log| {
      assert log[..n] == log;
    } else {
      SurvivorsPrefix(log, abandoned, n + 1);
      assert log[..n + 1] == log[..n] + [log[n]];
      SurvivorsGrow(log[..n], log[n], abandoned);
    }
  }

  lemma NextSurvives(log: seq<Scheduled>, abandoned: set<U64>, n: nat)
    requires n < |log| && log[n].ticket !in abandoned
    ensures Survivors(log[..n], abandoned) + [log[n]] <= Survivors(log, abandoned)
  {
    assert log[..n + 1] == log[..n] + [log[n]];
    SurvivorsGrow(log[..n], log[n], abandoned);
    SurvivorsPrefix(log, abandoned, n + 1);
  }

  /** The ticket whose emission is running has not been given up. */
  lemma RunningTicketIsKept(s: Router)
    requires DispatchInv(s) && EmittedInOrder(s) && SomebodyEmits(s)
    ensures var p := D.Position(s.turn);
      1 <= p <= |s.scheduled| && s.scheduled[p - 1].ticket !in s.abandoned
  {
    var t :| t in s.threads && Holds(s.threads[t]);
    HolderFacts(s, t);
  }

  lemma EmittedContinues(s: Router, n: nat)
    requires EmittedInOrder(s) && n + 1 == D.Position(s.turn)
    requires SomebodyEmits(s) ==> n < |s.scheduled| && s.scheduled[n].ticket !in s.abandoned
    ensures s.emitted <= Survivors(s.scheduled, s.abandoned)
  {
    if SomebodyEmits(s) {
      NextSurvives(s.scheduled, s.abandoned, n);
    } else {
      SurvivorsPrefix(s.scheduled, s.abandoned, n);
    }
  }

  lemma EmittedIsPrefix(s: Router)
    requires DispatchInv(s) && EmittedInOrder(s)
    ensures s.emitted <= Survivors(s.scheduled, s.abandoned)
  {
    if SomebodyEmits(s) {
      RunningTicketIsKept(s);
    }
    EmittedContinues(s, D.Position(s.turn) - 1);
  }

  lemma OwnersDeliver(s: Router)
    requires OwnersAgree(s)
    ensures s.owner.Keys != {} || SomebodyEmits(s) ==> SomebodyDelivers(s)
  {
    if s.owner.Keys != {} {
      var k :| k in s.owner;
      assert Owns(s, s.owner[k], k);
    }
  }

  lemma NothingOutstanding(s: Router)
    requires DispatchInv(s) && EmittedInOrder(s) && !SomebodyDelivers(s)
    ensures s.emitted == Survivors(s.scheduled, s.abandoned)
  {
    OwnersDeliver(s);
    assert D.Position(s.turn) == |s.scheduled| + 1;
    assert s.scheduled[..|s.scheduled|] == s.scheduled;
  }

  lemma SchedulingDelivers(maximum: nat, s: Router, step: Step)
    requires Inv(maximum, s) && Can(s, step) && Schedules(step)
    ensures var s', effect := Do(s, step), Q.Apply(s.queue, OpOf(step));
      && Intents(s'.scheduled) == Intents(s.scheduled) + effect.deliveries
      && s'.queue == effect.queue
  {
    SeenAfterScheduling(maximum, s, step);
    TicketsSuffice(maximum, s, step.t, OpOf(step));
    var s' := Do(s, step);
    assert Intents(s'.scheduled) == Intents(s.scheduled) + Intents(s'.scheduled[|s.scheduled|..]);
  }

  /** Tickets never run out before ids do, so no intent is dropped for want of a
      ticket; consumed are exactly the successfully emitted ones and some that the
      frontend confirmed, so a failed emission alone consumes nothing. */
  lemma NoIntentIsDropped(maximum: nat, initial: Option<Q.Intent>, steps: seq<Step>, step: Step)
    requires GoodStart(initial) && IsRun(maximum, initial, steps)
    requires Can(After(maximum, initial, steps), step)
    ensures var s := After(maximum, initial, steps);
      && !step.DropStale?
      && (Schedules(step) ==>
            var s' := Do(s, step);
            && Intents(s'.scheduled) == Intents(s.scheduled) + Q.Apply(s.queue, OpOf(step)).deliveries
            && s'.queue == Q.Apply(s.queue, OpOf(step)).queue)
      && s.succeeded <= s.queue.consumed <= s.succeeded + s.confirmed
      && s.succeeded <= Q.Ids(Intents(s.emitted))
  {
    RunInv(maximum, initial, steps);
    var s := After(maximum, initial, steps);
    if step.DropStale? {
      StaleIsUnreachable(s, step.t);
    }
    if Schedules(step) {
      SchedulingDelivers(maximum, s, step);
    }
  }

  // Acknowledgement.

  /** What returning from an emission does to the queue and the histories. */
  ghost predicate Settles(s: Router, t: nat, ok: bool)
    requires Can(s, EmitReturns(t, ok))
  {
    var id := s.threads[t].phase.held.intent.id;
    var s' := Do(s, EmitReturns(t, ok));
    && s'.succeeded == s.succeeded + (if ok then {id} else {})
    && (ok ==>
          && id in s'.queue.consumed && id !in s'.queue.inFlight
          && s'.queue == s.queue.(inFlight := s.queue.inFlight - {id}, consumed := s.queue.consumed + {id}))
    && (!ok ==> s'.queue == s.queue)
  }

  lemma ReturningSettles(s: Router, t: nat, ok: bool)
    requires Can(s, EmitReturns(t, ok))
    requires s.threads[t].phase.held.intent.id in s.queue.inFlight + s.queue.consumed
    requires s.queue.inFlight !! s.queue.consumed
    ensures Settles(s, t, ok)
  {
  }

  /** A successful emission consumes its intent, which is then no longer in
      flight; a failed one leaves the queue as it is. */
  lemma EmissionsAreAcknowledged(maximum: nat, initial: Option<Q.Intent>, steps: seq<Step>, t: nat, ok: bool)
    requires GoodStart(initial) && IsRun(maximum, initial, steps)
    requires Can(After(maximum, initial, steps), EmitReturns(t, ok))
    ensures Settles(After(maximum, initial, steps), t, ok)
  {
    RunInv(maximum, initial, steps);
    HeldIsUnderway(maximum, After(maximum, initial, steps), t);
    ReturningSettles(After(maximum, initial, steps), t, ok);
  }

  lemma PanickingConsumesNothing(s: Router, t: nat)
    requires Can(s, EmitPanics(t))
    ensures Do(s, EmitPanics(t)).queue == s.queue && Do(s, EmitPanics(t)).succeeded == s.succeeded
  {
  }

  lemma SchedulingConsumesNothing(q: Q.Queue, op: Q.Op)
    requires !op.Acknowledge?
    ensures Q.Apply(q, op).queue.consumed == q.consumed
  {
  }

  lemma OthersKeepConsumed(s: Router, step: Step)
    requires Can(s, step) && !Schedules(step)
    ensures s.queue.consumed <= Do(s, step).queue.consumed
  {
  }

  lemma ConsumedStays(maximum: nat, s: Router, step: Step)
    requires Inv(maximum, s) && Can(s, step)
    ensures s.queue.consumed <= Do(s, step).queue.consumed
  {
    if Schedules(step) {
      SchedulingDelivers(maximum, s, step);
      SchedulingConsumesNothing(s.queue, OpOf(step));
    } else {
      OthersKeepConsumed(s, step);
    }
  }

  lemma ConsumedIsNotInFlight(maximum: nat, s: Router)
    requires FollowsQueue(maximum, s)
    ensures s.queue.inFlight !! s.queue.consumed
  {
    Q.DeliveredIsUnderway(maximum, s.ops);
  }

  /** What has been consumed stays so, and is never in flight again. */
  lemma {:induction false} ConsumedForever(maximum: nat, initial: Option<Q.Intent>, steps: seq<Step>, more: seq<Step>)
    requires GoodStart(initial) && IsRun(maximum, initial, steps) && IsRun(maximum, initial, steps + more)
    ensures var now, later := After(maximum, initial, steps).queue, After(maximum, initial, steps + more).queue;
      now.consumed <= later.consumed && now.consumed !! later.inFlight
    decreases |more|
  {
    RunInv(maximum, initial, steps + more);
    ConsumedIsNotInFlight(maximum, After(maximum, initial, steps + more));
    if more == [] {
      assert steps + more == steps;
    } else {
      var before := more[..|more| - 1];
      assert (steps + more)[..|steps + more| - 1] == steps + before;
      ConsumedForever(maximum, initial, steps, before);
      RunInv(maximum, initial, steps + before);
      ConsumedStays(maximum, After(maximum, initial, steps + before), Last(more));
    }
  }

  // Panics.

  ghost predicate Panics(step: Step) {
    step.EmitPanics? || step.BeforePanics?
  }

  /** The call has panicked and is giving up what it has left. */
  ghost predicate Doomed(thread: Thread) {
    thread.Delivering? && (thread.phase.Unwinding? || (thread.phase.Settled? && thread.phase.panicked))
  }

  /** A panicked call emits nothing more: until it returns it stays doomed, and
      each ticket it had left is still in its guard or has been given up. */
  lemma DoomedGivesUp(s: Router, t: nat, step: Step)
    requires t in s.threads && Doomed(s.threads[t]) && Can(s, step)
    ensures step != TakeTurn(t)
    ensures var s' := Do(s, step);
      if t in s'.threads then
        && Doomed(s'.threads[t])
        && (forall k :: k in s.threads[t].guard ==> k in s'.threads[t].guard || k in s'.abandoned)
      else s.threads[t].guard == []
  {
    if step.CancelNext? && step.t == t {
      assert s.threads[t].guard == [s.threads[t].guard[0]] + s.threads[t].guard[1..];
    }
  }

  lemma PanickingDooms(s: Router, step: Step)
    requires Can(s, step) && Panics(step)
    ensures var s' := Do(s, step);
      step.t in s'.threads && Doomed(s'.threads[step.t]) && s'.threads[step.t].guard == s.threads[step.t].guard
  {
  }

  ghost predicate Undamaged(s: Router) {
    s.abandoned == {} && forall t :: t in s.threads ==> !Doomed(s.threads[t])
  }

  lemma StepsLeaveUndamaged(s: Router, step: Step)
    requires Undamaged(s) && Can(s, step) && !Panics(step)
    ensures Undamaged(Do(s, step))
  {
  }

  /** Without a panic no ticket is given up, so that all intents scheduled are
      emitted, in order, once nobody delivers any more. */
  lemma {:induction false} OnlyPanicsGiveUp(maximum: nat, initial: Option<Q.Intent>, steps: seq<Step>)
    requires GoodStart(initial) && IsRun(maximum, initial, steps)
    requires forall step :: step in steps ==> !Panics(step)
    ensures Undamaged(After(maximum, initial, steps))
    ensures var s := After(maximum, initial, steps);
      s.emitted <= s.scheduled && (!SomebodyDelivers(s) ==> s.emitted == s.scheduled)
    decreases |steps|
  {
    if steps != [] {
      var before := steps[..|steps| - 1];
      assert forall step :: step in before ==> step in steps;
      assert Last(steps) in steps;
      OnlyPanicsGiveUp(maximum, initial, before);
      StepsLeaveUndamaged(After(maximum, initial, before), Last(steps));
    }
    EmissionsFollowTheSchedule(maximum, initial, steps);
    AllSurvive(After(maximum, initial, steps).scheduled);
  }

  lemma {:induction false} AllSurvive(log: seq<Scheduled>)
    ensures Survivors(log, {}) == log
  {
    if log != [] {
      AllSurvive(log[..|log| - 1]);
    }
  }
}
