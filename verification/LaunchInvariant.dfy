/** What holds in every reachable state of the launch-intent router. */
module LaunchInvariant {
  import opened Common
  import Q = LaunchQueue
  import D = LaunchDispatch
  import opened LaunchRouter

  // What every reachable state satisfies.

  ghost predicate Numbered(s: Router) {
    && |s.scheduled| <= U64_MAX
    && s.nextTicket == TicketAfter(|s.scheduled|)
    && forall i :: 0 <= i < |s.scheduled| ==> s.scheduled[i].ticket == i + 1
  }

  /** From the current turn on, a ticket is either owned or cancelled, not both. */
  ghost predicate Partitioned(s: Router) {
    var p := D.Position(s.turn);
    && 1 <= p <= |s.scheduled| + 1
    && p !in s.turn.cancelled
    && (forall k :: k in s.turn.cancelled ==> p < k <= |s.scheduled|)
    && (forall k :: k in s.owner ==> p <= k <= |s.scheduled| && k !in s.turn.cancelled)
    && (forall k: int :: p <= k <= |s.scheduled| ==> k in s.owner || k in s.turn.cancelled)
  }

  ghost predicate Owns(s: Router, t: nat, ticket: U64) {
    t in s.threads && ticket in Owned(s.threads[t])
  }

  ghost predicate OwnersAgree(s: Router) {
    forall t: nat, k: U64 :: Owns(s, t, k) <==> k in s.owner && s.owner[k] == t
  }

  ghost predicate Increasing(tickets: seq<U64>) {
    forall i, j :: 0 <= i < j < |tickets| ==> tickets[i] < tickets[j]
  }

  ghost predicate Logged(s: Router, entry: Scheduled) {
    1 <= entry.ticket <= |s.scheduled| && s.scheduled[entry.ticket - 1] == entry
  }

  ghost predicate ThreadOk(s: Router, thread: Thread) {
    thread.Delivering? ==>
      && Increasing(Owned(thread))
      && (thread.phase != Unwinding ==> thread.guard == Tickets(thread.rest))
      && (forall x :: x in thread.rest ==> Logged(s, x))
      && (Holds(thread) ==>
            && Logged(s, thread.phase.held)
            && thread.phase.held.ticket == D.Position(s.turn))
  }

  ghost predicate ThreadsOk(s: Router) {
    forall t :: t in s.threads ==> ThreadOk(s, s.threads[t])
  }

  ghost predicate DispatchInv(s: Router) {
    Numbered(s) && Partitioned(s) && OwnersAgree(s) && ThreadsOk(s)
  }

  // Scheduling, seen from the dispatcher: a fresh run of tickets appears, all
  // owned by one call.

  ghost predicate Extends(s: Router, s': Router, t: nat) {
    && s.scheduled <= s'.scheduled
    && var batch := s'.scheduled[|s.scheduled|..];
    && Numbered(s')
    && s'.turn == s.turn
    && s'.threads == s.threads[t := Delivering(batch, Tickets(batch), Before)]
    && s'.owner == s.owner + (map k | k in Tickets(batch) :: t)
    && (t in s.threads ==> s.threads[t].Routing?)
    && s'.emitted == s.emitted
    && s'.abandoned == s.abandoned
  }

  lemma ExtendingKeepsPartition(s: Router, s': Router, t: nat)
    requires DispatchInv(s) && Extends(s, s', t)
    ensures Partitioned(s')
  {
    var batch := s'.scheduled[|s.scheduled|..];
    forall k: int | |s.scheduled| < k <= |s'.scheduled|
      ensures k in s'.owner
    {
      assert Tickets(batch)[k - 1 - |s.scheduled|] == k;
    }
    forall k | k in Tickets(batch)
      ensures |s.scheduled| < k <= |s'.scheduled|
    {
      var i :| 0 <= i < |batch| && Tickets(batch)[i] == k;
      assert batch[i] == s'.scheduled[|s.scheduled| + i];
    }
  }

  lemma ExtendingKeepsThreads(s: Router, s': Router, t: nat)
    requires DispatchInv(s) && Extends(s, s', t)
    ensures ThreadsOk(s')
  {
    var batch := s'.scheduled[|s.scheduled|..];
    assert forall i :: 0 <= i < |batch| ==> batch[i] == s'.scheduled[|s.scheduled| + i];
    forall x | x in batch
      ensures Logged(s', x)
    {
    }
    forall t' | t' in s.threads && t' != t
      ensures ThreadOk(s', s.threads[t'])
    {
      assert ThreadOk(s, s.threads[t']);
    }
  }

  lemma ExtendingKeepsOwners(s: Router, s': Router, t: nat)
    requires DispatchInv(s) && Extends(s, s', t)
    ensures OwnersAgree(s')
  {
    var batch := s'.scheduled[|s.scheduled|..];
    forall k | k in Tickets(batch)
      ensures k > |s.scheduled|
    {
      var i :| 0 <= i < |batch| && Tickets(batch)[i] == k;
      assert batch[i] == s'.scheduled[|s.scheduled| + i];
    }
    forall t': nat, k: U64
      ensures Owns(s', t', k) <==> k in s'.owner && s'.owner[k] == t'
    {
      assert Owns(s, t', k) <==> k in s.owner && s.owner[k] == t';
      assert Owns(s', t', k) <==> if t' == t then k in Tickets(batch) else Owns(s, t', k);
    }
  }

  // Steps inside one call that leave the dispatcher alone.

  ghost predicate KeepsTickets(s: Router, s': Router, t: nat) {
    && t in s.threads
    && s'.scheduled == s.scheduled && s'.nextTicket == s.nextTicket
    && s'.turn == s.turn && s'.owner == s.owner && s'.abandoned == s.abandoned
    && t in s'.threads
    && s'.threads == s.threads[t := s'.threads[t]]
    && Owned(s'.threads[t]) == Owned(s.threads[t])
    && ThreadOk(s', s'.threads[t])
  }

  lemma KeepingTicketsKeepsInv(s: Router, s': Router, t: nat)
    requires DispatchInv(s) && KeepsTickets(s, s', t)
    ensures DispatchInv(s')
  {
    forall t' | t' in s.threads
      ensures ThreadOk(s', s'.threads[t'])
    {
      assert ThreadOk(s, s.threads[t']);
    }
    forall t': nat, k: U64
      ensures Owns(s', t', k) == Owns(s, t', k)
    {
    }
  }

  /** The owner of the current turn has it at the front. */
  lemma OwnerOfTurn(s: Router)
    requires DispatchInv(s) && s.owner.Keys != {}
    ensures var p := D.Position(s.turn);
      && p in s.owner
      && s.owner[p] in s.threads
      && Owned(s.threads[s.owner[p]]) != []
      && Owned(s.threads[s.owner[p]])[0] == p
  {
    var p := D.Position(s.turn);
    var k :| k in s.owner;
    assert p <= k <= |s.scheduled|;
    assert p in s.owner;
    var t := s.owner[p];
    assert Owns(s, t, p);
    assert ThreadOk(s, s.threads[t]);
    assert Owns(s, t, Owned(s.threads[t])[0]);
  }

  lemma TakingTurnKeepsTickets(s: Router, t: nat)
    requires DispatchInv(s) && Can(s, TakeTurn(t))
    ensures KeepsTickets(s, Do(s, TakeTurn(t)), t)
  {
    var thread := s.threads[t];
    assert ThreadOk(s, thread);
    var thread' := Do(s, TakeTurn(t)).threads[t];
    assert thread.guard == [thread.guard[0]] + thread.guard[1..];
    assert thread'.guard == Tickets(thread'.rest);
    assert Owned(thread') == Owned(thread);
    forall x | x in thread'.rest
      ensures Logged(s, x)
    {
      assert x in thread.rest;
    }
    assert thread.rest[0] in thread.rest;
  }

  // Giving up one ticket, by completing or by cancelling it.

  ghost predicate Releases(s: Router, s': Router, t: nat, ticket: U64) {
    && t in s.threads && t in s'.threads
    && Owned(s.threads[t]) == [ticket] + Owned(s'.threads[t])
    && s'.threads == s.threads[t := s'.threads[t]]
    && !Holds(s'.threads[t])
    && s'.threads[t].Delivering?
    && s'.owner == s.owner - {ticket}
    && s'.scheduled == s.scheduled && s'.nextTicket == s.nextTicket
    && (s'.threads[t].phase != Unwinding ==> s'.threads[t].guard == Tickets(s'.threads[t].rest))
    && s'.threads[t].rest == s.threads[t].rest
  }

  lemma DroppingHead(x: U64, rest: seq<U64>)
    requires Increasing([x] + rest)
    ensures Increasing(rest)
    ensures forall k :: k in rest <==> k in [x] + rest && k != x
    ensures forall k :: k in rest ==> k > x
  {
    var all := [x] + rest;
    assert forall i :: 0 <= i < |rest| ==> rest[i] == all[i + 1];
    forall k | k in all && k != x
      ensures k in rest
    {
      var i :| 0 <= i < |all| && all[i] == k;
      assert rest[i - 1] == k;
    }
    forall k | k in rest
      ensures k in all && k > x
    {
      var i :| 0 <= i < |rest| && rest[i] == k;
      assert all[0] < all[i + 1];
    }
  }

  lemma ReleasingKeepsOwners(s: Router, s': Router, t: nat, ticket: U64)
    requires DispatchInv(s) && Releases(s, s', t, ticket)
    ensures OwnersAgree(s')
    ensures ticket in s.owner && s.owner[ticket] == t
  {
    var before, after := Owned(s.threads[t]), Owned(s'.threads[t]);
    assert ThreadOk(s, s.threads[t]);
    DroppingHead(ticket, after);
    assert before[0] == ticket;
    assert Owns(s, t, ticket);
    forall t': nat, k: U64
      ensures Owns(s', t', k) <==> k in s'.owner && s'.owner[k] == t'
    {
      assert Owns(s, t', k) <==> k in s.owner && s.owner[k] == t';
      assert Owns(s', t', k) <==> Owns(s, t', k) && k != ticket;
    }
  }

  lemma ReleasingKeepsThreads(s: Router, s': Router, t: nat, ticket: U64)
    requires DispatchInv(s) && Releases(s, s', t, ticket)
    requires forall t' :: t' in s.threads && t' != t && Holds(s.threads[t']) ==>
      D.Position(s'.turn) == D.Position(s.turn)
    ensures ThreadsOk(s')
  {
    assert ThreadOk(s, s.threads[t]);
    DroppingHead(ticket, Owned(s'.threads[t]));
    forall t' | t' in s.threads && t' != t
      ensures ThreadOk(s', s'.threads[t'])
    {
      assert ThreadOk(s, s.threads[t']);
    }
  }

  /** Two calls never hold the turn together. */
  lemma HolderIsUnique(s: Router, t: nat, t': nat)
    requires DispatchInv(s)
    requires t in s.threads && t' in s.threads && Holds(s.threads[t]) && Holds(s.threads[t'])
    ensures t == t'
  {
    assert ThreadOk(s, s.threads[t]) && ThreadOk(s, s.threads[t']);
    var p := D.Position(s.turn);
    assert Owned(s.threads[t])[0] == p && Owned(s.threads[t'])[0] == p;
    assert Owns(s, t, p) && Owns(s, t', p);
  }

  lemma CompletingKeepsInv(s: Router, t: nat)
    requires DispatchInv(s) && Can(s, CompleteTurn(t))
    ensures DispatchInv(Do(s, CompleteTurn(t)))
  {
    var s' := Do(s, CompleteTurn(t));
    var thread := s.threads[t];
    var ticket := thread.phase.held.ticket;
    assert ThreadOk(s, thread);
    assert Releases(s, s', t, ticket);
    ReleasingKeepsOwners(s, s', t, ticket);
    forall t' | t' in s.threads && Holds(s.threads[t'])
      ensures t' == t
    {
      HolderIsUnique(s, t, t');
    }
    ReleasingKeepsThreads(s, s', t, ticket);
    var moved := s.turn.(current := CheckedSucc(ticket));
    D.SkipStopsAtFirstGap(moved);
    SkippingPartitions(s, s', moved, ticket);
  }

  /** Skipping from just past, or at, a ticket that is no longer owned. */
  lemma SkippingPartitions(s: Router, s': Router, moved: D.Turn, ticket: U64)
    requires Numbered(s) && Partitioned(s) && ticket in s.owner
    requires s'.owner == s.owner - {ticket} && s'.scheduled == s.scheduled && D.SkipsTo(moved, s'.turn)
    requires var p := D.Position(s.turn);
      || (ticket == p && D.Position(moved) == p + 1 && moved.cancelled == s.turn.cancelled)
      || (D.Position(moved) == p && moved.cancelled == s.turn.cancelled + {ticket})
    ensures Partitioned(s')
  {
    D.SkipStopsBy(moved, s'.turn, |s.scheduled| + 1);
    forall k | k in s'.owner
      ensures D.Position(s'.turn) <= k
    {
      D.SkipStopsBy(moved, s'.turn, k);
    }
  }

  lemma CancellingKeepsInv(s: Router, t: nat)
    requires DispatchInv(s) && Can(s, CancelNext(t))
    ensures DispatchInv(Do(s, CancelNext(t)))
  {
    var s' := Do(s, CancelNext(t));
    var ticket := s.threads[t].guard[0];
    assert Owned(s.threads[t]) == [ticket] + Owned(s'.threads[t]);
    ReleasingKeepsOwners(s, s', t, ticket);
    var moved := s.turn.(cancelled := s.turn.cancelled + {ticket});
    forall t' | t' in s.threads && t' != t && Holds(s.threads[t'])
      ensures D.Position(s'.turn) == D.Position(s.turn)
    {
      HolderKeepsTurn(s, t', ticket);
    }
    ReleasingKeepsThreads(s, s', t, ticket);
    D.SkipStopsAtFirstGap(moved);
    SkippingPartitions(s, s', moved, ticket);
  }

  /** Cancelling somebody else's ticket does not move the turn of its holder. */
  lemma HolderKeepsTurn(s: Router, t: nat, ticket: U64)
    requires DispatchInv(s) && t in s.threads && Holds(s.threads[t])
    requires ticket in s.owner && s.owner[ticket] != t
    ensures D.Position(D.Cancelled(s.turn, ticket)) == D.Position(s.turn)
  {
    var p := D.Position(s.turn);
    assert ThreadOk(s, s.threads[t]);
    assert Owned(s.threads[t])[0] == p;
    assert Owns(s, t, p);
    var moved := s.turn.(cancelled := s.turn.cancelled + {ticket});
    D.SkipStopsAtFirstGap(moved);
    D.SkipStopsBy(moved, D.Skip(moved), p);
  }

  // The histories: queue, ids, emissions, acknowledgements.

  /** The schedule is what the queue handed over, in the order it did. */
  ghost predicate FollowsQueue(maximum: nat, s: Router) {
    && s.queue == Q.Run(maximum, s.ops).queue
    && Intents(s.scheduled) == Q.Run(maximum, s.ops).delivered
  }

  /** Ids from here on have not been handed out. */
  ghost function Frontier(s: Router): int {
    if s.nextId == 0 then U64_MAX + 1 else s.nextId
  }

  ghost predicate IdsFresh(s: Router) {
    && (forall id :: id in s.queue.seen ==> 0 < id < Frontier(s))
    && (forall t :: t in s.threads && s.threads[t].Routing? ==>
          0 < s.threads[t].id < Frontier(s) && s.threads[t].id !in s.queue.seen)
    && (forall t, t' | t in s.threads && t' in s.threads && t != t' ::
          s.threads[t].Routing? && s.threads[t'].Routing? ==> s.threads[t].id != s.threads[t'].id)
  }

  /** The schedule without the tickets a panic gave up. */
  ghost function Survivors(log: seq<Scheduled>, abandoned: set<U64>): seq<Scheduled> {
    if log == [] then []
    else
      var earlier := Survivors(log[..|log| - 1], abandoned);
      if Last(log).ticket in abandoned then earlier else earlier + [Last(log)]
  }

  ghost predicate SomebodyEmits(s: Router) {
    exists t :: t in s.threads && Holds(s.threads[t])
  }

  ghost predicate EmittedInOrder(s: Router) {
    var p := D.Position(s.turn);
    && 1 <= p <= |s.scheduled| + 1
    && (SomebodyEmits(s) ==> p <= |s.scheduled|)
    && s.emitted == Survivors(s.scheduled[..p - 1], s.abandoned)
                  + (if SomebodyEmits(s) then [s.scheduled[p - 1]] else [])
    && (forall k :: k in s.abandoned ==> 1 <= k <= |s.scheduled| && k !in s.owner)
    && (forall k: U64 :: k in s.turn.cancelled <==> k in s.abandoned && k >= p)
  }

  ghost predicate Acknowledgements(s: Router) {
    && s.succeeded <= s.queue.consumed <= s.succeeded + s.confirmed
    && s.succeeded <= Q.Ids(Intents(s.emitted))
  }

  ghost predicate Inv(maximum: nat, s: Router) {
    DispatchInv(s) && FollowsQueue(maximum, s) && IdsFresh(s) && EmittedInOrder(s) && Acknowledgements(s)
  }

  // There are more tickets than ids.

  lemma {:induction false} NumbersBelow(numbers: set<U64>, n: nat)
    requires forall k :: k in numbers ==> 1 <= k <= n
    ensures |numbers| <= n
    decreases n
  {
    if n == 0 {
      assert numbers == {};
    } else if n <= U64_MAX {
      NumbersBelow(numbers - {n}, n - 1);
    } else {
      NumbersBelow(numbers, n - 1);
    }
  }

  lemma {:induction false} DistinctIdsCount(intents: seq<Q.Intent>)
    requires Q.DistinctIds(intents)
    ensures |Q.Ids(intents)| == |intents|
  {
    if intents != [] {
      var init, last := intents[..|intents| - 1], Last(intents);
      assert intents == init + [last];
      Q.DistinctSplits(init, [last]);
      DistinctIdsCount(init);
      OneMoreId(init, last);
    }
  }

  lemma OneMoreId(intents: seq<Q.Intent>, last: Q.Intent)
    requires Q.Ids(intents) !! Q.Ids([last])
    ensures |Q.Ids(intents + [last])| == |Q.Ids(intents)| + 1
  {
    Q.IdsOfAppend(intents, [last]);
    assert last in [last];
    assert Q.Ids([last]) == {last.id};
  }

  /** All deliveries of a run together never need more tickets than there are. */
  lemma DeliveriesFit(maximum: nat, ops: seq<Q.Op>)
    requires forall id :: id in Q.Run(maximum, ops).queue.seen ==> id > 0
    ensures |Q.Run(maximum, ops).delivered| <= U64_MAX
  {
    var delivered := Q.Run(maximum, ops).delivered;
    Q.DeliveredOnce(maximum, ops);
    DeliveredAreSeen(maximum, ops);
    DistinctIdsCount(delivered);
    NumbersBelow(Q.Ids(delivered), U64_MAX);
  }

  lemma DeliveredAreSeen(maximum: nat, ops: seq<Q.Op>)
    ensures Q.Ids(Q.Run(maximum, ops).delivered) <= Q.Run(maximum, ops).queue.seen
  {
    Q.QueueIsBoundedFifo(maximum, ops);
    Q.IdsAreConserved(maximum, ops);
  }

  lemma RunGoesOn(maximum: nat, s: Router, op: Q.Op)
    requires FollowsQueue(maximum, s)
    ensures var h, effect := Q.Run(maximum, s.ops + [op]), Q.Apply(s.queue, op);
      h.queue == effect.queue && h.delivered == Intents(s.scheduled) + effect.deliveries
  {
    assert (s.ops + [op])[..|s.ops|] == s.ops;
  }

  lemma IntentsAppend(a: seq<Scheduled>, b: seq<Scheduled>)
    ensures Intents(a + b) == Intents(a) + Intents(b)
    ensures (a + b)[|a|..] == b
  {
  }

  /** A scheduled batch is numbered on from the log and drops nothing. */
  lemma BatchExtendsLog(s: Router, t: nat, op: Q.Op)
    requires Numbered(s)
    requires |s.scheduled| + |Q.Apply(s.queue, op).deliveries| <= U64_MAX
    ensures var effect, s' := Q.Apply(s.queue, op), Dispatching(s, t, op);
      && Numbered(s') && s'.queue == effect.queue
      && s.scheduled <= s'.scheduled
      && Intents(s'.scheduled[|s.scheduled|..]) == effect.deliveries
      && Intents(s'.scheduled) == Intents(s.scheduled) + effect.deliveries
  {
    var effect := Q.Apply(s.queue, op);
    SchedulingKeepsEverything(effect.queue, |s.scheduled|, effect.deliveries);
    var batch := Scheduling(effect.queue, s.nextTicket, effect.deliveries).batch;
    assert Intents(batch) == effect.deliveries;
    IntentsAppend(s.scheduled, batch);
  }

  /** Whatever the queue hands over next, there are tickets left for it. */
  lemma TicketsSuffice(maximum: nat, s: Router, t: nat, op: Q.Op)
    requires Numbered(s) && FollowsQueue(maximum, s)
    requires forall id :: id in Q.Run(maximum, s.ops + [op]).queue.seen ==> id > 0
    ensures var effect := Q.Apply(s.queue, op);
      var s' := Dispatching(s, t, op);
      && Numbered(s') && FollowsQueue(maximum, s')
      && s'.queue == effect.queue
      && s.scheduled <= s'.scheduled
      && s'.threads[t] == Delivering(s'.scheduled[|s.scheduled|..], Tickets(s'.scheduled[|s.scheduled|..]), Before)
      && Intents(s'.scheduled[|s.scheduled|..]) == effect.deliveries
  {
    var effect := Q.Apply(s.queue, op);
    RunGoesOn(maximum, s, op);
    DeliveriesFit(maximum, s.ops + [op]);
    BatchExtendsLog(s, t, op);
    IntentsAppend(s.scheduled, Scheduling(effect.queue, s.nextTicket, effect.deliveries).batch);
  }

  // One step at a time: the dispatcher.

  /** The steps that schedule a batch, possibly an empty one. */
  ghost predicate Schedules(step: Step) {
    step.Arrive? || step.FrontendReady?
  }

  ghost function OpOf(step: Step): Q.Op
    requires Schedules(step)
  {
    if step.Arrive? then Q.Op.Enqueue(step.intent) else Q.Op.MarkReady
  }

  lemma SeenAfterScheduling(maximum: nat, s: Router, step: Step)
    requires Inv(maximum, s) && Can(s, step) && Schedules(step)
    ensures forall id :: id in Q.Apply(s.queue, OpOf(step)).queue.seen ==> 0 < id < Frontier(s)
    ensures Q.Apply(s.queue, OpOf(step)).queue == Q.Run(maximum, s.ops + [OpOf(step)]).queue
  {
    assert (s.ops + [OpOf(step)])[..|s.ops|] == s.ops;
  }

  lemma SchedulingKeepsDispatch(maximum: nat, s: Router, step: Step)
    requires Inv(maximum, s) && Can(s, step) && Schedules(step)
    ensures var s' := Do(s, step);
      && Extends(s, s', step.t) && DispatchInv(s') && FollowsQueue(maximum, s')
      && s'.queue == Q.Apply(s.queue, OpOf(step)).queue
  {
    SeenAfterScheduling(maximum, s, step);
    TicketsSuffice(maximum, s, step.t, OpOf(step));
    var s' := Do(s, step);
    ExtendingKeepsPartition(s, s', step.t);
    ExtendingKeepsThreads(s, s', step.t);
    ExtendingKeepsOwners(s, s', step.t);
  }

  /** A call that begins or ends without tickets of its own. */
  lemma EmptyCallKeepsDispatch(s: Router, s': Router, t: nat)
    requires DispatchInv(s)
    requires s'.scheduled == s.scheduled && s'.nextTicket == s.nextTicket
    requires s'.turn == s.turn && s'.owner == s.owner
    requires t in s.threads ==> Owned(s.threads[t]) == []
    requires t in s'.threads ==> Owned(s'.threads[t]) == [] && ThreadOk(s', s'.threads[t])
    requires forall t' :: t' != t ==> (t' in s'.threads <==> t' in s.threads)
    requires forall t' :: t' != t && t' in s.threads ==> s'.threads[t'] == s.threads[t']
    ensures DispatchInv(s')
  {
    forall t' | t' in s'.threads && t' != t
      ensures ThreadOk(s', s'.threads[t'])
    {
      assert ThreadOk(s, s.threads[t']);
    }
    forall t': nat, k: U64
      ensures Owns(s', t', k) == Owns(s, t', k)
    {
    }
  }

  lemma StaleIsUnreachable(s: Router, t: nat)
    requires DispatchInv(s)
    ensures !Can(s, DropStale(t))
  {
    if In(s, t, Waiting) && s.threads[t].rest != [] {
      assert ThreadOk(s, s.threads[t]);
      assert Owned(s.threads[t])[0] == s.threads[t].rest[0].ticket;
      assert Owns(s, t, s.threads[t].rest[0].ticket);
    }
  }

  lemma StepKeepsDispatch(maximum: nat, s: Router, step: Step)
    requires Inv(maximum, s) && Can(s, step)
    ensures DispatchInv(Do(s, step))
  {
    if Schedules(step) {
      SchedulingKeepsDispatch(maximum, s, step);
    } else if step.Acknowledge? {
      AcknowledgingKeepsDispatch(s, Do(s, step));
    } else if step.CompleteTurn? {
      CompletingKeepsInv(s, step.t);
    } else if step.CancelNext? {
      CancellingKeepsInv(s, step.t);
    } else if step.TakeTurn? {
      TakingTurnKeepsTickets(s, step.t);
      KeepingTicketsKeepsInv(s, Do(s, step), step.t);
    } else if step.DropStale? {
      StaleIsUnreachable(s, step.t);
    } else if Local(step) {
      LocalKeepsDispatch(s, step);
    } else {
      EdgeKeepsDispatch(s, step);
    }
  }

  lemma EdgeKeepsDispatch(s: Router, step: Step)
    requires DispatchInv(s) && Can(s, step)
    requires step.TakeId? || step.ParseFails? || step.Return?
    ensures DispatchInv(Do(s, step))
  {
    if step.t in s.threads {
      assert ThreadOk(s, s.threads[step.t]);
    }
    EmptyCallKeepsDispatch(s, Do(s, step), step.t);
  }

  lemma AcknowledgingKeepsDispatch(s: Router, s': Router)
    requires DispatchInv(s)
    requires s'.scheduled == s.scheduled && s'.nextTicket == s.nextTicket
    requires s'.turn == s.turn && s'.owner == s.owner && s'.threads == s.threads
    ensures DispatchInv(s')
  {
    forall t | t in s.threads
      ensures ThreadOk(s', s.threads[t])
    {
      assert ThreadOk(s, s.threads[t]);
    }
    forall t: nat, k: U64
      ensures Owns(s', t, k) == Owns(s, t, k)
    {
    }
  }

  ghost predicate Local(step: Step) {
    step.FinishBefore? || step.BeforePanics? || step.EmitReturns? || step.EmitPanics?
  }

  lemma LocalKeepsDispatch(s: Router, step: Step)
    requires DispatchInv(s) && Can(s, step) && Local(step)
    ensures DispatchInv(Do(s, step))
  {
    assert ThreadOk(s, s.threads[step.t]);
    KeepingTicketsKeepsInv(s, Do(s, step), step.t);
  }

  // One step at a time: the queue and the ids.

  lemma AcknowledgingFollowsQueue(maximum: nat, s: Router, s': Router, id: U64)
    requires FollowsQueue(maximum, s)
    requires s'.queue == Q.Acknowledged(s.queue, id) && s'.ops == s.ops + [Q.Op.Acknowledge(id)]
    requires s'.scheduled == s.scheduled
    ensures FollowsQueue(maximum, s')
  {
    assert s'.ops[..|s'.ops| - 1] == s.ops;
    assert Intents(s.scheduled) + [] == Intents(s.scheduled);
  }

  /** Only the router lock and acknowledgements touch the queue. */
  lemma OthersLeaveQueue(s: Router, step: Step)
    requires Can(s, step) && !Schedules(step) && !step.DropStale?
    requires !step.Acknowledge? && !(step.EmitReturns? && step.ok)
    ensures var s' := Do(s, step); s'.queue == s.queue && s'.ops == s.ops && s'.scheduled == s.scheduled
  {
  }

  lemma StepFollowsQueue(maximum: nat, s: Router, step: Step)
    requires Inv(maximum, s) && Can(s, step)
    ensures FollowsQueue(maximum, Do(s, step))
  {
    if Schedules(step) {
      SchedulingKeepsDispatch(maximum, s, step);
    } else if step.DropStale? {
      StaleIsUnreachable(s, step.t);
    } else if step.Acknowledge? {
      AcknowledgingFollowsQueue(maximum, s, Do(s, step), step.id);
    } else if step.EmitReturns? && step.ok {
      AcknowledgingFollowsQueue(maximum, s, Do(s, step), s.threads[step.t].phase.held.intent.id);
    } else {
      OthersLeaveQueue(s, step);
    }
  }

  /** Only taking an id and enqueuing it touch what freshness speaks about. */
  lemma IdsStayFresh(s: Router, s': Router)
    requires IdsFresh(s)
    requires s'.nextId == s.nextId && s'.queue.seen <= s.queue.seen
    requires forall t :: t in s'.threads && s'.threads[t].Routing? ==> t in s.threads && s'.threads[t] == s.threads[t]
    ensures IdsFresh(s')
  {
  }

  lemma TakingIdKeepsIdsFresh(s: Router, t: nat)
    requires IdsFresh(s) && Can(s, TakeId(t))
    ensures IdsFresh(Do(s, TakeId(t)))
  {
  }

  /** One call stops routing, and at most its own id joins the seen ones. */
  lemma SeeingOwnIdKeepsFresh(s: Router, s': Router, t: nat, arrived: set<U64>)
    requires IdsFresh(s) && s'.nextId == s.nextId
    requires t in s'.threads && !s'.threads[t].Routing? && s'.threads == s.threads[t := s'.threads[t]]
    requires s'.queue.seen <= s.queue.seen + arrived
    requires arrived == {} || (t in s.threads && s.threads[t].Routing? && arrived == {s.threads[t].id})
    ensures IdsFresh(s')
  {
  }

  lemma SchedulingKeepsIdsFresh(maximum: nat, s: Router, step: Step)
    requires Inv(maximum, s) && Can(s, step) && Schedules(step)
    ensures IdsFresh(Do(s, step))
  {
    SchedulingKeepsDispatch(maximum, s, step);
    SeeingOwnIdKeepsFresh(s, Do(s, step), step.t, if step.Arrive? then {step.intent.id} else {});
  }

  lemma StepKeepsIdsFresh(maximum: nat, s: Router, step: Step)
    requires Inv(maximum, s) && Can(s, step)
    ensures IdsFresh(Do(s, step))
  {
    if Schedules(step) {
      SchedulingKeepsIdsFresh(maximum, s, step);
    } else if step.TakeId? {
      TakingIdKeepsIdsFresh(s, step.t);
    } else {
      OtherStepsKeepIdsFresh(s, step);
    }
  }

  lemma OtherStepsKeepIdsFresh(s: Router, step: Step)
    requires IdsFresh(s) && Can(s, step) && !Schedules(step) && !step.TakeId?
    ensures IdsFresh(Do(s, step))
  {
    IdsStayFresh(s, Do(s, step));
  }

  lemma TakingTurnKeepsAcknowledgements(s: Router, t: nat)
    requires Acknowledgements(s) && Can(s, TakeTurn(t))
    ensures Acknowledgements(Do(s, TakeTurn(t)))
  {
    var s' := Do(s, TakeTurn(t));
    assert Intents(s'.emitted) == Intents(s.emitted) + [s.threads[t].rest[0].intent];
    Q.IdsOfAppend(Intents(s.emitted), [s.threads[t].rest[0].intent]);
  }

  lemma HeldIsLastEmitted(s: Router, t: nat)
    requires DispatchInv(s) && EmittedInOrder(s) && t in s.threads && Holds(s.threads[t])
    ensures s.emitted != [] && Last(s.emitted) == s.threads[t].phase.held
  {
    assert ThreadOk(s, s.threads[t]);
  }

  lemma LastIdIsThere(log: seq<Scheduled>)
    requires log != []
    ensures Last(log).intent.id in Q.Ids(Intents(log))
  {
    assert Intents(log)[|log| - 1] in Intents(log);
  }

  /** What is being emitted has been handed over by the queue. */
  lemma HeldIsUnderway(maximum: nat, s: Router, t: nat)
    requires DispatchInv(s) && FollowsQueue(maximum, s) && t in s.threads && Holds(s.threads[t])
    ensures s.threads[t].phase.held.intent.id in s.queue.inFlight + s.queue.consumed
    ensures s.queue.inFlight !! s.queue.consumed
  {
    var held := s.threads[t].phase.held;
    assert ThreadOk(s, s.threads[t]);
    assert Intents(s.scheduled)[held.ticket - 1] == held.intent;
    assert held.intent in Intents(s.scheduled);
    Q.DeliveredIsUnderway(maximum, s.ops);
  }

  lemma ReturningKeepsAcknowledgements(s: Router, t: nat, ok: bool)
    requires Acknowledgements(s) && Can(s, EmitReturns(t, ok))
    requires s.threads[t].phase.held.intent.id in Q.Ids(Intents(s.emitted))
    requires s.threads[t].phase.held.intent.id in s.queue.inFlight + s.queue.consumed
    ensures Acknowledgements(Do(s, EmitReturns(t, ok)))
  {
  }

  lemma StepKeepsAcknowledgements(maximum: nat, s: Router, step: Step)
    requires Inv(maximum, s) && Can(s, step)
    ensures Acknowledgements(Do(s, step))
  {
    match step {
      case Arrive(_, _) => SchedulingKeepsDispatch(maximum, s, step);
      case FrontendReady(_) => SchedulingKeepsDispatch(maximum, s, step);
      case DropStale(t) => StaleIsUnreachable(s, t);
      case TakeTurn(t) => TakingTurnKeepsAcknowledgements(s, t);
      case EmitReturns(t, ok) =>
        HeldIsLastEmitted(s, t);
        LastIdIsThere(s.emitted);
        HeldIsUnderway(maximum, s, t);
        ReturningKeepsAcknowledgements(s, t, ok);
      case _ =>
    }
  }

  // One step at a time: the emissions.

  lemma SurvivorsGrow(log: seq<Scheduled>, x: Scheduled, abandoned: set<U64>)
    ensures Survivors(log + [x], abandoned)
         == Survivors(log, abandoned) + (if x.ticket in abandoned then [] else [x])
  {
    assert (log + [x])[..|log|] == log;
  }

  lemma {:induction false} SurvivorsSkip(log: seq<Scheduled>, abandoned: set<U64>, n: nat, m: nat)
    requires n <= m <= |log|
    requires forall i :: n <= i < m ==> log[i].ticket in abandoned
    ensures Survivors(log[..m], abandoned) == Survivors(log[..n], abandoned)
  {
    if n < m {
      assert log[..m][..m - 1] == log[..m - 1];
      SurvivorsSkip(log, abandoned, n, m - 1);
    }
  }

  lemma {:induction false} SurvivorsIgnore(log: seq<Scheduled>, abandoned: set<U64>, k: U64)
    requires forall x :: x in log ==> x.ticket != k
    ensures Survivors(log, abandoned + {k}) == Survivors(log, abandoned)
  {
    if log != [] {
      SurvivorsIgnore(log[..|log| - 1], abandoned, k);
    }
  }

  /** Nothing an emission depends on changes, except later entries of the log. */
  lemma EmissionsUnchanged(s: Router, s': Router)
    requires EmittedInOrder(s)
    requires s'.turn == s.turn && s'.abandoned == s.abandoned && s'.emitted == s.emitted
    requires s.scheduled <= s'.scheduled
    requires SomebodyEmits(s') == SomebodyEmits(s)
    requires forall k :: k in s.abandoned && k !in s.owner ==> k !in s'.owner
    ensures EmittedInOrder(s')
  {
    var p := D.Position(s.turn);
    assert s'.scheduled[..p - 1] == s.scheduled[..p - 1];
  }

  lemma SameEmitter(s: Router, s': Router, t: nat)
    requires forall t' :: t' != t ==> (t' in s'.threads <==> t' in s.threads)
    requires forall t' :: t' != t && t' in s.threads ==> s'.threads[t'] == s.threads[t']
    requires (t in s.threads && Holds(s.threads[t])) == (t in s'.threads && Holds(s'.threads[t]))
    ensures SomebodyEmits(s') == SomebodyEmits(s)
  {
    if SomebodyEmits(s) {
      var w :| w in s.threads && Holds(s.threads[w]);
      assert w in s'.threads && Holds(s'.threads[w]);
    }
    if SomebodyEmits(s') {
      var w :| w in s'.threads && Holds(s'.threads[w]);
      assert w in s.threads && Holds(s.threads[w]);
    }
  }

  /** While a call waits with the current ticket in front, nobody emits. */
  lemma OnlyOwnerEmits(s: Router, t: nat, p: U64)
    requires DispatchInv(s) && p == D.Position(s.turn) && Owns(s, t, p) && !Holds(s.threads[t])
    ensures !SomebodyEmits(s)
  {
    if t' :| t' in s.threads && Holds(s.threads[t']) {
      assert ThreadOk(s, s.threads[t']);
      assert Owned(s.threads[t'])[0] == p;
      assert Owns(s, t', p);
    }
  }

  lemma TakingTurnEmits(s: Router, t: nat)
    requires DispatchInv(s) && EmittedInOrder(s) && Can(s, TakeTurn(t))
    ensures EmittedInOrder(Do(s, TakeTurn(t)))
  {
    var s' := Do(s, TakeTurn(t));
    var front := s.threads[t].rest[0];
    assert ThreadOk(s, s.threads[t]);
    assert Owned(s.threads[t])[0] == front.ticket;
    assert Owns(s, t, front.ticket);
    OnlyOwnerEmits(s, t, front.ticket);
    assert t in s'.threads && Holds(s'.threads[t]);
    assert front in s.threads[t].rest;
    assert Logged(s, front);
  }

  /** The turn skips from `moved` over tickets that were given up; `ended` says
      whether an emission ended as well. */
  lemma TurnMovesOn(s: Router, s': Router, moved: D.Turn, ended: bool)
    requires Numbered(s) && EmittedInOrder(s) && !SomebodyEmits(s') && SomebodyEmits(s) == ended
    requires s'.scheduled == s.scheduled && s'.emitted == s.emitted
    requires s.abandoned <= s'.abandoned
    requires Survivors(s.scheduled[..D.Position(s.turn) - 1], s'.abandoned)
          == Survivors(s.scheduled[..D.Position(s.turn) - 1], s.abandoned)
    requires D.SkipsTo(moved, s'.turn)
    requires D.Position(moved) == D.Position(s.turn) + (if ended then 1 else 0)
    requires ended ==> D.Position(s.turn) !in s'.abandoned
    requires forall k: U64 :: k in moved.cancelled <==> k in s'.abandoned && k >= D.Position(moved)
    requires forall k :: k in s'.abandoned ==> 1 <= k <= |s.scheduled| && k !in s'.owner
    ensures EmittedInOrder(s')
  {
    var p, p' := D.Position(s.turn), D.Position(s'.turn);
    var gap := |s.scheduled| + 1;
    assert gap !in moved.cancelled by {
      assert gap !in s'.abandoned;
    }
    D.SkipStopsBy(moved, s'.turn, gap);
    forall k: U64
      ensures k in s'.turn.cancelled <==> k in s'.abandoned && k >= p'
    {
      assert k in s'.turn.cancelled <==> k in moved.cancelled && !(D.Position(moved) <= k < p');
    }
    MovedSurvivors(s, s', moved, ended);
  }

  lemma MovedSurvivors(s: Router, s': Router, moved: D.Turn, ended: bool)
    requires Numbered(s) && s'.scheduled == s.scheduled
    requires var p, p' := D.Position(s.turn), D.Position(s'.turn);
      && 1 <= p <= p' <= |s.scheduled| + 1
      && D.Position(moved) == p + (if ended then 1 else 0)
      && (ended ==> p < p' && p !in s'.abandoned)
      && (forall k: int :: D.Position(moved) <= k < p' ==> k in s'.abandoned)
    ensures var p := D.Position(s.turn);
      Survivors(s'.scheduled[..D.Position(s'.turn) - 1], s'.abandoned)
      == Survivors(s.scheduled[..p - 1], s'.abandoned) + (if ended then [s.scheduled[p - 1]] else [])
  {
    var p, p' := D.Position(s.turn), D.Position(s'.turn);
    if ended {
      assert s.scheduled[..p] == s.scheduled[..p - 1] + [s.scheduled[p - 1]];
      SurvivorsGrow(s.scheduled[..p - 1], s.scheduled[p - 1], s'.abandoned);
      SurvivorsSkip(s.scheduled, s'.abandoned, p, p' - 1);
    } else {
      SurvivorsSkip(s.scheduled, s'.abandoned, p - 1, p' - 1);
    }
  }

  lemma HolderFacts(s: Router, t: nat)
    requires DispatchInv(s) && t in s.threads && Holds(s.threads[t])
    ensures var held := s.threads[t].phase.held.ticket;
      held == D.Position(s.turn) && Owns(s, t, held) && held in s.owner && SomebodyEmits(s)
  {
    assert ThreadOk(s, s.threads[t]);
    assert Owned(s.threads[t])[0] == s.threads[t].phase.held.ticket;
  }

  lemma CompletingEmits(s: Router, t: nat)
    requires DispatchInv(s) && EmittedInOrder(s) && Can(s, CompleteTurn(t))
    ensures EmittedInOrder(Do(s, CompleteTurn(t)))
  {
    var s' := Do(s, CompleteTurn(t));
    HolderFacts(s, t);
    if t' :| t' in s'.threads && Holds(s'.threads[t']) {
      HolderIsUnique(s, t, t');
    }
    var moved := s.turn.(current := CheckedSucc(s.threads[t].phase.held.ticket));
    D.SkipStopsAtFirstGap(moved);
    TurnMovesOn(s, s', moved, true);
  }

  lemma CancelFacts(s: Router, t: nat)
    requires DispatchInv(s) && Can(s, CancelNext(t))
    ensures var ticket := s.threads[t].guard[0];
      Owns(s, t, ticket) && ticket in s.owner && D.Position(s.turn) <= ticket <= |s.scheduled|
  {
    assert ThreadOk(s, s.threads[t]);
    assert Owned(s.threads[t])[0] == s.threads[t].guard[0];
    assert Owns(s, t, s.threads[t].guard[0]);
  }

  /** Giving up one ticket, seen from the histories. */
  ghost predicate GivesUp(s: Router, s': Router, ticket: U64) {
    && s'.scheduled == s.scheduled && s'.emitted == s.emitted
    && s'.abandoned == s.abandoned + {ticket} && s'.owner == s.owner - {ticket}
    && ticket in s.owner && 1 <= D.Position(s.turn) <= ticket <= |s.scheduled|
    && SomebodyEmits(s') == SomebodyEmits(s)
    && Survivors(s.scheduled[..D.Position(s.turn) - 1], s'.abandoned)
       == Survivors(s.scheduled[..D.Position(s.turn) - 1], s.abandoned)
  }

  lemma GivingUpLater(s: Router, s': Router, ticket: U64)
    requires EmittedInOrder(s) && ticket > D.Position(s.turn)
    requires GivesUp(s, s', ticket)
    requires s'.turn == s.turn.(cancelled := s.turn.cancelled + {ticket})
    ensures EmittedInOrder(s')
  {
  }

  lemma GivingUpCurrent(s: Router, s': Router, ticket: U64)
    requires Numbered(s) && EmittedInOrder(s) && ticket == D.Position(s.turn)
    requires GivesUp(s, s', ticket) && !SomebodyEmits(s)
    requires s'.turn == D.Skip(s.turn.(cancelled := s.turn.cancelled + {ticket}))
    ensures EmittedInOrder(s')
  {
    var moved := s.turn.(cancelled := s.turn.cancelled + {ticket});
    D.SkipStopsAtFirstGap(moved);
    TurnMovesOn(s, s', moved, false);
  }

  lemma CancellingGivesUp(s: Router, t: nat)
    requires DispatchInv(s) && Can(s, CancelNext(t))
    ensures GivesUp(s, Do(s, CancelNext(t)), s.threads[t].guard[0])
  {
    var s' := Do(s, CancelNext(t));
    var ticket := s.threads[t].guard[0];
    CancelFacts(s, t);
    var earlier := s.scheduled[..D.Position(s.turn) - 1];
    assert forall x :: x in earlier ==> x.ticket < ticket;
    SurvivorsIgnore(earlier, s.abandoned, ticket);
    SameEmitter(s, s', t);
  }

  lemma CancellingEmits(s: Router, t: nat)
    requires DispatchInv(s) && EmittedInOrder(s) && Can(s, CancelNext(t))
    ensures EmittedInOrder(Do(s, CancelNext(t)))
  {
    var s' := Do(s, CancelNext(t));
    var ticket := s.threads[t].guard[0];
    CancelFacts(s, t);
    CancellingGivesUp(s, t);
    if ticket == D.Position(s.turn) {
      OnlyOwnerEmits(s, t, ticket);
      GivingUpCurrent(s, s', ticket);
    } else {
      assert s'.turn == s.turn.(cancelled := s.turn.cancelled + {ticket});
      GivingUpLater(s, s', ticket);
    }
  }

  lemma SchedulingKeepsEmissions(maximum: nat, s: Router, step: Step)
    requires Inv(maximum, s) && Can(s, step) && Schedules(step)
    ensures EmittedInOrder(Do(s, step))
  {
    SchedulingKeepsDispatch(maximum, s, step);
    ExtendingKeepsEmissions(s, Do(s, step), step.t);
  }

  lemma NewOwnersAreNew(s: Router, s': Router, t: nat, k: U64)
    requires Extends(s, s', t) && k in s'.owner && k !in s.owner
    ensures k > |s.scheduled|
  {
    var batch := s'.scheduled[|s.scheduled|..];
    assert k in Tickets(batch);
    var i :| 0 <= i < |batch| && Tickets(batch)[i] == k;
    assert batch[i] == s'.scheduled[|s.scheduled| + i];
  }

  lemma ExtendingKeepsEmissions(s: Router, s': Router, t: nat)
    requires EmittedInOrder(s) && Extends(s, s', t)
    ensures EmittedInOrder(s')
  {
    SameEmitter(s, s', t);
    forall k | k in s.abandoned && k !in s.owner
      ensures k !in s'.owner
    {
      if k in s'.owner {
        NewOwnersAreNew(s, s', t, k);
      }
    }
    EmissionsUnchanged(s, s');
  }

  lemma QuietStepKeepsEmissions(s: Router, step: Step)
    requires EmittedInOrder(s) && Can(s, step)
    requires Local(step) || step.TakeId? || step.ParseFails? || step.Return? || step.Acknowledge?
    ensures EmittedInOrder(Do(s, step))
  {
    if step.Acknowledge? {
      SameEmitter(s, Do(s, step), 0);
    } else {
      SameEmitter(s, Do(s, step), step.t);
    }
    EmissionsUnchanged(s, Do(s, step));
  }

  lemma StepKeepsEmissions(maximum: nat, s: Router, step: Step)
    requires Inv(maximum, s) && Can(s, step)
    ensures EmittedInOrder(Do(s, step))
  {
    if Schedules(step) {
      SchedulingKeepsEmissions(maximum, s, step);
    } else if step.TakeTurn? {
      TakingTurnEmits(s, step.t);
    } else if step.CompleteTurn? {
      CompletingEmits(s, step.t);
    } else if step.CancelNext? {
      CancellingEmits(s, step.t);
    } else if step.DropStale? {
      StaleIsUnreachable(s, step.t);
    } else {
      QuietStepKeepsEmissions(s, step);
    }
  }

  lemma StepKeepsInv(maximum: nat, s: Router, step: Step)
    requires Inv(maximum, s) && Can(s, step)
    ensures Inv(maximum, Do(s, step))
  {
    StepKeepsDispatch(maximum, s, step);
    StepFollowsQueue(maximum, s, step);
    StepKeepsIdsFresh(maximum, s, step);
    StepKeepsEmissions(maximum, s, step);
    StepKeepsAcknowledgements(maximum, s, step);
  }
}
