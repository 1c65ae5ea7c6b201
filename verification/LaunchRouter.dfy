/** The launch intent router as a transition system: any number of calls run at
    once, every section under a lock is one step, and the `focus` and `emit`
    callbacks may panic wherever they run. */
module LaunchRouter {
  import opened Common
  import Ids = LaunchIds
  import Q = LaunchQueue
  import D = LaunchDispatch

  // Scheduling under the router lock.

  datatype Scheduled = Scheduled(ticket: U64, intent: Q.Intent)

  datatype Plan = Plan(queue: Q.Queue, next: Option<U64>, batch: seq<Scheduled>)

  ghost function Scheduling(queue: Q.Queue, next: Option<U64>, intents: seq<Q.Intent>): Plan
    decreases |intents|
  {
    if intents == [] then Plan(queue, next, [])
    else
      match next
      case None => Scheduling(Q.Acknowledged(queue, intents[0].id), None, intents[1..])
      case Some(ticket) =>
        var rest := Scheduling(queue, CheckedSucc(ticket), intents[1..]);
        rest.(batch := [Scheduled(ticket, intents[0])] + rest.batch)
  }

  class LaunchIntentRouterState {
    const queue: Q.LaunchIntentQueue
    var nextDispatchTicket: Option<U64>

    constructor (queue: Q.LaunchIntentQueue)
      ensures this.queue == queue && nextDispatchTicket == Some(1)
    {
      this.queue := queue;
      nextDispatchTicket := Some(1);
    }

    method Schedule(intents: seq<Q.Intent>) returns (batch: seq<Scheduled>)
      modifies this, queue
      ensures Plan(queue.Model(), nextDispatchTicket, batch)
           == Scheduling(old(queue.Model()), old(nextDispatchTicket), intents)
    {
      batch := [];
      for i := 0 to |intents|
        invariant var rest := Scheduling(queue.Model(), nextDispatchTicket, intents[i..]);
          Scheduling(old(queue.Model()), old(nextDispatchTicket), intents) == rest.(batch := batch + rest.batch)
      {
        assert intents[i..][1..] == intents[i + 1..];
        match nextDispatchTicket {
          case None =>
            var _ := queue.Acknowledge(intents[i].id);
          case Some(ticket) =>
            nextDispatchTicket := CheckedSucc(ticket);
            batch := batch + [Scheduled(ticket, intents[i])];
        }
      }
    }
  }

  /** The next ticket after `n` have been handed out. */
  ghost function TicketAfter(n: nat): Option<U64> {
    if n < U64_MAX then Some(n + 1) else None
  }

  lemma {:induction false} SchedulingKeepsEverything(queue: Q.Queue, n: nat, intents: seq<Q.Intent>)
    requires n + |intents| <= U64_MAX
    ensures var r := Scheduling(queue, TicketAfter(n), intents);
      && r.queue == queue
      && r.next == TicketAfter(n + |intents|)
      && |r.batch| == |intents|
      && (forall i :: 0 <= i < |intents| ==> r.batch[i] == Scheduled(n + 1 + i, intents[i]))
    decreases |intents|
  {
    if intents != [] {
      SchedulingKeepsEverything(queue, n + 1, intents[1..]);
    }
  }

  // The transition system.

  datatype Phase =
    | Before                                     // `before_delivery` runs
    | Waiting                                    // between two emissions
    | Emitting(held: Scheduled)                  // holds the turn, `emit` runs
    | Settled(held: Scheduled, panicked: bool)   // `emit` is over, the turn is still held
    | Unwinding                                  // a panic drops the batch guard

  datatype Thread =
    | Routing(id: U64)
    | Delivering(rest: seq<Scheduled>, guard: seq<U64>, phase: Phase)

  /** The shared state, followed by histories that no step reads: the queue
      operations, everything scheduled, every emission begun, the tickets a
      panic gave up, who owns which outstanding ticket, the ids whose emission
      returned without error, and the ids the frontend acknowledged. */
  datatype Router = Router(
    nextId: U64,
    queue: Q.Queue,
    nextTicket: Option<U64>,
    turn: D.Turn,
    threads: map<nat, Thread>,
    ops: seq<Q.Op>,
    scheduled: seq<Scheduled>,
    emitted: seq<Scheduled>,
    abandoned: set<U64>,
    owner: map<U64, nat>,
    succeeded: set<U64>,
    confirmed: set<U64>)

  ghost function Tickets(batch: seq<Scheduled>): (tickets: seq<U64>)
    ensures |tickets| == |batch|
    ensures forall i :: 0 <= i < |batch| ==> tickets[i] == batch[i].ticket
  {
    seq(|batch|, i requires 0 <= i < |batch| => batch[i].ticket)
  }

  ghost function Intents(batch: seq<Scheduled>): (intents: seq<Q.Intent>)
    ensures |intents| == |batch|
    ensures forall i :: 0 <= i < |batch| ==> intents[i] == batch[i].intent
  {
    seq(|batch|, i requires 0 <= i < |batch| => batch[i].intent)
  }

  ghost predicate Holds(thread: Thread) {
    thread.Delivering? && (thread.phase.Emitting? || thread.phase.Settled?)
  }

  /** The tickets a call still has to bring to an end, in the order it will. */
  ghost function Owned(thread: Thread): seq<U64> {
    if thread.Routing? then []
    else if Holds(thread) then [thread.phase.held.ticket] + thread.guard
    else thread.guard
  }

  ghost function Start(maximum: nat, initial: Option<Q.Intent>): Router {
    var ops := if initial.Some? then [Q.Op.Enqueue(initial.value)] else [];
    var nextId := if initial.None? then 1 else if initial.value.id == U64_MAX then 0 else initial.value.id + 1;
    Router(nextId, Q.Run(maximum, ops).queue, Some(1), D.FIRST_TURN, map[],
           ops, [], [], {}, map[], {}, {})
  }

  datatype Step =
    | TakeId(t: nat)
    | ParseFails(t: nat)
    | Arrive(t: nat, intent: Q.Intent)
    | FrontendReady(t: nat)
    | FinishBefore(t: nat)
    | BeforePanics(t: nat)
    | TakeTurn(t: nat)
    | DropStale(t: nat)
    | EmitReturns(t: nat, ok: bool)
    | EmitPanics(t: nat)
    | CompleteTurn(t: nat)
    | CancelNext(t: nat)
    | Return(t: nat)
    | Acknowledge(id: U64)

  /** The call `t` is in the given phase. */
  ghost predicate In(s: Router, t: nat, phase: Phase) {
    t in s.threads && s.threads[t].Delivering? && s.threads[t].phase == phase
  }

  ghost predicate Can(s: Router, step: Step) {
    match step
    case TakeId(t) => t !in s.threads
    case ParseFails(t) => t in s.threads && s.threads[t].Routing?
    case Arrive(t, intent) => t in s.threads && s.threads[t] == Routing(intent.id)
    case FrontendReady(t) => t !in s.threads
    case FinishBefore(t) => In(s, t, Before)
    case BeforePanics(t) => In(s, t, Before)
    case TakeTurn(t) =>
      && In(s, t, Waiting) && s.threads[t].rest != []
      && D.Position(s.turn) == s.threads[t].rest[0].ticket
    case DropStale(t) =>
      && In(s, t, Waiting) && s.threads[t].rest != []
      && D.Position(s.turn) > s.threads[t].rest[0].ticket
    case EmitReturns(t, _) => t in s.threads && s.threads[t].Delivering? && s.threads[t].phase.Emitting?
    case EmitPanics(t) => t in s.threads && s.threads[t].Delivering? && s.threads[t].phase.Emitting?
    case CompleteTurn(t) => t in s.threads && s.threads[t].Delivering? && s.threads[t].phase.Settled?
    case CancelNext(t) => In(s, t, Unwinding) && s.threads[t].guard != []
    case Return(t) =>
      || (In(s, t, Waiting) && s.threads[t].rest == [])
      || (In(s, t, Unwinding) && s.threads[t].guard == [])
    case Acknowledge(_) => true
  }

  ghost function Put(s: Router, t: nat, thread: Thread): Router {
    s.(threads := s.threads[t := thread])
  }

  ghost function Acknowledging(s: Router, id: U64): Router {
    s.(queue := Q.Acknowledged(s.queue, id), ops := s.ops + [Q.Op.Acknowledge(id)])
  }

  /** A queue operation and the scheduling of its deliveries, in one lock section. */
  ghost function Dispatching(s: Router, t: nat, op: Q.Op): Router {
    var effect := Q.Apply(s.queue, op);
    var plan := Scheduling(effect.queue, s.nextTicket, effect.deliveries);
    var batch := plan.batch;
    s.(queue := plan.queue,
       nextTicket := plan.next,
       ops := s.ops + [op],
       scheduled := s.scheduled + batch,
       owner := s.owner + (map k | k in Tickets(batch) :: t),
       threads := s.threads[t := Delivering(batch, Tickets(batch), Before)])
  }

  ghost function Do(s: Router, step: Step): Router
    requires Can(s, step)
  {
    match step
    case TakeId(t) =>
      if s.nextId == 0 then Put(s, t, Delivering([], [], Before))
      else Put(s, t, Routing(s.nextId)).(nextId := Ids.Following(s.nextId))
    case ParseFails(t) => Put(s, t, Delivering([], [], Before))
    case Arrive(t, intent) => Dispatching(s, t, Q.Op.Enqueue(intent))
    case FrontendReady(t) => Dispatching(s, t, Q.Op.MarkReady)
    case FinishBefore(t) => Put(s, t, s.threads[t].(phase := Waiting))
    case BeforePanics(t) => Put(s, t, s.threads[t].(phase := Unwinding))
    case TakeTurn(t) =>
      var thread := s.threads[t];
      var front := thread.rest[0];
      Put(s, t, Delivering(thread.rest[1..], D.Without(thread.guard, front.ticket), Emitting(front)))
        .(emitted := s.emitted + [front])
    case DropStale(t) =>
      var thread := s.threads[t];
      var front := thread.rest[0];
      Acknowledging(
        Put(s, t, Delivering(thread.rest[1..], D.Without(thread.guard, front.ticket), Waiting)),
        front.intent.id)
    case EmitReturns(t, ok) =>
      var thread := s.threads[t];
      var held := thread.phase.held;
      var settled := Put(s, t, thread.(phase := Settled(held, false)));
      if ok
      then Acknowledging(settled, held.intent.id).(succeeded := s.succeeded + {held.intent.id})
      else settled
    case EmitPanics(t) =>
      var thread := s.threads[t];
      Put(s, t, thread.(phase := Settled(thread.phase.held, true)))
    case CompleteTurn(t) =>
      var thread := s.threads[t];
      var held := thread.phase.held;
      Put(s, t, thread.(phase := if thread.phase.panicked then Unwinding else Waiting))
        .(turn := D.Completed(s.turn, held.ticket), owner := s.owner - {held.ticket})
    case CancelNext(t) =>
      var thread := s.threads[t];
      var ticket := thread.guard[0];
      Put(s, t, thread.(guard := thread.guard[1..]))
        .(turn := D.Cancelled(s.turn, ticket),
          owner := s.owner - {ticket},
          abandoned := s.abandoned + {ticket})
    case Return(t) => s.(threads := s.threads - {t})
    case Acknowledge(id) => Acknowledging(s, id).(confirmed := s.confirmed + {id})
  }
}
