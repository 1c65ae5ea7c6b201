/** The bounded queue that holds launch intents until the frontend is ready. */
module LaunchQueue {
  import opened Common

  datatype Source = Initial | SingleInstance | OpenedUrl

  datatype Intent = Intent(id: U64, source: Source, workspace: string, files: seq<string>)

  datatype Queue = Queue(
    ready: bool,
    maximum: nat,
    pending: seq<Intent>,
    seen: set<U64>,
    inFlight: set<U64>,
    consumed: set<U64>)

  ghost function Ids(intents: seq<Intent>): set<U64> {
    set intent | intent in intents :: intent.id
  }

  function Capacity(maximum: nat): nat {
    if maximum < 1 then 1 else maximum
  }

  ghost function NewQueue(maximum: nat): Queue {
    Queue(false, Capacity(maximum), [], {}, {}, {})
  }

  datatype Effect = Effect(queue: Queue, deliveries: seq<Intent>)

  ghost function Enqueued(q: Queue, intent: Intent): Effect {
    if intent.id in q.seen then Effect(q, [])
    else
      var seen := q.seen + {intent.id};
      if q.ready then Effect(q.(seen := seen, inFlight := q.inFlight + {intent.id}), [intent])
      else
        var kept := if |q.pending| == q.maximum && q.pending != [] then q.pending[1..] else q.pending;
        Effect(q.(seen := seen, pending := kept + [intent]), [])
  }

  ghost function MarkedReady(q: Queue): Effect {
    Effect(q.(ready := true, pending := [], inFlight := q.inFlight + Ids(q.pending)), q.pending)
  }

  ghost function Acknowledged(q: Queue, id: U64): Queue {
    if id in q.inFlight then q.(inFlight := q.inFlight - {id}, consumed := q.consumed + {id}) else q
  }

  class LaunchIntentQueue {
    var ready: bool
    const maximum: nat
    var pending: seq<Intent>
    var seen: set<U64>
    var inFlight: set<U64>
    var consumed: set<U64>

    ghost function Model(): Queue
      reads this
    {
      Queue(ready, maximum, pending, seen, inFlight, consumed)
    }

    constructor (maximumLength: nat)
      ensures Model() == NewQueue(maximumLength)
    {
      ready := false;
      maximum := if maximumLength < 1 then 1 else maximumLength;
      pending, seen, inFlight, consumed := [], {}, {}, {};
    }

    method Enqueue(intent: Intent) returns (deliveries: seq<Intent>)
      modifies this
      ensures Effect(Model(), deliveries) == Enqueued(old(Model()), intent)
    {
      if intent.id in seen {
        return [];
      }
      seen := seen + {intent.id};
      if ready {
        inFlight := inFlight + {intent.id};
        return [intent];
      }
      if |pending| == maximum && pending != [] {
        pending := pending[1..];
      }
      pending := pending + [intent];
      return [];
    }

    method MarkReady() returns (deliveries: seq<Intent>)
      modifies this
      ensures Effect(Model(), deliveries) == MarkedReady(old(Model()))
    {
      ready := true;
      deliveries := pending;
      pending := [];
      var i := 0;
      while i < |deliveries|
        invariant i <= |deliveries|
        invariant inFlight == old(inFlight) + Ids(deliveries[..i])
        invariant ready && pending == [] && seen == old(seen) && consumed == old(consumed)
      {
        inFlight := inFlight + {deliveries[i].id};
        assert deliveries[..i + 1] == deliveries[..i] + [deliveries[i]];
        i := i + 1;
      }
      assert deliveries[..i] == deliveries;
    }

    /** True for a first acknowledgement and for retries of a consumed delivery. */
    method Acknowledge(id: U64) returns (accepted: bool)
      modifies this
      ensures Model() == Acknowledged(old(Model()), id)
      ensures accepted == (id in old(inFlight) || id in old(consumed))
    {
      if id in inFlight {
        inFlight := inFlight - {id};
        consumed := consumed + {id};
        return true;
      }
      return id in consumed;
    }
  }

  // Whole runs of the queue.

  datatype Op = Enqueue(intent: Intent) | MarkReady | Acknowledge(id: U64)

  datatype History = History(queue: Queue, delivered: seq<Intent>)

  ghost function Apply(q: Queue, op: Op): Effect {
    match op
    case Enqueue(intent) => Enqueued(q, intent)
    case MarkReady => MarkedReady(q)
    case Acknowledge(id) => Effect(Acknowledged(q, id), [])
  }

  ghost function Run(maximum: nat, ops: seq<Op>): History
    decreases |ops|
  {
    if ops == [] then History(NewQueue(maximum), [])
    else
      var h := Run(maximum, ops[..|ops| - 1]);
      var e := Apply(h.queue, Last(ops));
      History(e.queue, h.delivered + e.deliveries)
  }

  /** The intents whose id was new when they arrived, in arrival order. */
  ghost function Arrivals(ops: seq<Op>): seq<Intent>
    decreases |ops|
  {
    if ops == [] then []
    else
      var earlier := Arrivals(ops[..|ops| - 1]);
      match Last(ops)
      case Enqueue(intent) => if intent.id in Ids(earlier) then earlier else earlier + [intent]
      case _ => earlier
  }

  /** The operations before the first `MarkReady`. */
  ghost function BeforeReady(ops: seq<Op>): seq<Op>
    decreases |ops|
  {
    if MarkReady in ops then BeforeReady(ops[..|ops| - 1]) else ops
  }

  function Latest<T>(s: seq<T>, n: nat): seq<T> {
    if |s| <= n then s else s[|s| - n..]
  }

  ghost predicate DistinctIds(intents: seq<Intent>) {
    forall i, j :: 0 <= i < j < |intents| ==> intents[i].id != intents[j].id
  }

  lemma {:induction false} ArrivalsAreDistinct(ops: seq<Op>)
    ensures DistinctIds(Arrivals(ops))
    decreases |ops|
  {
    if ops != [] {
      ArrivalsAreDistinct(ops[..|ops| - 1]);
    }
  }

  /** The arrivals that came before the frontend was ready. */
  ghost function Early(ops: seq<Op>): seq<Intent> {
    Arrivals(BeforeReady(ops))
  }

  /** What a reader expects of the queue: the last `maximum` early arrivals
      survive the wait, everything later is handed over at once. */
  ghost function Expected(maximum: nat, ops: seq<Op>): seq<Intent>
    requires Early(ops) <= Arrivals(ops)
  {
    Latest(Early(ops), Capacity(maximum)) + Arrivals(ops)[|Early(ops)|..]
  }

  lemma {:induction false} EarlyIsPrefix(ops: seq<Op>)
    ensures Early(ops) <= Arrivals(ops)
    ensures MarkReady !in ops ==> Early(ops) == Arrivals(ops)
    decreases |ops|
  {
    if MarkReady in ops {
      EarlyIsPrefix(ops[..|ops| - 1]);
    }
  }

  lemma LatestAppends<T>(s: seq<T>, x: T, n: nat)
    requires n >= 1
    ensures var kept := if |Latest(s, n)| == n then Latest(s, n)[1..] else Latest(s, n);
      Latest(s + [x], n) == kept + [x]
  {
  }

  lemma IdsOfAppend(a: seq<Intent>, b: seq<Intent>)
    ensures Ids(a + b) == Ids(a) + Ids(b)
  {
    forall intent | intent in a || intent in b
      ensures intent.id in Ids(a + b)
    {
      assert intent in a + b;
    }
  }

  ghost predicate Meets(maximum: nat, ops: seq<Op>, h: History)
    requires Early(ops) <= Arrivals(ops)
  {
    && h.queue.maximum == Capacity(maximum)
    && h.queue.seen == Ids(Arrivals(ops))
    && h.queue.ready == (MarkReady in ops)
    && (if MarkReady in ops
        then h.queue.pending == [] && h.delivered == Expected(maximum, ops)
        else h.queue.pending == Latest(Arrivals(ops), Capacity(maximum)) && h.delivered == [])
    && h.queue.inFlight + h.queue.consumed == Ids(h.delivered)
    && h.queue.inFlight !! h.queue.consumed
  }

  lemma {:induction false} QueueIsBoundedFifo(maximum: nat, ops: seq<Op>)
    ensures Early(ops) <= Arrivals(ops) && Meets(maximum, ops, Run(maximum, ops))
    decreases |ops|
  {
    EarlyIsPrefix(ops);
    if ops != [] {
      var before := ops[..|ops| - 1];
      QueueIsBoundedFifo(maximum, before);
      assert ops == before + [Last(ops)];
      StepMeets(maximum, before, Last(ops), Run(maximum, before));
    }
  }

  lemma StepMeets(maximum: nat, before: seq<Op>, op: Op, h: History)
    requires Early(before) <= Arrivals(before) && Meets(maximum, before, h)
    ensures var ops := before + [op];
      var e := Apply(h.queue, op);
      Early(ops) <= Arrivals(ops) && Meets(maximum, ops, History(e.queue, h.delivered + e.deliveries))
  {
    var ops := before + [op];
    assert ops[..|ops| - 1] == before;
    EarlyIsPrefix(ops);
    EarlyIsPrefix(before);
    match op {
      case Enqueue(intent) =>
        EnqueueMeets(maximum, before, intent, h);
      case MarkReady =>
        IdsOfAppend(h.delivered, h.queue.pending);
        assert Arrivals(ops) == Arrivals(before);
        assert BeforeReady(ops) == BeforeReady(before);
        assert Arrivals(ops)[|Arrivals(ops)|..] == [];
        ArrivalsAreDistinct(before);
      case Acknowledge(id) =>
        assert MarkReady !in [op];
        assert h.delivered + [] == h.delivered;
    }
  }

  lemma ArrivalsGrow(before: seq<Op>, intent: Intent)
    ensures Arrivals(before + [Enqueue(intent)])
         == if intent.id in Ids(Arrivals(before)) then Arrivals(before) else Arrivals(before) + [intent]
    ensures MarkReady in before + [Enqueue(intent)] <==> MarkReady in before
    ensures MarkReady in before ==> Early(before + [Enqueue(intent)]) == Early(before)
  {
    var ops := before + [Enqueue(intent)];
    assert ops[..|ops| - 1] == before;
    assert MarkReady !in [Enqueue(intent)];
    EarlyIsPrefix(ops);
    EarlyIsPrefix(before);
  }

  /** A new arrival while the queue is ready is expected next. */
  lemma ExpectedGrows(maximum: nat, before: seq<Op>, intent: Intent)
    requires MarkReady in before && Early(before) <= Arrivals(before)
    requires intent.id !in Ids(Arrivals(before))
    ensures var ops := before + [Enqueue(intent)];
      Early(ops) <= Arrivals(ops) && Expected(maximum, ops) == Expected(maximum, before) + [intent]
  {
    ArrivalsGrow(before, intent);
    var arrivals, early := Arrivals(before), Early(before);
    assert (arrivals + [intent])[|early|..] == arrivals[|early|..] + [intent];
  }

  lemma EnqueueMeets(maximum: nat, before: seq<Op>, intent: Intent, h: History)
    requires Early(before) <= Arrivals(before) && Meets(maximum, before, h)
    ensures var ops := before + [Enqueue(intent)];
      var e := Enqueued(h.queue, intent);
      Early(ops) <= Arrivals(ops) && Meets(maximum, ops, History(e.queue, h.delivered + e.deliveries))
  {
    var arrivals := Arrivals(before);
    ArrivalsGrow(before, intent);
    EarlyIsPrefix(before + [Enqueue(intent)]);
    if intent.id in Ids(arrivals) {
      assert h.delivered + [] == h.delivered;
    } else {
      IdsOfAppend(arrivals, [intent]);
      assert Ids([intent]) == {intent.id} by {
        assert intent in [intent];
      }
      if MarkReady in before {
        IdsOfAppend(h.delivered, [intent]);
        ExpectedGrows(maximum, before, intent);
        DeliveredWereSeen(maximum, before, h);
      } else {
        LatestAppends(arrivals, intent, Capacity(maximum));
      }
    }
  }

  lemma DeliveredWereSeen(maximum: nat, ops: seq<Op>, h: History)
    requires Early(ops) <= Arrivals(ops) && Meets(maximum, ops, h)
    ensures Ids(h.delivered) <= h.queue.seen
  {
  }

  /** The arrivals that were pushed out of the full buffer. */
  ghost function Evicted(maximum: nat, ops: seq<Op>): seq<Intent> {
    Early(ops)[..|Early(ops)| - |Latest(Early(ops), Capacity(maximum))|]
  }

  ghost predicate Disjoint4<T>(a: set<T>, b: set<T>, c: set<T>, d: set<T>) {
    a !! b && a !! c && a !! d && b !! c && b !! d && c !! d
  }

  /** Pushed-out, waiting and handed-over intents are the arrivals, in order. */
  lemma ArrivalsSplit(maximum: nat, ops: seq<Op>)
    ensures var h := Run(maximum, ops);
      Arrivals(ops) == Evicted(maximum, ops) + (h.queue.pending + h.delivered)
  {
    QueueIsBoundedFifo(maximum, ops);
    EarlyIsPrefix(ops);
    var early := Early(ops);
    var kept := Latest(early, Capacity(maximum));
    assert early == Evicted(maximum, ops) + kept;
    var later := Arrivals(ops)[|early|..];
    assert Arrivals(ops) == early + later;
    Regroup(Evicted(maximum, ops), kept, later);
  }

  lemma Regroup(a: seq<Intent>, b: seq<Intent>, c: seq<Intent>)
    ensures (a + b) + c == a + (b + c)
    ensures [] + (b + c) == b + c && b + [] == b
  {
  }

  lemma DistinctSplits(a: seq<Intent>, b: seq<Intent>)
    requires DistinctIds(a + b)
    ensures Ids(a) !! Ids(b)
    ensures DistinctIds(a) && DistinctIds(b)
  {
    forall i, j | 0 <= i < |a| && 0 <= j < |b|
      ensures a[i].id != b[j].id
    {
      assert (a + b)[i].id != (a + b)[|a| + j].id;
    }
    forall i, j | 0 <= i < j < |b|
      ensures b[i].id != b[j].id
    {
      assert (a + b)[|a| + i].id != (a + b)[|a| + j].id;
    }
    forall i, j | 0 <= i < j < |a|
      ensures a[i].id != a[j].id
    {
      assert (a + b)[i].id != (a + b)[j].id;
    }
  }

  /** Every id ever seen is in exactly one of four places, at all times. */
  lemma IdsAreConserved(maximum: nat, ops: seq<Op>)
    ensures var q := Run(maximum, ops).queue;
      && q.seen == Ids(Evicted(maximum, ops)) + Ids(q.pending) + q.inFlight + q.consumed
      && Disjoint4(Ids(Evicted(maximum, ops)), Ids(q.pending), q.inFlight, q.consumed)
  {
    QueueIsBoundedFifo(maximum, ops);
    ArrivalsAreDistinct(ops);
    ArrivalsSplit(maximum, ops);
    var h := Run(maximum, ops);
    var lost := Evicted(maximum, ops);
    IdsOfAppend(lost, h.queue.pending + h.delivered);
    IdsOfAppend(h.queue.pending, h.delivered);
    DistinctSplits(lost, h.queue.pending + h.delivered);
    DistinctSplits(h.queue.pending, h.delivered);
  }

  /** Over a whole run no id is handed over for delivery twice. */
  lemma DeliveredOnce(maximum: nat, ops: seq<Op>)
    ensures DistinctIds(Run(maximum, ops).delivered)
  {
    ArrivalsAreDistinct(ops);
    ArrivalsSplit(maximum, ops);
    var h := Run(maximum, ops);
    DistinctSplits(Evicted(maximum, ops), h.queue.pending + h.delivered);
    DistinctSplits(h.queue.pending, h.delivered);
  }

  /** What was handed over is in flight or consumed, not both. */
  lemma DeliveredIsUnderway(maximum: nat, ops: seq<Op>)
    ensures var h := Run(maximum, ops);
      Ids(h.delivered) == h.queue.inFlight + h.queue.consumed && h.queue.inFlight !! h.queue.consumed
  {
    QueueIsBoundedFifo(maximum, ops);
  }

  lemma OnlyAcknowledgingConsumes(q: Queue, op: Op, id: U64)
    ensures id in Apply(q, op).queue.consumed <==> id in q.consumed || (op == Acknowledge(id) && id in q.inFlight)
  {
  }

  /** At some point an acknowledgement named an intent handed over before. */
  ghost predicate AcknowledgedIn(maximum: nat, ops: seq<Op>, id: U64) {
    exists i :: 0 <= i < |ops| && ops[i] == Acknowledge(id) && id in Ids(Run(maximum, ops[..i]).delivered)
  }

  lemma AcknowledgedInMore(maximum: nat, before: seq<Op>, op: Op, id: U64)
    ensures AcknowledgedIn(maximum, before + [op], id)
       <==> || AcknowledgedIn(maximum, before, id)
            || (op == Acknowledge(id) && id in Ids(Run(maximum, before).delivered))
  {
    var ops := before + [op];
    assert ops[..|before|] == before;
    assert forall i :: 0 <= i < |before| ==> ops[i] == before[i] && ops[..i] == before[..i];
    if AcknowledgedIn(maximum, before, id) {
      var i :| 0 <= i < |before| && before[i] == Acknowledge(id) && id in Ids(Run(maximum, before[..i]).delivered);
      assert ops[i] == Acknowledge(id) && ops[..i] == before[..i];
    }
    if op == Acknowledge(id) && id in Ids(Run(maximum, before).delivered) {
      assert ops[|before|] == op;
    }
  }

  /** An id is consumed exactly when it was acknowledged after it was handed
      over; an acknowledgement that comes too early is lost. */
  lemma {:induction false} ConsumedExactly(maximum: nat, ops: seq<Op>, id: U64)
    ensures id in Run(maximum, ops).queue.consumed <==> AcknowledgedIn(maximum, ops, id)
    decreases |ops|
  {
    if ops != [] {
      var before, op := ops[..|ops| - 1], Last(ops);
      assert ops == before + [op];
      ConsumedExactly(maximum, before, id);
      AcknowledgedInMore(maximum, before, op, id);
      DeliveredIsUnderway(maximum, before);
      OnlyAcknowledgingConsumes(Run(maximum, before).queue, op, id);
    }
  }
}
