/** The turn dispatcher: only the holder of the current ticket may emit. */
module LaunchDispatch {
  import opened Common

  datatype Turn = Turn(current: Option<U64>, cancelled: set<U64>)

  ghost const FIRST_TURN := Turn(Some(1), {})

  /** The current turn as a number; the exhausted dispatcher is past every ticket. */
  ghost function Position(turn: Turn): (p: int)
    ensures 0 <= p <= U64_MAX + 1
  {
    if turn.current.None? then U64_MAX + 1 else turn.current.value
  }

  ghost function Skip(turn: Turn): Turn
    decreases |turn.cancelled|
  {
    match turn.current
    case None => turn
    case Some(c) => if c !in turn.cancelled then turn else Skip(Turn(CheckedSucc(c), turn.cancelled - {c}))
  }

  ghost function Cancelled(turn: Turn, ticket: U64): Turn {
    if turn.current.Some? && ticket >= turn.current.value
    then Skip(turn.(cancelled := turn.cancelled + {ticket}))
    else turn
  }

  ghost function Completed(turn: Turn, ticket: U64): Turn {
    if turn.current == Some(ticket) then Skip(turn.(current := CheckedSucc(ticket))) else turn
  }

  ghost function AllCancelled(turn: Turn, tickets: seq<U64>): Turn
    decreases |tickets|
  {
    if tickets == [] then turn else AllCancelled(Cancelled(turn, tickets[0]), tickets[1..])
  }

  /** Skipping stops at the first position that is not cancelled, and forgets
      exactly the cancellations it stepped over. */
  ghost predicate SkipsTo(turn: Turn, turn': Turn) {
    var p, p' := Position(turn), Position(turn');
    && p <= p'
    && (forall k: int :: p <= k < p' ==> k in turn.cancelled)
    && p' !in turn.cancelled
    && turn'.cancelled == set k | k in turn.cancelled && !(p <= k < p')
  }

  lemma {:induction false} SkipStopsAtFirstGap(turn: Turn)
    ensures SkipsTo(turn, Skip(turn))
    decreases |turn.cancelled|
  {
    match turn.current {
      case None =>
      case Some(c) =>
        if c in turn.cancelled {
          var next := Turn(CheckedSucc(c), turn.cancelled - {c});
          SkipStopsAtFirstGap(next);
          assert Position(next) == c + 1;
          forall k: int | c <= k < Position(Skip(next))
            ensures k in turn.cancelled
          {
            assert k == c || k in next.cancelled;
          }
        }
    }
  }

  lemma SkipStopsBy(turn: Turn, turn': Turn, gap: int)
    requires SkipsTo(turn, turn') && Position(turn) <= gap && gap !in turn.cancelled
    ensures Position(turn') <= gap
  {
    assert Position(turn') > gap ==> gap in turn.cancelled;
  }

  /** Nothing is remembered about the current turn or earlier ones. */
  ghost predicate Sound(turn: Turn) {
    forall k :: k in turn.cancelled ==> k > Position(turn)
  }

  /** Giving up tickets from `turn` on: the turn stops at the first ticket that
      is neither cancelled before nor given up now; everything it passed was one
      of the two, and exactly the rest of them stays cancelled. */
  ghost predicate GaveUp(turn: Turn, tickets: set<U64>, turn': Turn) {
    var p, p' := Position(turn), Position(turn');
    && p <= p'
    && p' !in turn.cancelled && p' !in tickets
    && (forall k: int :: p <= k < p' ==> k in turn.cancelled || k in tickets)
    && (forall k: U64 :: k in turn'.cancelled <==> k > p' && (k in turn.cancelled || k in tickets))
  }

  lemma CancellingGivesUp(turn: Turn, ticket: U64)
    requires Sound(turn)
    ensures Sound(Cancelled(turn, ticket))
    ensures ticket >= Position(turn) ==> GaveUp(turn, {ticket}, Cancelled(turn, ticket))
    ensures ticket < Position(turn) ==> Cancelled(turn, ticket) == turn
  {
    SkipStopsAtFirstGap(turn.(cancelled := turn.cancelled + {ticket}));
  }

  /** Ending a turn passes its ticket and then only cancelled ones. */
  lemma CompletingPasses(turn: Turn, ticket: U64)
    requires Sound(turn)
    ensures Sound(Completed(turn, ticket)) && Sound(FIRST_TURN)
    ensures var p, p' := Position(turn), Position(Completed(turn, ticket));
      if ticket == p then
        && p < p' && p' !in turn.cancelled && (forall k: int :: p < k < p' ==> k in turn.cancelled)
        && (forall k: U64 :: k in Completed(turn, ticket).cancelled <==> k > p' && k in turn.cancelled)
      else Completed(turn, ticket) == turn
  {
    SkipStopsAtFirstGap(turn.(current := CheckedSucc(ticket)));
  }

  /** The tickets of a guard that have not had their turn. */
  ghost function Outstanding(turn: Turn, tickets: seq<U64>): set<U64> {
    set k | k in tickets && k >= Position(turn)
  }

  lemma GivingUpAdds(turn: Turn, a: set<U64>, middle: Turn, b: set<U64>, turn': Turn)
    requires Sound(turn) && GaveUp(turn, a, middle) && GaveUp(middle, b, turn')
    ensures GaveUp(turn, a + b, turn')
  {
  }

  lemma {:induction false} AllCancelledGivesUp(turn: Turn, tickets: seq<U64>)
    requires Sound(turn)
    ensures Sound(AllCancelled(turn, tickets))
    ensures GaveUp(turn, Outstanding(turn, tickets), AllCancelled(turn, tickets))
    decreases |tickets|
  {
    if tickets != [] {
      var next := Cancelled(turn, tickets[0]);
      CancellingGivesUp(turn, tickets[0]);
      AllCancelledGivesUp(next, tickets[1..]);
      AddingFirst(turn, tickets, next, AllCancelled(next, tickets[1..]));
    }
  }

  lemma AddingFirst(turn: Turn, tickets: seq<U64>, next: Turn, turn': Turn)
    requires tickets != [] && Sound(turn)
    requires if tickets[0] >= Position(turn) then GaveUp(turn, {tickets[0]}, next) else next == turn
    requires GaveUp(next, Outstanding(next, tickets[1..]), turn')
    ensures GaveUp(turn, Outstanding(turn, tickets), turn')
  {
    assert forall k :: k in tickets <==> k == tickets[0] || k in tickets[1..];
  }

  datatype Grant = Taken | Blocked | Stale

  class DeliveryDispatcher {
    var current: Option<U64>
    var cancelled: set<U64>

    ghost function Model(): Turn
      reads this
    {
      Turn(current, cancelled)
    }

    constructor ()
      ensures Model() == FIRST_TURN
    {
      current, cancelled := Some(1), {};
    }

    /** One pass of the waiting loop: `Blocked` goes back to the condition variable. */
    method PollTurn(ticket: U64) returns (grant: Grant)
      ensures grant.Taken? <==> Position(Model()) == ticket
      ensures grant.Blocked? <==> Position(Model()) < ticket
    {
      match current {
        case Some(c) => grant := if c == ticket then Taken else if c < ticket then Blocked else Stale;
        case None => grant := Stale;
      }
    }

    method Cancel(ticket: U64)
      modifies this
      ensures Model() == Cancelled(old(Model()), ticket)
    {
      if current.Some? && ticket >= current.value {
        cancelled := cancelled + {ticket};
        SkipCancelled();
      }
    }

    method Complete(ticket: U64)
      modifies this
      ensures Model() == Completed(old(Model()), ticket)
    {
      if current == Some(ticket) {
        current := CheckedSucc(ticket);
        SkipCancelled();
      }
    }

    method SkipCancelled()
      modifies this
      ensures Model() == Skip(old(Model()))
    {
      while current.Some? && current.value in cancelled
        invariant Skip(Model()) == Skip(old(Model()))
        decreases |cancelled|
      {
        cancelled := cancelled - {current.value};
        current := CheckedSucc(current.value);
      }
    }
  }

  /** Removes one occurrence of the ticket, wherever it stands. */
  ghost function Without(pending: seq<U64>, ticket: U64): seq<U64> {
    if pending == [] then []
    else if pending[0] == ticket then pending[1..]
    else [pending[0]] + Without(pending[1..], ticket)
  }

  lemma {:induction false} WithoutAt(pending: seq<U64>, k: nat)
    requires k < |pending| && pending[k] !in pending[..k]
    ensures Without(pending, pending[k]) == pending[..k] + pending[k + 1..]
  {
    if k > 0 {
      assert pending[0] in pending[..k];
      assert pending[1..][..k - 1] == pending[..k][1..];
      WithoutAt(pending[1..], k - 1);
    }
  }

  lemma {:induction false} WithoutAbsent(pending: seq<U64>, ticket: U64)
    requires ticket !in pending
    ensures Without(pending, ticket) == pending
  {
    if pending != [] {
      WithoutAbsent(pending[1..], ticket);
    }
  }

  class DeliveryBatchGuard {
    const dispatcher: DeliveryDispatcher
    var pending: seq<U64>

    constructor (dispatcher: DeliveryDispatcher, tickets: seq<U64>)
      ensures this.dispatcher == dispatcher && pending == tickets
    {
      this.dispatcher := dispatcher;
      pending := tickets;
    }

    method Release(ticket: U64)
      modifies this
      ensures pending == Without(old(pending), ticket)
    {
      if pending != [] && pending[0] == ticket {
        pending := pending[1..];
        return;
      }
      var k := 0;
      while k < |pending| && pending[k] != ticket
        invariant k <= |pending|
        invariant ticket !in pending[..k]
      {
        k := k + 1;
      }
      if k < |pending| {
        WithoutAt(pending, k);
        pending := pending[..k] + pending[k + 1..];
      } else {
        assert pending[..k] == pending;
        WithoutAbsent(pending, ticket);
      }
    }

    /** Runs when the guard goes out of scope, also while a panic unwinds. */
    method Drop()
      modifies this, dispatcher
      ensures pending == []
      ensures dispatcher.Model() == AllCancelled(old(dispatcher.Model()), old(pending))
      ensures old(Sound(dispatcher.Model())) ==>
                && Sound(dispatcher.Model())
                && GaveUp(old(dispatcher.Model()), old(Outstanding(dispatcher.Model(), pending)), dispatcher.Model())
    {
      ghost var turn, tickets := dispatcher.Model(), pending;
      while pending != []
        invariant AllCancelled(dispatcher.Model(), pending)
               == AllCancelled(old(dispatcher.Model()), old(pending))
        decreases |pending|
      {
        var ticket := pending[0];
        pending := pending[1..];
        dispatcher.Cancel(ticket);
      }
      if Sound(turn) {
        AllCancelledGivesUp(turn, tickets);
      }
    }
  }
}
