/** The lock-free source of launch intent ids: a compare-and-swap loop whose
    counter parks at zero once `u64::MAX` has been handed out. */
module LaunchIds {
  import opened Common

  /** The value the counter holds after handing out `n`; zero is terminal. */
  function Following(n: U64): U64 {
    if n == 0 || n == U64_MAX then 0 else n + 1
  }

  /** The counter after `k` more successful calls. */
  function Advance(n: U64, k: nat): U64
    decreases k
  {
    if k == 0 then n else Advance(Following(n), k - 1)
  }

  lemma {:induction false} AdvanceNeverWraps(n: U64, k: nat)
    ensures Advance(n, k) == if n != 0 && n + k <= U64_MAX then n + k else if k == 0 then n else 0
    decreases k
  {
    if k > 0 {
      AdvanceNeverWraps(Following(n), k - 1);
    }
  }

  lemma {:induction false} AdvanceOnce(n: U64, k: nat)
    ensures Following(Advance(n, k)) == Advance(n, k + 1)
    decreases k
  {
    if k > 0 {
      AdvanceOnce(Following(n), k - 1);
    }
  }

  lemma {:induction false} AdvanceAdds(n: U64, j: nat, k: nat)
    ensures Advance(Advance(n, j), k) == Advance(n, j + k)
    decreases j
  {
    if j > 0 {
      AdvanceAdds(Following(n), j - 1, k);
    }
  }

  /** What happens between one read of the counter and the exchange after it:
      how many calls of other threads succeed, and whether the weak exchange
      fails for no reason. */
  datatype Attempt = Attempt(others: nat, spurious: bool)

  datatype Outcome = Issued(id: U64) | Exhausted | StillContended

  /** Nothing stands in the way of the exchange. */
  predicate Undisturbed(attempt: Attempt) {
    attempt.others == 0 && !attempt.spurious
  }

  function OthersIn(attempts: seq<Attempt>): nat {
    if attempts == [] then 0 else OthersIn(attempts[..|attempts| - 1]) + Last(attempts).others
  }

  class LaunchIntentIdSource {
    var next: U64

    constructor (first: U64)
      requires first != 0
      ensures next == first
    {
      next := first;
    }

    /** One call of `next`, cut off after the given attempts. `others` counts the
        ids other threads obtained while the call was running. The first
        undisturbed attempt is the one that succeeds. */
    method Next(attempts: seq<Attempt>) returns (outcome: Outcome, ghost others: nat)
      modifies this
      ensures outcome.Issued? ==>
                && outcome.id != 0
                && outcome.id == Advance(old(next), others)
                && next == Advance(old(next), others + 1)
      ensures !outcome.Issued? ==> next == Advance(old(next), others)
      ensures outcome.Exhausted? ==> next == 0
      ensures old(next) == 0 && attempts != [] ==> outcome.Exhausted?
      ensures old(next) != 0 && attempts != [] && Undisturbed(attempts[0]) ==>
                outcome == Issued(old(next)) && next == (if old(next) == U64_MAX then 0 else old(next) + 1)
      ensures outcome.Issued? ==>
                exists n: nat :: n < |attempts| && Undisturbed(attempts[n]) && others == OthersIn(attempts[..n])
                              && forall i :: 0 <= i < n ==> !Undisturbed(attempts[i])
      ensures outcome.StillContended? ==>
                others == OthersIn(attempts) && forall i :: 0 <= i < |attempts| ==> !Undisturbed(attempts[i])
    {
      others := 0;
      var current := next;
      for i := 0 to |attempts|
        invariant next == current == Advance(old(next), others)
        invariant i == 0 ==> others == 0
        invariant i > 0 ==> old(next) != 0
        invariant others == OthersIn(attempts[..i])
        invariant forall j :: 0 <= j < i ==> !Undisturbed(attempts[j])
      {
        if current == 0 {
          return Exhausted, others;
        }
        next := Advance(next, attempts[i].others);
        AdvanceAdds(old(next), others, attempts[i].others);
        AdvanceNeverWraps(current, attempts[i].others);
        assert attempts[..i + 1][..i] == attempts[..i];
        others := others + attempts[i].others;
        if !attempts[i].spurious && next == current {
          next := Following(current);
          AdvanceOnce(old(next), others);
          return Issued(current), others;
        }
        current := next;
      }
      assert attempts[..|attempts|] == attempts;
      return StillContended, others;
    }
  }

  // Any number of threads run the loop at once.

  /** `loaded` maps each running call to the value it last read. `issued` is the
      history of successful exchanges. */
  datatype Source = Source(next: U64, loaded: map<nat, U64>, issued: seq<U64>)

  datatype Step = Load(t: nat) | Exchange(t: nat) | ExchangeFails(t: nat) | GiveUp(t: nat)

  predicate Can(s: Source, step: Step) {
    match step
    case Load(t) => t !in s.loaded
    case Exchange(t) => t in s.loaded && s.loaded[t] != 0 && s.loaded[t] == s.next
    case ExchangeFails(t) => t in s.loaded && s.loaded[t] != 0
    case GiveUp(t) => t in s.loaded && s.loaded[t] == 0
  }

  function Do(s: Source, step: Step): Source
    requires Can(s, step)
  {
    match step
    case Load(t) => s.(loaded := s.loaded[t := s.next])
    case Exchange(t) =>
      s.(next := Following(s.next), loaded := s.loaded - {t}, issued := s.issued + [s.loaded[t]])
    case ExchangeFails(t) => s.(loaded := s.loaded[t := s.next])
    case GiveUp(t) => s.(loaded := s.loaded - {t})
  }

  predicate IsRun(first: U64, steps: seq<Step>)
    decreases |steps|, 0
  {
    steps == [] || (IsRun(first, steps[..|steps| - 1]) && Can(After(first, steps[..|steps| - 1]), Last(steps)))
  }

  function After(first: U64, steps: seq<Step>): Source
    requires IsRun(first, steps)
    decreases |steps|, 1
  {
    if steps == [] then Source(first, map[], []) else Do(After(first, steps[..|steps| - 1]), Last(steps))
  }

  /** In every interleaving the ids handed out are `first`, `first + 1`, ... in
      the order of the exchanges, so they are distinct, nonzero and never wrap;
      a call gives up only once all of them are gone. */
  lemma {:induction false} IdsAreConsecutive(first: U64, steps: seq<Step>)
    requires first != 0 && IsRun(first, steps)
    ensures var s := After(first, steps);
      && s.next == Advance(first, |s.issued|)
      && first + |s.issued| <= U64_MAX + 1
      && (forall i :: 0 <= i < |s.issued| ==> s.issued[i] == first + i)
      && (forall t :: t in s.loaded && s.loaded[t] == 0 ==> first + |s.issued| == U64_MAX + 1)
    decreases |steps|
  {
    if steps != [] {
      var before := steps[..|steps| - 1];
      IdsAreConsecutive(first, before);
      var s := After(first, before);
      AdvanceNeverWraps(first, |s.issued|);
      AdvanceOnce(first, |s.issued|);
    }
  }
}
