/** Publishing a directory tree by two renames, with a rollback, on a disk
    whose every call may fail. */
module PublishDirectory {
  import opened Common

  /** What can be found at a path. `Earlier` was there before, `Populated` is
      the complete new tree. */
  datatype Node = Earlier(regular: bool) | PartlyRemoved | PartlyPopulated | Populated

  datatype Place = Target | Temporary | Backup

  datatype Layout = Layout(target: Option<Node>, temporary: Option<Node>, backup: Option<Node>)

  predicate Exists(disk: Layout, place: Place) {
    At(disk, place).Some?
  }

  function At(disk: Layout, place: Place): Option<Node> {
    match place
    case Target => disk.target
    case Temporary => disk.temporary
    case Backup => disk.backup
  }

  function Put(disk: Layout, place: Place, node: Option<Node>): Layout {
    match place
    case Target => disk.(target := node)
    case Temporary => disk.(temporary := node)
    case Backup => disk.(backup := node)
  }

  datatype Operation = Rename(source: Place, destination: Place) | Remove(place: Place)

  /** The disk after the operation has succeeded. */
  function Done(disk: Layout, operation: Operation): Layout {
    match operation
    case Rename(source, destination) => Put(Put(disk, source, None), destination, At(disk, source))
    case Remove(place) => Put(disk, place, None)
  }

  /** A rename does nothing or everything; a removal may stop half-way. */
  predicate Attempted(before: Layout, operation: Operation, ok: bool, after: Layout) {
    if ok then
      && after == Done(before, operation)
      && match operation
         case Rename(source, destination) => Exists(before, source) && !Exists(before, destination)
         case Remove(place) => Exists(before, place)
    else
      after == before || (operation.Remove? && Exists(before, operation.place)
                          && after == Put(before, operation.place, Some(PartlyRemoved)))
  }

  datatype Code = EACCES | EBUSY | ENOTEMPTY | EPERM | OtherCode

  predicate Retryable(code: Code) {
    !code.OtherCode?
  }

  /** The attempt failed with one of the errors that pass by themselves. */
  predicate Passing(result: Option<Code>) {
    result == Some(EACCES) || result == Some(EBUSY) || result == Some(ENOTEMPTY) || result == Some(EPERM)
  }

  datatype Cause =
    | TemporaryNotCreated
    | PopulateThrew
    | TargetNotRegular
    | OperationFailed(operation: Operation, code: Code)
    | HandlerThrew

  datatype Outcome = Returned | Threw(cause: Cause)

  const MAX_ATTEMPTS := 12

  /** What the disk may look like while an operation is being attempted. */
  predicate During(before: Layout, operation: Operation, disk: Layout) {
    || disk == before
    || disk == Done(before, operation)
    || (operation.Remove? && disk == Put(before, operation.place, Some(PartlyRemoved)))
  }

  /** The three paths, every layout they have gone through, and the number of
      calls that have failed so far. */
  class Disk {
    var layout: Layout
    ghost var history: seq<Layout>
    ghost var failures: nat

    constructor (layout: Layout)
      ensures this.layout == layout && history == [layout] && failures == 0
    {
      this.layout, history, failures := layout, [layout], 0;
    }

    /** One call, with whatever result the operating system chooses. */
    method Attempt(operation: Operation) returns (error: Option<Code>)
      modifies this
      ensures Attempted(old(layout), operation, error.None?, layout)
      ensures failures == old(failures) + if error.None? then 0 else 1
      ensures old(history) < history && Last(history) == layout
      ensures forall k :: |old(history)| <= k < |history| ==> During(old(layout), operation, history[k])
    {
      var possible :=
        match operation
        case Rename(source, destination) => Exists(layout, source) && !Exists(layout, destination)
        case Remove(place) => Exists(layout, place);
      var lucky: bool := *;
      if operation.Remove? && possible {
        var halfway: bool := *;
        if halfway {
          layout := Put(layout, operation.place, Some(PartlyRemoved));
          history := history + [layout];
        }
      }
      if possible && lucky {
        layout := Done(layout, operation);
        error := None;
      } else {
        var code: Code := *;
        error := Some(code);
        failures := failures + 1;
      }
      history := history + [layout];
    }

    /** `retryFilesystemOperation`: only Windows is patient, and only with the
        errors that pass by themselves. `results` lists the attempts. */
    method Retry(operation: Operation, windows: bool) returns (error: Option<Code>, ghost results: seq<Option<Code>>)
      modifies this
      ensures Attempted(old(layout), operation, error.None?, layout)
      ensures old(history) < history && Last(history) == layout
      ensures forall k :: |old(history)| <= k < |history| ==> During(old(layout), operation, history[k])
      ensures 1 <= |results| <= 12 && Last(results) == error
      ensures failures == old(failures) + |results| - (if error.None? then 1 else 0)
      ensures |results| > 1 ==> windows
      ensures forall i :: 0 <= i < |results| - 1 ==> Passing(results[i])
      ensures windows && Passing(error) ==> |results| == 12
    {
      results := [];
      var attempt := 0;
      while attempt < MAX_ATTEMPTS
        invariant 0 <= attempt < MAX_ATTEMPTS && |results| == attempt
        invariant failures == old(failures) + attempt
        invariant attempt > 0 ==> windows
        invariant forall i :: 0 <= i < attempt ==> Passing(results[i])
        invariant layout == old(layout) || Attempted(old(layout), operation, false, layout)
        invariant old(history) <= history && (attempt > 0 ==> old(history) < history)
        invariant forall k :: |old(history)| <= k < |history| ==> During(old(layout), operation, history[k])
      {
        error := Attempt(operation);
        results := results + [error];
        attempt := attempt + 1;
        if error.None? || !windows || !Retryable(error.value) || attempt == MAX_ATTEMPTS {
          return error, results;
        }
      }
      assert false;
    }
  }

  // Publishing.

  /** The old tree is at the target or the backup, unless the complete new tree
      is at the target; and the target never shows anything else. */
  predicate Safe(disk: Layout, original: Option<Node>) {
    && disk.target in {None, original, Some(Populated)}
    && (original == None || disk.target == original || disk.backup == original || disk.target == Some(Populated))
  }

  ghost predicate SafeSince(history: seq<Layout>, start: nat, original: Option<Node>) {
    forall k :: start <= k < |history| ==> Safe(history[k], original)
  }

  /** Where a failed attempt can leave the paths before they are tidied up. */
  predicate Interrupted(disk: Layout, original: Option<Node>, targetMoved: bool, cause: Cause) {
    && Safe(disk, original)
    && (!targetMoved ==> disk.target == original && !cause.HandlerThrew?)
    && (targetMoved ==>
          && original.Some?
          && if cause.HandlerThrew? then disk.target == Some(Populated) && disk.temporary.None?
             else disk.target.None? && disk.backup == original)
  }

  predicate Original(node: Option<Node>) {
    node.Some? ==> node.value.Earlier?
  }

  /** The guarded part of `publishDirectoryAtomic`. */
  method Install(disk: Disk, windows: bool) returns (outcome: Outcome, targetMoved: bool)
    requires disk.layout.temporary == Some(PartlyPopulated) && Original(disk.layout.target)
    modifies disk
    ensures old(disk.history) < disk.history && Last(disk.history) == disk.layout
    ensures SafeSince(disk.history, |old(disk.history)|, old(disk.layout.target))
    ensures outcome.Returned? ==>
      && disk.layout.target == Some(Populated) && disk.layout.temporary.None?
      && disk.layout.backup in {old(disk.layout.backup), old(disk.layout.target), Some(PartlyRemoved)}
    ensures outcome.Threw? ==> Interrupted(disk.layout, old(disk.layout.target), targetMoved, outcome.cause)
    ensures outcome.Threw? && targetMoved && !outcome.cause.HandlerThrew? ==>
      disk.failures >= old(disk.failures) + 2
    ensures old(disk.failures) <= disk.failures
    ensures disk.failures == old(disk.failures) ==>
      if old(disk.layout.target) in {None, Some(Earlier(true))}
      then outcome.Returned? && disk.layout.backup == old(disk.layout.backup)
      else outcome == Threw(TargetNotRegular)
  {
    ghost var original := disk.layout.target;
    targetMoved := false;
    var populated := Populate(disk);
    if !populated {
      return Threw(PopulateThrew), false;
    }
    var error: Option<Code>;
    ghost var results: seq<Option<Code>>;
    if disk.layout.target.Some? {
      if disk.layout.target != Some(Earlier(true)) {
        return Threw(TargetNotRegular), false;
      }
      error, results := disk.Retry(Rename(Target, Backup), windows);
      if error.Some? {
        return Threw(OperationFailed(Rename(Target, Backup), error.value)), false;
      }
      targetMoved := true;
    }
    error, results := disk.Retry(Rename(Temporary, Target), windows);
    if error.Some? {
      var installError := Threw(OperationFailed(Rename(Temporary, Target), error.value));
      if targetMoved {
        error, results := disk.Retry(Rename(Backup, Target), windows);
        if error.Some? {
          return Threw(OperationFailed(Rename(Backup, Target), error.value)), true;
        }
        targetMoved := false;
      }
      return installError, targetMoved;
    }
    if targetMoved {
      error, results := disk.Retry(Remove(Backup), windows);
      if error.Some? {
        var handlerThrows: bool := *;
        if handlerThrows {
          return Threw(HandlerThrew), true;
        }
      }
      targetMoved := false;
    }
    return Returned, targetMoved;
  }

  method Populate(disk: Disk) returns (ok: bool)
    requires disk.layout.temporary == Some(PartlyPopulated)
    modifies disk
    ensures disk.layout == old(disk.layout).(temporary := Some(if ok then Populated else PartlyPopulated))
    ensures disk.history == old(disk.history) + [disk.layout]
    ensures disk.failures == old(disk.failures) + if ok then 0 else 1
  {
    ok := *;
    if ok {
      disk.layout := disk.layout.(temporary := Some(Populated));
    } else {
      disk.failures := disk.failures + 1;
    }
    disk.history := disk.history + [disk.layout];
  }

  /** The `catch` part: remove what is left of the new tree and put the old one
      back; an error on the way replaces the first one. */
  method TidyUp(disk: Disk, windows: bool, targetMoved: bool, first: Cause, ghost original: Option<Node>)
    returns (cause: Cause)
    requires Original(original) && Interrupted(disk.layout, original, targetMoved, first)
    modifies disk
    ensures old(disk.history) <= disk.history
    ensures old(disk.history) < disk.history ==> Last(disk.history) == disk.layout
    ensures old(disk.history) == disk.history ==> disk.layout == old(disk.layout)
    ensures SafeSince(disk.history, |old(disk.history)|, original)
    ensures first.HandlerThrew? ==> cause == first && disk.layout == old(disk.layout)
    ensures !first.HandlerThrew? ==>
      && !cause.HandlerThrew?
      && (disk.layout.target == original || (disk.layout.target.None? && disk.layout.backup == original))
      && (disk.layout.target != original ==> targetMoved && disk.failures > old(disk.failures))
    ensures disk.failures >= old(disk.failures)
    ensures disk.failures == old(disk.failures) ==> cause == first && disk.layout.temporary.None?
  {
    cause := first;
    var error: Option<Code>;
    ghost var results: seq<Option<Code>>;
    if Exists(disk.layout, Temporary) {
      error, results := disk.Retry(Remove(Temporary), windows);
      if error.Some? {
        return OperationFailed(Remove(Temporary), error.value);
      }
    }
    if targetMoved && !Exists(disk.layout, Target) && Exists(disk.layout, Backup) {
      error, results := disk.Retry(Rename(Backup, Target), windows);
      if error.Some? {
        return OperationFailed(Rename(Backup, Target), error.value);
      }
    }
  }

  /** Whatever fails, the old tree is never lost and the target never shows a
      partial tree. Returning means that the target is the new tree; throwing
      leaves the old one at the target or, after three failures at least, at
      the backup, except that a throwing clean-up handler leaves the new one. */
  method PublishDirectoryAtomic(disk: Disk, windows: bool) returns (outcome: Outcome)
    requires Original(disk.layout.target)
    modifies disk
    ensures SafeSince(disk.history, |old(disk.history)|, old(disk.layout.target))
    ensures Safe(disk.layout, old(disk.layout.target))
    ensures outcome.Returned? ==> disk.layout.target == Some(Populated) && disk.layout.temporary.None?
    ensures outcome.Threw? ==>
      var layout, original := disk.layout, old(disk.layout.target);
      if outcome.cause.HandlerThrew? then layout.target == Some(Populated)
      else
        && (layout.target == original || (layout.target.None? && layout.backup == original))
        && (layout.target != original ==> disk.failures >= old(disk.failures) + 3)
    ensures disk.failures == old(disk.failures) ==>
      if old(disk.layout.target) in {None, Some(Earlier(true))}
      then outcome.Returned? && disk.layout.backup == old(disk.layout.backup)
      else outcome == Threw(TargetNotRegular)
  {
    ghost var original := disk.layout.target;
    var created: bool := *;
    if Exists(disk.layout, Temporary) || !created {
      disk.failures := disk.failures + 1;
      return Threw(TemporaryNotCreated);
    }
    disk.layout := disk.layout.(temporary := Some(PartlyPopulated));
    disk.history := disk.history + [disk.layout];
    var targetMoved: bool;
    outcome, targetMoved := Install(disk, windows);
    if outcome.Threw? {
      var cause := TidyUp(disk, windows, targetMoved, outcome.cause, original);
      outcome := Threw(cause);
    }
  }
}
