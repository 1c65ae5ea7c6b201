/** Who owns the backend process: one launch reservation, one running root or
    one root that is being stopped. */
module BackendOwnership {
  import opened Common

  type Pid = n: int | 0 <= n < 0x1_0000_0000

  /** A claimed process tree. `owner` stands for the identity of the shared
      platform handle; the root pid may be reused by the operating system. */
  datatype Tree = Tree(root: Pid, owner: nat)

  predicate SameOwner(a: Tree, b: Tree) {
    a.owner == b.owner
  }

  datatype Ownership = Ownership(
    generation: U64,
    pendingStart: Option<U64>,
    pid: Option<Pid>,
    stoppingPid: Option<Pid>,
    tree: Option<Tree>,
    rootExited: bool,
    stopping: bool)

  const NOTHING_OWNED := Ownership(0, None, None, None, None, false, false)

  const GENERATIONS: int := U64_MAX + 1

  ghost function Reserved(s: Ownership): Ownership {
    var token := (s.generation + 1) % GENERATIONS;
    Ownership(token, Some(token), None, None, None, false, false)
  }

  ghost function Registered(s: Ownership, token: U64, pid: Pid, tree: Option<Tree>): Ownership {
    if s.stopping || s.pendingStart != Some(token) then s
    else s.(pendingStart := None, pid := Some(pid), tree := tree, rootExited := false)
  }

  ghost function TreeRegistered(s: Ownership, token: U64, tree: Tree): Ownership {
    Registered(s, token, tree.root, Some(tree))
  }

  ghost function TreeRetained(s: Ownership, token: U64, tree: Tree): Ownership {
    if s.pendingStart != Some(token) || s.tree.Some? then s
    else s.(pendingStart := None, pid := None, stoppingPid := Some(tree.root), tree := Some(tree),
            rootExited := false, stopping := true)
  }

  ghost function StopRequested(s: Ownership): Ownership {
    s.(stopping := true, pid := None, stoppingPid := if s.pid.Some? then s.pid else s.stoppingPid)
  }

  ghost function TreeStopRequested(s: Ownership): Ownership {
    if s.stopping then s else StopRequested(s)
  }

  ghost function StartCompleted(s: Ownership, token: U64): Ownership {
    if s.pendingStart != Some(token) then s
    else s.(pendingStart := None,
            stopping := if s.stoppingPid.None? && s.pid.None? then false else s.stopping)
  }

  ghost function SpawnCleared(s: Ownership, pid: Pid): Ownership {
    if s.stoppingPid == Some(pid)
    then s.(stoppingPid := None, tree := None, rootExited := false, stopping := false)
    else if s.pid == Some(pid)
    then s.(pid := None, tree := None, rootExited := false, stopping := false)
    else s
  }

  predicate Owns(s: Ownership, tree: Tree) {
    s.tree.Some? && SameOwner(s.tree.value, tree)
  }

  ghost function TreeCleared(s: Ownership, tree: Tree): Ownership {
    if Owns(s, tree) then SpawnCleared(s, tree.root) else s
  }

  ghost function RootExitMarked(s: Ownership, pid: Pid): Ownership {
    if s.pid == Some(pid) || s.stoppingPid == Some(pid) then s.(rootExited := true) else s
  }

  ghost function TreeRootExitMarked(s: Ownership, tree: Tree): Ownership {
    if Owns(s, tree) then s.(rootExited := true) else s
  }

  predicate OwnsActive(s: Ownership, pid: Pid) {
    !s.stopping && !s.rootExited && s.pid == Some(pid)
  }

  function OwnedRootPid(s: Ownership): Option<Pid> {
    if s.pid.Some? then s.pid else s.stoppingPid
  }

  predicate HasOwnedWork(s: Ownership) {
    s.pendingStart.Some? || s.pid.Some? || s.stoppingPid.Some?
  }

  class BackendOwnershipState {
    var generation: U64
    var pendingStart: Option<U64>
    var pid: Option<Pid>
    var stoppingPid: Option<Pid>
    var tree: Option<Tree>
    var rootExited: bool
    var stopping: bool

    ghost function Model(): Ownership
      reads this
    {
      Ownership(generation, pendingStart, pid, stoppingPid, tree, rootExited, stopping)
    }

    constructor ()
      ensures Model() == NOTHING_OWNED
    {
      generation, pendingStart, pid, stoppingPid := 0, None, None, None;
      tree, rootExited, stopping := None, false, false;
    }

    method ReserveStart() returns (token: U64)
      modifies this
      ensures Model() == Reserved(old(Model()))
      ensures pendingStart == Some(token) && token == (if old(generation) == U64_MAX then 0 else old(generation) + 1)
      ensures pid.None? && stoppingPid.None? && tree.None? && !rootExited && !stopping
    {
      generation := if generation == U64_MAX then 0 else generation + 1;
      token := generation;
      pendingStart := Some(token);
      pid, stoppingPid, tree := None, None, None;
      rootExited, stopping := false, false;
    }

    method RegisterOwnedSpawn(token: U64, newPid: Pid, newTree: Option<Tree>) returns (registered: bool)
      modifies this
      ensures Model() == Registered(old(Model()), token, newPid, newTree)
      ensures registered == (!old(stopping) && old(pendingStart) == Some(token))
    {
      if stopping || pendingStart != Some(token) {
        return false;
      }
      pendingStart := None;
      pid := Some(newPid);
      tree := newTree;
      rootExited := false;
      return true;
    }

    /** The body of `register_backend_tree`, under one lock: a start that was
        cancelled meanwhile keeps the tree for cleanup instead of running it. */
    method RegisterOrRetainTree(token: U64, newTree: Tree) returns (registered: bool, retained: bool)
      modifies this
      ensures Model() == TreeRetained(TreeRegistered(old(Model()), token, newTree), token, newTree)
      ensures registered == (!old(stopping) && old(pendingStart) == Some(token))
      ensures retained == (old(pendingStart) == Some(token) && (registered || old(tree).None?))
    {
      registered := RegisterOwnedSpawn(token, newTree.root, Some(newTree));
      if registered {
        return registered, true;
      }
      retained := RetainTreeForCancelledStart(token, newTree);
    }

    method RetainTreeForCancelledStart(token: U64, newTree: Tree) returns (retained: bool)
      modifies this
      ensures Model() == TreeRetained(old(Model()), token, newTree)
      ensures retained == (old(pendingStart) == Some(token) && old(tree).None?)
    {
      if pendingStart != Some(token) || tree.Some? {
        return false;
      }
      pendingStart, pid := None, None;
      stoppingPid := Some(newTree.root);
      tree := Some(newTree);
      rootExited, stopping := false, true;
      return true;
    }

    method RequestTreeStop() returns (owned: Option<Tree>)
      modifies this
      ensures Model() == TreeStopRequested(old(Model()))
      ensures owned == old(tree)
    {
      if stopping {
        return tree;
      }
      var _ := RequestStop();
      return tree;
    }

    method RequestStop() returns (stopped: Option<Pid>)
      modifies this
      ensures Model() == StopRequested(old(Model()))
      ensures stopped == old(pid)
    {
      stopping := true;
      stopped := pid;
      pid := None;
      if stopped.Some? {
        stoppingPid := stopped;
      }
    }

    method CompleteStart(token: U64) returns (completed: bool)
      modifies this
      ensures Model() == StartCompleted(old(Model()), token)
      ensures completed == (old(pendingStart) == Some(token))
    {
      if pendingStart != Some(token) {
        return false;
      }
      pendingStart := None;
      if stoppingPid.None? && pid.None? {
        stopping := false;
      }
      return true;
    }

    method ClearSpawn(oldPid: Pid) returns (wasStopping: bool)
      modifies this
      ensures Model() == SpawnCleared(old(Model()), oldPid)
      ensures wasStopping == (old(stoppingPid) == Some(oldPid) || old(stopping))
    {
      if stoppingPid == Some(oldPid) {
        stoppingPid, tree := None, None;
        rootExited, stopping := false, false;
        return true;
      }
      if pid != Some(oldPid) {
        return stopping;
      }
      wasStopping := stopping;
      pid, tree := None, None;
      rootExited, stopping := false, false;
    }

    method ClearTree(oldTree: Tree) returns (wasStopping: bool)
      modifies this
      ensures Model() == TreeCleared(old(Model()), oldTree)
      ensures wasStopping
              == (Owns(old(Model()), oldTree) && (old(stoppingPid) == Some(oldTree.root) || old(stopping)))
    {
      if tree.None? || !SameOwner(tree.value, oldTree) {
        return false;
      }
      wasStopping := ClearSpawn(oldTree.root);
    }

    method MarkRootExited(oldPid: Pid) returns (isStopping: bool)
      modifies this`rootExited
      ensures Model() == RootExitMarked(old(Model()), oldPid)
      ensures isStopping == stopping
    {
      if pid != Some(oldPid) && stoppingPid != Some(oldPid) {
        return stopping;
      }
      rootExited := true;
      return stopping;
    }

    method MarkTreeRootExited(oldTree: Tree) returns (wasStopping: Option<bool>)
      modifies this
      ensures Model() == TreeRootExitMarked(old(Model()), oldTree)
      ensures wasStopping == if Owns(old(Model()), oldTree) then Some(old(stopping)) else None
    {
      if tree.None? || !SameOwner(tree.value, oldTree) {
        return None;
      }
      rootExited := true;
      return Some(stopping);
    }
  }

  // Whole runs of operations.

  datatype Op =
    | Reserve
    | Register(token: U64, pid: Pid, tree: Option<Tree>)
    | Retain(token: U64, newTree: Tree)
    | Stop
    | StopTree
    | Complete(token: U64)
    | ClearPid(pid: Pid)
    | Clear(oldTree: Tree)
    | MarkPid(pid: Pid)
    | Mark(oldTree: Tree)

  ghost function Apply(s: Ownership, op: Op): Ownership {
    match op
    case Reserve => Reserved(s)
    case Register(token, pid, tree) => Registered(s, token, pid, tree)
    case Retain(token, tree) => TreeRetained(s, token, tree)
    case Stop => StopRequested(s)
    case StopTree => TreeStopRequested(s)
    case Complete(token) => StartCompleted(s, token)
    case ClearPid(pid) => SpawnCleared(s, pid)
    case Clear(tree) => TreeCleared(s, tree)
    case MarkPid(pid) => RootExitMarked(s, pid)
    case Mark(tree) => TreeRootExitMarked(s, tree)
  }

  ghost function Run(s: Ownership, ops: seq<Op>): Ownership
    decreases |ops|
  {
    if ops == [] then s else Run(Apply(s, ops[0]), ops[1..])
  }

  /** `register_tree` passes the root pid of the tree it registers. */
  ghost predicate WellFormedOp(op: Op) {
    op.Register? && op.tree.Some? ==> op.pid == op.tree.value.root
  }

  /** At most one of reservation, live root and stopping root, and a tree only
      beside the root it belongs to. */
  ghost predicate Wf(s: Ownership) {
    && (s.pendingStart.Some? ==> s.pendingStart == Some(s.generation) && s.pid.None? && s.stoppingPid.None?)
    && (s.pid.Some? ==> !s.stopping && s.stoppingPid.None?)
    && (s.stoppingPid.Some? ==> s.stopping)
    && (s.tree.Some? ==> s.pid == Some(s.tree.value.root) || s.stoppingPid == Some(s.tree.value.root))
  }

  lemma ApplyKeepsWf(s: Ownership, op: Op)
    requires Wf(s) && WellFormedOp(op)
    ensures Wf(Apply(s, op))
  {
  }

  lemma {:induction false} RunKeepsWf(s: Ownership, ops: seq<Op>)
    requires Wf(s) && forall op :: op in ops ==> WellFormedOp(op)
    ensures Wf(Run(s, ops))
    decreases |ops|
  {
    if ops != [] {
      ApplyKeepsWf(s, ops[0]);
      RunKeepsWf(Apply(s, ops[0]), ops[1..]);
    }
  }

  /** Nothing runs, and a start still under way is marked for cancellation. */
  ghost predicate Quenched(s: Ownership) {
    s.pid.None? && (s.pendingStart.Some? ==> s.stopping)
  }

  lemma {:induction false} QuenchedStaysQuenched(s: Ownership, ops: seq<Op>)
    requires Wf(s) && Quenched(s)
    requires forall op :: op in ops ==> WellFormedOp(op) && !op.Reserve?
    ensures Quenched(Run(s, ops))
    decreases |ops|
  {
    if ops != [] {
      assert ops[0] in ops;
      ApplyKeepsWf(s, ops[0]);
      assert Quenched(Apply(s, ops[0]));
      QuenchedStaysQuenched(Apply(s, ops[0]), ops[1..]);
    }
  }

  /** A stop cannot be undone by a spawn that finishes later, although both
      `CompleteStart` and `ClearSpawn` reset `stopping`: only a new reservation
      makes a pid active again. */
  lemma StopCannotBeUndone(history: seq<Op>, stop: Op, later: seq<Op>, pid: Pid)
    requires stop.Stop? || stop.StopTree?
    requires forall op :: op in history ==> WellFormedOp(op)
    requires forall op :: op in later ==> WellFormedOp(op) && !op.Reserve?
    ensures !OwnsActive(Run(Apply(Run(NOTHING_OWNED, history), stop), later), pid)
  {
    RunKeepsWf(NOTHING_OWNED, history);
    var s := Run(NOTHING_OWNED, history);
    ApplyKeepsWf(s, stop);
    QuenchedStaysQuenched(Apply(s, stop), later);
  }

  ghost function Reservations(ops: seq<Op>): nat {
    if ops == [] then 0 else (if ops[0].Reserve? then 1 else 0) + Reservations(ops[1..])
  }

  lemma {:induction false} GenerationCounts(s: Ownership, ops: seq<Op>)
    ensures Run(s, ops).generation == (s.generation + Reservations(ops)) % GENERATIONS
    decreases |ops|
  {
    if ops != [] {
      var next := Apply(s, ops[0]);
      GenerationCounts(next, ops[1..]);
      if ops[0].Reserve? {
        WrapsAgain(s.generation, Reservations(ops[1..]));
      } else {
        assert next.generation == s.generation;
      }
    }
  }

  /** Actors that still hold the token of an earlier reservation change nothing,
      unless exactly a multiple of 2^64 reservations lies in between. */
  lemma StaleTokenIsHarmless(history: seq<Op>, later: seq<Op>, tree: Tree)
    requires forall op :: op in history || op in later ==> WellFormedOp(op)
    ensures var s := Reserved(Run(NOTHING_OWNED, history));
      var token, now := s.generation, Run(s, later);
      && (now.pendingStart == Some(token) ==> Reservations(later) % GENERATIONS == 0)
      && (0 < Reservations(later) < GENERATIONS ==>
            && TreeRegistered(now, token, tree) == now
            && TreeRetained(now, token, tree) == now
            && StartCompleted(now, token) == now)
  {
    RunKeepsWf(NOTHING_OWNED, history);
    var s := Reserved(Run(NOTHING_OWNED, history));
    RunKeepsWf(s, later);
    GenerationCounts(s, later);
    WrapsOnce(s.generation, Reservations(later));
  }

  lemma WrapsAgain(g: U64, k: nat)
    ensures ((g + 1) % GENERATIONS + k) % GENERATIONS == (g + 1 + k) % GENERATIONS
  {
    if g + 1 == GENERATIONS {
      assert (g + 1 + k) % GENERATIONS == k % GENERATIONS;
    }
  }

  lemma WrapsOnce(g: U64, k: nat)
    ensures (g + k) % GENERATIONS == g <==> k % GENERATIONS == 0
  {
    var q, r := k / GENERATIONS, k % GENERATIONS;
    assert g + k == (g + r) + q * GENERATIONS;
    assert (g + k) % GENERATIONS == (g + r) % GENERATIONS;
  }

  ghost predicate Claims(op: Op, owner: nat) {
    (op.Register? && op.tree.Some? && op.tree.value.owner == owner) || (op.Retain? && op.newTree.owner == owner)
  }

  /** Once a tree has been released, the actors that still hold it change
      nothing, whatever pids the operating system reuses. */
  lemma {:induction false} StaleTreeIsHarmless(s: Ownership, later: seq<Op>, tree: Tree)
    requires !Owns(s, tree) && forall op :: op in later ==> !Claims(op, tree.owner)
    ensures var now := Run(s, later);
      !Owns(now, tree) && TreeCleared(now, tree) == now && TreeRootExitMarked(now, tree) == now
    decreases |later|
  {
    if later != [] {
      assert later[0] in later;
      StaleTreeIsHarmless(Apply(s, later[0]), later[1..], tree);
    }
  }

  /** The pid alone would not do: with a reused pid it releases the new tree. */
  lemma PidAloneReleasesTheWrongTree(former: Tree, current: Tree)
    requires former.root == current.root && former.owner != current.owner
    ensures var s := TreeRegistered(Reserved(NOTHING_OWNED), 1, current);
      && Owns(s, current)
      && TreeCleared(s, former) == s
      && !HasOwnedWork(SpawnCleared(s, former.root))
  {
  }

  lemma CurrentTreeReleasesEverything(history: seq<Op>)
    requires forall op :: op in history ==> WellFormedOp(op)
    ensures var s := Run(NOTHING_OWNED, history);
      s.tree.Some? ==> !HasOwnedWork(TreeCleared(s, s.tree.value)) && HasOwnedWork(s)
  {
    RunKeepsWf(NOTHING_OWNED, history);
  }

  /** The owned tree always belongs to the owned root: a report need not fear a
      tree of some other process. */
  lemma OwnedTreeHasOwnedRoot(history: seq<Op>)
    requires forall op :: op in history ==> WellFormedOp(op)
    ensures var s := Run(NOTHING_OWNED, history);
      && (s.tree.Some? ==> OwnedRootPid(s) == Some(s.tree.value.root))
      && (s.pendingStart.Some? ==> OwnedRootPid(s).None? && s.tree.None?)
  {
    RunKeepsWf(NOTHING_OWNED, history);
  }

  // What each operation is for.

  /** A reservation forgets everything, an earlier stop included: its own start
      registers and is active, and is what is owned. */
  lemma ReservedStartsRun(s: Ownership, tree: Tree)
    ensures var reserved := Reserved(s);
      && reserved.pendingStart == Some(reserved.generation) && reserved.generation == (s.generation + 1) % GENERATIONS
      && HasOwnedWork(reserved) && OwnedRootPid(reserved).None? && reserved.tree.None?
      && (forall pid :: !OwnsActive(reserved, pid))
      && var running := TreeRegistered(reserved, reserved.generation, tree);
         && OwnsActive(running, tree.root) && OwnedRootPid(running) == Some(tree.root)
         && Owns(running, tree) && running.pendingStart.None?
  {
  }

  /** A start that a stop has overtaken does not run but is kept for cleanup. */
  lemma StoppedStartsAreRetained(s: Ownership, tree: Tree)
    ensures var stopped := TreeStopRequested(Reserved(s));
      var kept := TreeRetained(TreeRegistered(stopped, stopped.generation, tree), stopped.generation, tree);
      && (forall pid :: !OwnsActive(kept, pid))
      && Owns(kept, tree) && OwnedRootPid(kept) == Some(tree.root) && HasOwnedWork(kept)
  {
  }

  /** A stop ends activity but loses track of nothing that is owned. */
  lemma StopsKeepWhatIsOwned(s: Ownership)
    requires Wf(s)
    ensures forall pid :: !OwnsActive(StopRequested(s), pid) && !OwnsActive(TreeStopRequested(s), pid)
    ensures HasOwnedWork(StopRequested(s)) == HasOwnedWork(TreeStopRequested(s)) == HasOwnedWork(s)
    ensures OwnedRootPid(StopRequested(s)) == OwnedRootPid(TreeStopRequested(s)) == OwnedRootPid(s)
    ensures StopRequested(s).tree == TreeStopRequested(s).tree == s.tree
    ensures StopRequested(s).pendingStart == TreeStopRequested(s).pendingStart == s.pendingStart
  {
  }

  /** Clearing the owned root ends everything; any other pid changes nothing. */
  lemma ClearingEndsTheOwnedRoot(s: Ownership, pid: Pid)
    requires Wf(s)
    ensures OwnedRootPid(s) == Some(pid) ==> !HasOwnedWork(SpawnCleared(s, pid)) && SpawnCleared(s, pid).tree.None?
    ensures OwnedRootPid(s) != Some(pid) ==> SpawnCleared(s, pid) == s
  {
  }

  /** A completed start leaves nothing pending; what it started stays owned. */
  lemma CompletingEndsTheReservation(s: Ownership)
    requires Wf(s) && s.pendingStart.Some?
    ensures !HasOwnedWork(StartCompleted(s, s.generation))
    ensures forall token: U64 :: token != s.generation ==> StartCompleted(s, token) == s
  {
  }

  /** After its root has been seen to exit, a process is no longer active but
      still owned, until its tree is cleared. */
  lemma ExitedRootsAreInactive(s: Ownership, tree: Tree)
    requires Wf(s) && s.tree == Some(tree)
    ensures forall pid :: !OwnsActive(TreeRootExitMarked(s, tree), pid)
    ensures forall pid :: !OwnsActive(RootExitMarked(s, tree.root), pid)
    ensures Owns(TreeRootExitMarked(s, tree), tree) && HasOwnedWork(TreeRootExitMarked(s, tree))
    ensures OwnedRootPid(TreeRootExitMarked(s, tree)) == OwnedRootPid(RootExitMarked(s, tree.root)) == Some(tree.root)
    ensures forall pid: Pid :: Some(pid) != OwnedRootPid(s) ==> RootExitMarked(s, pid) == s
  {
  }
}
