/** Parent links, reachability and process identities. */
module ProcessTree {
  import opened Common

  type Pid = n: int | 0 <= n < 0x1_0000_0000

  /** What the operating system reports: nothing forbids cycles, also through
      the root, or parents that do not exist. */
  type Parents = map<Pid, Option<Pid>>

  /** Climbing from `pid` arrives at the root for the first time after `n` steps. */
  ghost predicate Below(parents: Parents, root: Pid, pid: Pid, n: nat)
    decreases n
  {
    && pid in parents
    && (if n == 0 then pid == root
        else pid != root && parents[pid].Some? && Below(parents, root, parents[pid].value, n - 1))
  }

  ghost predicate Reachable(parents: Parents, root: Pid, pid: Pid) {
    exists n: nat :: Below(parents, root, pid, n)
  }

  ghost function Reach(parents: Parents, root: Pid): set<Pid> {
    set pid | pid in parents && Reachable(parents, root, pid)
  }

  lemma {:induction false} DepthIsUnique(parents: Parents, root: Pid, pid: Pid, m: nat, n: nat)
    requires Below(parents, root, pid, m) && Below(parents, root, pid, n)
    ensures m == n
    decreases m
  {
    if m > 0 && n > 0 {
      DepthIsUnique(parents, root, parents[pid].value, m - 1, n - 1);
    }
  }

  /** A walk down from the root, which may even come back to the root. */
  ghost predicate IsWalk(parents: Parents, root: Pid, walk: seq<Pid>) {
    && walk != [] && walk[0] == root
    && (forall i :: 0 <= i < |walk| ==> walk[i] in parents)
    && (forall i :: 0 < i < |walk| ==> parents[walk[i]] == Some(walk[i - 1]))
  }

  lemma {:induction false} WalkReaches(parents: Parents, root: Pid, walk: seq<Pid>)
    requires IsWalk(parents, root, walk)
    ensures Reachable(parents, root, Last(walk))
    decreases |walk|
  {
    if Last(walk) == root {
      assert Below(parents, root, root, 0);
    } else {
      WalkReaches(parents, root, walk[..|walk| - 1]);
      var n: nat :| Below(parents, root, walk[|walk| - 2], n);
      assert Below(parents, root, Last(walk), n + 1);
    }
  }

  lemma {:induction false} ReachableByWalk(parents: Parents, root: Pid, pid: Pid, n: nat) returns (walk: seq<Pid>)
    requires Below(parents, root, pid, n)
    ensures IsWalk(parents, root, walk) && Last(walk) == pid && |walk| == n + 1
    decreases n
  {
    if n == 0 {
      walk := [root];
    } else {
      walk := ReachableByWalk(parents, root, parents[pid].value, n - 1);
      walk := walk + [pid];
    }
  }

  /** Reachability means what a reader expects it to mean. */
  lemma ReachableIffWalk(parents: Parents, root: Pid, pid: Pid)
    ensures Reachable(parents, root, pid) <==> exists walk: seq<Pid> :: IsWalk(parents, root, walk) && Last(walk) == pid
  {
    if Reachable(parents, root, pid) {
      var n: nat :| Below(parents, root, pid, n);
      var walk := ReachableByWalk(parents, root, pid, n);
    }
    if exists walk: seq<Pid> :: IsWalk(parents, root, walk) && Last(walk) == pid {
      var walk: seq<Pid> :| IsWalk(parents, root, walk) && Last(walk) == pid;
      WalkReaches(parents, root, walk);
    }
  }

  ghost predicate Closed(parents: Parents, root: Pid, pids: set<Pid>) {
    && (root in parents ==> root in pids)
    && (forall c :: c in parents && parents[c].Some? && parents[c].value in pids ==> c in pids)
  }

  lemma {:induction false} ClosedCovers(parents: Parents, root: Pid, pids: set<Pid>, pid: Pid, n: nat)
    requires Closed(parents, root, pids) && Below(parents, root, pid, n)
    ensures pid in pids
    decreases n
  {
    if n > 0 {
      ClosedCovers(parents, root, pids, parents[pid].value, n - 1);
    }
  }

  lemma ClosedAndReachable(parents: Parents, root: Pid, pids: set<Pid>)
    requires Closed(parents, root, pids)
    requires forall pid :: pid in pids ==> pid in parents && Reachable(parents, root, pid)
    ensures pids == Reach(parents, root)
  {
    forall pid | pid in Reach(parents, root)
      ensures pid in pids
    {
      var n: nat :| Below(parents, root, pid, n);
      ClosedCovers(parents, root, pids, pid, n);
    }
  }

  lemma ChildIsReachable(parents: Parents, root: Pid, pid: Pid, child: Pid)
    requires Reachable(parents, root, pid) && child in parents && parents[child] == Some(pid)
    ensures Reachable(parents, root, child)
  {
    if child == root {
      assert Below(parents, root, child, 0);
    } else {
      var n: nat :| Below(parents, root, pid, n);
      assert Below(parents, root, child, n + 1);
    }
  }

  // The index from parents to children.

  type Children = map<Pid, seq<Pid>>

  ghost predicate Lists(children: Children, p: Pid, c: Pid) {
    p in children && c in children[p]
  }

  ghost predicate IsIndex(parents: Parents, children: Children) {
    forall p: Pid, c: Pid :: Lists(children, p, c) <==> c in parents && parents[c] == Some(p)
  }

  /** Visits the entries of the hash map in an arbitrary order. */
  method IndexChildren(parents: Parents) returns (children: Children)
    ensures IsIndex(parents, children)
  {
    children := map[];
    var remaining := parents.Keys;
    while remaining != {}
      invariant remaining <= parents.Keys
      invariant forall p: Pid, c: Pid :: Lists(children, p, c)
                  <==> c in parents && c !in remaining && parents[c] == Some(p)
      decreases |remaining|
    {
      var pid :| pid in remaining;
      remaining := remaining - {pid};
      if parents[pid].Some? {
        var p := parents[pid].value;
        var siblings := if p in children then children[p] else [];
        ghost var before := children;
        children := children[p := siblings + [pid]];
        assert forall q: Pid, c: Pid :: Lists(children, q, c) <==> Lists(before, q, c) || (q == p && c == pid);
      }
    }
  }

  // Identities.

  datatype CodexChannel = AppServer | Sdk

  /** `cpu` is `None` when the sampled share is not finite. */
  datatype Sample = Sample(
    pid: Pid,
    parent: Option<Pid>,
    cpu: Option<real>,
    memory: U64,
    executable: string,
    name: string,
    commandLine: string)

  function Lower(c: char): char {
    if 'A' <= c <= 'Z' then (c as int + 32) as char else c
  }

  predicate EqIgnoreCase(a: string, b: string) {
    |a| == |b| && forall i :: 0 <= i < |a| ==> Lower(a[i]) == Lower(b[i])
  }

  function ExecutableBasename(path: string): string {
    if path == [] || Last(path) == '/' || Last(path) == '\\' then []
    else ExecutableBasename(path[..|path| - 1]) + [Last(path)]
  }

  predicate HasExactExecutableName(sample: Sample, expected: string) {
    || EqIgnoreCase(ExecutableBasename(sample.executable), expected)
    || EqIgnoreCase(ExecutableBasename(sample.name), expected)
  }

  predicate SeparatesTokens(c: char) {
    c == ' ' || c == '\t' || c == '\n' || c == '\r' || c as int == 12 || c == '"' || c == '\''
  }

  /** The piece between two separators, or an end of the line. */
  predicate TokenBetween(line: string, expected: string, i: nat, j: nat)
    requires i <= j <= |line|
  {
    && EqIgnoreCase(line[i..j], expected)
    && (i == 0 || SeparatesTokens(line[i - 1]))
    && (j == |line| || SeparatesTokens(line[j]))
    && (forall k :: i <= k < j ==> !SeparatesTokens(line[k]))
  }

  predicate HasCommandToken(line: string, expected: string) {
    exists i: nat, j: nat | i <= j <= |line| :: TokenBetween(line, expected, i, j)
  }

  function CodexChannelOf(sample: Sample): Option<CodexChannel> {
    if !HasExactExecutableName(sample, "codex") && !HasExactExecutableName(sample, "codex.exe") then None
    else if HasCommandToken(sample.commandLine, "app-server") then Some(AppServer)
    else if HasCommandToken(sample.commandLine, "exec") then Some(Sdk)
    else None
  }

  predicate IsCodexResourceHelper(sample: Sample) {
    || HasExactExecutableName(sample, "codex-sandbox")
    || HasExactExecutableName(sample, "codex-sandbox.exe")
    || HasExactExecutableName(sample, "codex-linux-sandbox")
    || HasExactExecutableName(sample, "codex-linux-sandbox.exe")
    || HasExactExecutableName(sample, "codex-macos-sandbox")
    || HasExactExecutableName(sample, "codex-macos-sandbox.exe")
    || HasExactExecutableName(sample, "codex-windows-sandbox")
    || HasExactExecutableName(sample, "codex-windows-sandbox.exe")
    || HasExactExecutableName(sample, "codex-resource-helper")
    || HasExactExecutableName(sample, "codex-resource-helper.exe")
  }

  const PLUGIN_HOST_MARKER := "plugin-host"

  predicate MarkerAt(value: string, i: nat) {
    i + |PLUGIN_HOST_MARKER| <= |value| && EqIgnoreCase(value[i..i + |PLUGIN_HOST_MARKER|], PLUGIN_HOST_MARKER)
  }

  predicate ContainsMarker(value: string) {
    exists i | 0 <= i <= |value| :: MarkerAt(value, i)
  }

  predicate IsPluginHost(sample: Sample) {
    ContainsMarker(sample.executable) || ContainsMarker(sample.name) || ContainsMarker(sample.commandLine)
  }
}
