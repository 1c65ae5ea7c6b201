/** Both passes together, and what their result means. */
module TreeSnapshot {
  import opened Common
  import opened ProcessTree
  import opened TreeSelect
  import opened TreeAggregate

  // The first pass does not show in the result.

  ghost function Pruned(rows: Rows, root: Pid): Rows {
    map pid | pid in rows && pid in Reach(ParentsOf(rows), root) :: rows[pid]
  }

  lemma {:induction false} PruningKeepsDepth(rows: Rows, root: Pid, pid: Pid, n: nat)
    ensures Below(ParentsOf(Pruned(rows, root)), root, pid, n) <==> Below(ParentsOf(rows), root, pid, n)
    decreases n
  {
    if Below(ParentsOf(rows), root, pid, n) {
      assert pid in Reach(ParentsOf(rows), root);
    }
    if n > 0 && pid in rows && rows[pid].parent.Some? {
      PruningKeepsDepth(rows, root, rows[pid].parent.value, n - 1);
    }
  }

  lemma PruningKeepsReach(rows: Rows, root: Pid)
    ensures Reach(ParentsOf(Pruned(rows, root)), root) == Reach(ParentsOf(rows), root)
  {
    forall pid: Pid, n: nat {
      PruningKeepsDepth(rows, root, pid, n);
    }
    forall pid: Pid
      ensures Reachable(ParentsOf(Pruned(rows, root)), root, pid) <==> Reachable(ParentsOf(rows), root, pid)
    {
      if Reachable(ParentsOf(rows), root, pid) {
        var n: nat :| Below(ParentsOf(rows), root, pid, n);
        PruningKeepsDepth(rows, root, pid, n);
      }
      if Reachable(ParentsOf(Pruned(rows, root)), root, pid) {
        var n: nat :| Below(ParentsOf(Pruned(rows, root)), root, pid, n);
        PruningKeepsDepth(rows, root, pid, n);
      }
    }
  }

  lemma {:induction false} PruningKeepsChannelAt(rows: Rows, root: Pid, pid: Pid, n: nat)
    requires Below(ParentsOf(rows), root, pid, n)
    ensures Below(ParentsOf(Pruned(rows, root)), root, pid, n)
    ensures ChannelAt(Pruned(rows, root), root, pid, n) == ChannelAt(rows, root, pid, n)
    decreases n
  {
    PruningKeepsDepth(rows, root, pid, n);
    if n > 0 {
      PruningKeepsChannelAt(rows, root, rows[pid].parent.value, n - 1);
    }
  }

  lemma PruningKeepsChannel(rows: Rows, root: Pid, pid: Pid)
    requires Reachable(ParentsOf(rows), root, pid)
    ensures Reachable(ParentsOf(Pruned(rows, root)), root, pid)
    ensures Channel(Pruned(rows, root), root, pid) == Channel(rows, root, pid)
  {
    var parents, parents' := ParentsOf(rows), ParentsOf(Pruned(rows, root));
    var n: nat :| Below(parents, root, pid, n) && Channel(rows, root, pid) == ChannelAt(rows, root, pid, n);
    PruningKeepsChannelAt(rows, root, pid, n);
    var m: nat :| Below(parents', root, pid, m)
               && Channel(Pruned(rows, root), root, pid) == ChannelAt(Pruned(rows, root), root, pid, m);
    DepthIsUnique(parents', root, pid, m, n);
  }

  lemma {:induction false} SameRowsSameLoad(rows: Rows, rows': Rows, pids: set<Pid>)
    requires pids <= rows.Keys && pids <= rows'.Keys
    requires forall pid :: pid in pids ==> rows'[pid] == rows[pid]
    ensures LoadOf(rows', pids) == LoadOf(rows, pids)
    decreases |pids|
  {
    if pids != {} {
      var pid :| pid in pids;
      SameRowsSameLoad(rows, rows', pids - {pid});
      LoadWithout(rows, pids, pid);
      LoadWithout(rows', pids, pid);
    }
  }

  lemma PruningKeepsTally(rows: Rows, root: Pid, backend: Option<Pid>, group: Group)
    ensures var tree := Reach(ParentsOf(rows), root);
      && Reach(ParentsOf(Pruned(rows, root)), root) == tree
      && Tally(Pruned(rows, root), root, backend, tree, group) == Tally(rows, root, backend, tree, group)
  {
    var tree, rows' := Reach(ParentsOf(rows), root), Pruned(rows, root);
    PruningKeepsReach(rows, root);
    forall pid | pid in tree
      ensures Belongs(rows', root, backend, pid, group) == Belongs(rows, root, backend, pid, group)
    {
      PruningKeepsChannel(rows, root, pid);
    }
    assert Members(rows', root, backend, tree, group) == Members(rows, root, backend, tree, group);
    SameRowsSameLoad(rows, rows', Members(rows, root, backend, tree, group));
  }

  /** Aggregating the pids the first pass selects equals aggregating everything. */
  lemma PruningIsInvisible(snapshot: Snapshot, rows: Rows, root: Pid, backend: Option<Pid>, cpuCount: nat)
    ensures Attributes(snapshot, Pruned(rows, root), root, backend, cpuCount)
       <==> Attributes(snapshot, rows, root, backend, cpuCount)
  {
    forall group
      ensures Tally(Pruned(rows, root), root, backend, Reach(ParentsOf(Pruned(rows, root)), root), group)
           == Tally(rows, root, backend, Reach(ParentsOf(rows), root), group)
    {
      PruningKeepsTally(rows, root, backend, group);
    }
  }

  // The same on the lists the operating system reports.

  ghost predicate DistinctPids(samples: seq<Sample>) {
    forall i, j :: 0 <= i < j < |samples| ==> samples[i].pid != samples[j].pid
  }

  lemma {:induction false} DistinctAreAlone(samples: seq<Sample>)
    requires DistinctPids(samples)
    ensures forall sample :: Alone(multiset(samples), sample) <==> sample in samples
  {
    if samples != [] {
      var first, rest := samples[0], samples[1..];
      assert samples == [first] + rest;
      DistinctAreAlone(rest);
      assert forall sample :: sample in rest ==> sample.pid != first.pid;
      assert multiset(samples) == multiset(rest) + multiset{first};
      forall sample
        ensures Alone(multiset(samples), sample) <==> sample in samples
      {
        AloneAmongMore(multiset(rest), first, sample);
        assert Occurs(multiset(rest), first.pid) ==> exists other :: other in rest && other.pid == first.pid;
        assert sample in rest && sample.pid == first.pid ==> false;
      }
    }
  }

  ghost function TopologyOf(samples: seq<Sample>): set<Topology> {
    set sample | sample in samples :: Topology(sample.pid, sample.parent)
  }

  lemma TopologyAgrees(samples: seq<Sample>)
    requires DistinctPids(samples)
    ensures Consistent(TopologyOf(samples)) == ParentsOf(UniqueRows(multiset(samples)))
  {
    DistinctAreAlone(samples);
    var rows := UniqueRows(multiset(samples));
    forall pid: Pid, parent: Option<Pid>
      ensures (pid in rows && rows[pid].parent == parent) <==> Settles(TopologyOf(samples), pid, parent)
    {
      if pid in rows {
        assert rows[pid].pid == pid && Alone(multiset(samples), rows[pid]);
        assert Topology(pid, rows[pid].parent) in TopologyOf(samples);
      }
      forall sample | sample in samples && sample.pid == pid
        ensures pid in rows && rows[pid] == sample
      {
        assert Alone(multiset(samples), sample);
      }
    }
    ResolvedIsConsistent(ParentsOf(rows), TopologyOf(samples));
  }

  datatype ProcessState = Live(sample: Sample) | Nonexistent

  /** The answers of the operating system during one snapshot. */
  datatype ProcessSource = ProcessSource(
    refreshed: Result<nat, string>,
    topology: seq<Topology>,
    identities: Result<(), string>,
    processes: map<Pid, ProcessState>,
    cpuCount: nat,
    sampledAt: Result<U64, string>)

  ghost function LiveSamples(source: ProcessSource, pids: seq<Pid>): seq<Sample> {
    if pids == [] then []
    else
      var init := LiveSamples(source, pids[..|pids| - 1]);
      var pid := Last(pids);
      if pid in source.processes && source.processes[pid].Live? then init + [source.processes[pid].sample] else init
  }

  datatype SamplingError =
    | RefreshFailed(message: string)
    | NoProcesses
    | RootAbsent
    | IdentitiesFailed(message: string)
    | ClockFailed(message: string)

  class SamplerState {
    const scratch: SnapshotScratch

    constructor ()
      ensures fresh(scratch)
    {
      scratch := new SnapshotScratch();
    }

    /** Whatever an earlier snapshot left in the buffers has no influence. */
    method SnapshotFromState(source: ProcessSource, root: Pid, backend: Option<Pid>)
      returns (r: Result<Snapshot, SamplingError>)
      modifies scratch
      ensures source.refreshed.Err? ==> r == Err(RefreshFailed(source.refreshed.error))
      ensures source.refreshed == Ok(0) ==> r == Err(NoProcesses)
      ensures var parents := Consistent(RowsOf(source.topology));
        source.refreshed.Ok? && source.refreshed.value > 0 ==>
          if root !in parents then r == Err(RootAbsent)
          else if source.identities.Err? then r == Err(IdentitiesFailed(source.identities.error))
          else
            && Ascending(scratch.selectedPids)
            && PidSet(scratch.selectedPids) == Reach(parents, root)
            && var samples := LiveSamples(source, scratch.selectedPids);
               if forall sample :: sample in samples ==> sample.pid != root then r == Err(RootAbsent)
               else if source.sampledAt.Err? then r == Err(ClockFailed(source.sampledAt.error))
               else r.Ok? && Attributes(r.value, UniqueRows(multiset(samples)), root, backend,
                                        if source.cpuCount == 0 then 1 else source.cpuCount)
    {
      scratch.Clear();
      if source.refreshed.Err? {
        return Err(RefreshFailed(source.refreshed.error));
      }
      if source.refreshed.value == 0 {
        return Err(NoProcesses);
      }
      scratch.topology := source.topology;
      var found := scratch.SelectRideTree(root);
      if !found {
        return Err(RootAbsent);
      }
      if source.identities.Err? {
        return Err(IdentitiesFailed(source.identities.error));
      }
      ProbeSelected(source);
      var k := 0;
      while k < |scratch.samples| && scratch.samples[k].pid != root
        invariant k <= |scratch.samples|
        invariant forall j :: 0 <= j < k ==> scratch.samples[j].pid != root
      {
        k := k + 1;
      }
      if k == |scratch.samples| {
        return Err(RootAbsent);
      }
      assert scratch.samples[k] in LiveSamples(source, scratch.selectedPids);
      if source.sampledAt.Err? {
        return Err(ClockFailed(source.sampledAt.error));
      }
      var snapshot := AggregateSnapshot(scratch.samples, root, backend,
                                        if source.cpuCount == 0 then 1 else source.cpuCount);
      return Ok(snapshot);
    }

    method ProbeSelected(source: ProcessSource)
      requires scratch.samples == []
      modifies scratch`samples
      ensures scratch.samples == LiveSamples(source, scratch.selectedPids)
    {
      var pids := scratch.selectedPids;
      for i := 0 to |pids|
        invariant scratch.samples == LiveSamples(source, pids[..i])
      {
        assert pids[..i + 1][..i] == pids[..i];
        if pids[i] in source.processes && source.processes[pids[i]].Live? {
          scratch.samples := scratch.samples + [source.processes[pids[i]].sample];
        }
      }
      assert pids[..|pids|] == pids;
    }
  }

  /** The table `all` is reported consistently by both passes. */
  ghost predicate Reports(source: ProcessSource, all: seq<Sample>) {
    && DistinctPids(all)
    && RowsOf(source.topology) == TopologyOf(all)
    && (forall sample :: sample in all ==>
          sample.pid in source.processes && source.processes[sample.pid] == Live(sample))
  }

  lemma ProbeOneMore(source: ProcessSource, all: seq<Sample>, init: seq<Pid>, pid: Pid) returns (row: Sample)
    requires Reports(source, all) && exists sample :: sample in all && sample.pid == pid
    ensures row in all && row.pid == pid
    ensures forall sample :: sample in all && sample.pid == pid ==> sample == row
    ensures LiveSamples(source, init + [pid]) == LiveSamples(source, init) + [row]
  {
    row :| row in all && row.pid == pid;
    assert source.processes[pid] == Live(row);
    assert (init + [pid])[..|init|] == init;
    forall sample | sample in all && sample.pid == pid
      ensures sample == row
    {
      assert source.processes[pid] == Live(sample);
    }
  }

  lemma DistinctGrows(samples: seq<Sample>, row: Sample)
    requires DistinctPids(samples) && forall sample :: sample in samples ==> sample.pid != row.pid
    ensures DistinctPids(samples + [row])
  {
    forall i | 0 <= i < |samples|
      ensures samples[i].pid != row.pid
    {
      assert samples[i] in samples;
    }
  }

  lemma {:induction false} ProbedAreListed(source: ProcessSource, all: seq<Sample>, pids: seq<Pid>)
    requires Reports(source, all) && Ascending(pids)
    requires forall pid :: pid in pids ==> exists sample :: sample in all && sample.pid == pid
    ensures forall sample :: sample in LiveSamples(source, pids) <==> sample in all && sample.pid in pids
    ensures DistinctPids(LiveSamples(source, pids))
    decreases |pids|
  {
    if pids != [] {
      var init, pid := pids[..|pids| - 1], Last(pids);
      assert pids == init + [pid];
      assert pid in pids && forall x :: x in init ==> x in pids && x < pid;
      ProbedAreListed(source, all, init);
      var row := ProbeOneMore(source, all, init, pid);
      DistinctGrows(LiveSamples(source, init), row);
    }
  }

  /** With unique pids, live samples and unchanged parents, the sampler's answer
      is the attribution of the whole process table. */
  lemma SamplerAttributesEverything(source: ProcessSource, all: seq<Sample>, selected: seq<Pid>,
                                    snapshot: Snapshot, root: Pid, backend: Option<Pid>, cpuCount: nat)
    requires Reports(source, all)
    requires Ascending(selected) && PidSet(selected) == Reach(Consistent(RowsOf(source.topology)), root)
    ensures Attributes(snapshot, UniqueRows(multiset(LiveSamples(source, selected))), root, backend, cpuCount)
       <==> Attributes(snapshot, UniqueRows(multiset(all)), root, backend, cpuCount)
  {
    TopologyAgrees(all);
    var rows := UniqueRows(multiset(all));
    var samples := LiveSamples(source, selected);
    assert forall pid :: pid in selected <==> pid in PidSet(selected);
    DistinctAreAlone(all);
    forall pid | pid in selected
      ensures exists sample :: sample in all && sample.pid == pid
    {
      assert rows[pid].pid == pid && Alone(multiset(all), rows[pid]);
    }
    ProbedAreListed(source, all, selected);
    DistinctAreAlone(samples);
    var pruned := Pruned(rows, root);
    forall pid: Pid, sample: Sample
      ensures (pid in pruned && pruned[pid] == sample) <==> (sample.pid == pid && Alone(multiset(samples), sample))
    {
      assert (pid in rows && rows[pid] == sample) <==> (sample.pid == pid && Alone(multiset(all), sample));
    }
    KeptRowsAgree(pruned, UniqueRows(multiset(samples)), multiset(samples));
    PruningIsInvisible(snapshot, rows, root, backend, cpuCount);
  }

  // Conservation.

  lemma {:induction false} LoadAdds(rows: Rows, a: set<Pid>, b: set<Pid>)
    requires a + b <= rows.Keys && a !! b
    ensures var x, y := LoadOf(rows, a), LoadOf(rows, b);
      LoadOf(rows, a + b) == Load(x.cpu + y.cpu, x.memory + y.memory)
    decreases |a|
  {
    if a == {} {
      assert a + b == b;
    } else {
      var pid :| pid in a;
      LoadAdds(rows, a - {pid}, b);
      LoadWithout(rows, a, pid);
      LoadWithout(rows, a + b, pid);
      assert a + b - {pid} == (a - {pid}) + b;
    }
  }

  lemma UsageAdds(rows: Rows, a: set<Pid>, b: set<Pid>)
    requires a + b <= rows.Keys && a !! b
    ensures var x, y, z := Usage(rows, a), Usage(rows, b), Usage(rows, a + b);
      && z.cpu == x.cpu + y.cpu
      && z.memory == SaturatingAdd(x.memory, y.memory)
      && z.count == SaturatingAdd(x.count, y.count)
      && x.cpu >= 0.0 && y.cpu >= 0.0
  {
    LoadAdds(rows, a, b);
  }

  ghost predicate Sums(whole: UsageGroup, parts: seq<UsageGroup>) {
    && whole.memory == SumMemory(parts)
    && whole.count == SumCount(parts)
    && (forall i :: 0 <= i < |parts| ==> parts[i].cpu <= whole.cpu)
    && whole.cpu <= SumCpu(parts)
  }

  ghost function SumMemory(parts: seq<UsageGroup>): U64 {
    if parts == [] then 0 else SaturatingAdd(parts[0].memory, SumMemory(parts[1..]))
  }

  ghost function SumCount(parts: seq<UsageGroup>): U64 {
    if parts == [] then 0 else SaturatingAdd(parts[0].count, SumCount(parts[1..]))
  }

  ghost function SumCpu(parts: seq<UsageGroup>): real {
    if parts == [] then 0.0 else parts[0].cpu + SumCpu(parts[1..])
  }

  /** Pairwise disjoint sets, and their union. */
  ghost predicate Splits(whole: set<Pid>, parts: seq<set<Pid>>) {
    if parts == [] then whole == {}
    else parts[0] <= whole && Splits(whole - parts[0], parts[1..])
  }

  ghost function Shares(rows: Rows, parts: seq<set<Pid>>, cpuCount: nat): (shares: seq<UsageGroup>)
    requires forall part :: part in parts ==> part <= rows.Keys
    ensures |shares| == |parts|
    ensures forall i :: 0 <= i < |parts| ==> shares[i] == NormalizeCpu(Usage(rows, parts[i]), cpuCount)
  {
    if parts == [] then []
    else [NormalizeCpu(Usage(rows, parts[0]), cpuCount)] + Shares(rows, parts[1..], cpuCount)
  }

  lemma ScaledShares(x: real, y: real, cpuCount: nat)
    requires x >= 0.0 && y >= 0.0 && cpuCount > 0
    ensures var n := cpuCount as real;
      && Clamp(x / n) <= Clamp((x + y) / n) && Clamp(y / n) <= Clamp((x + y) / n)
      && Clamp((x + y) / n) <= Clamp(x / n) + Clamp(y / n)
  {
    var n := cpuCount as real;
    assert (x + y) / n == x / n + y / n;
    assert x / n >= 0.0 && y / n >= 0.0;
  }

  lemma ComparesAfterScaling(x: real, n: real)
    requires n > 0.0
    ensures x * n > 100.0 * n <==> x > 100.0
    ensures x * n >= 0.0 <==> x >= 0.0
  {
    assert (x - 100.0) * n == x * n - 100.0 * n;
  }

  /** A share that needs no clamping is the raw sum divided by the processors:
      multiplied back it is the sum again. Only the sum is scaled. */
  lemma SharesScaleBack(group: UsageGroup, cpuCount: nat)
    requires cpuCount > 0
    ensures var n := cpuCount as real;
      && (0.0 <= group.cpu <= 100.0 * n ==> NormalizeCpu(group, cpuCount).cpu * n == group.cpu)
      && (group.cpu > 100.0 * n ==> NormalizeCpu(group, cpuCount).cpu == 100.0)
    ensures NormalizeCpu(group, 0).cpu == 0.0
    ensures NormalizeCpu(group, cpuCount).memory == group.memory && NormalizeCpu(group, cpuCount).count == group.count
  {
    var n := cpuCount as real;
    assert (group.cpu / n) * n == group.cpu;
    ComparesAfterScaling(group.cpu / n, n);
  }

  /** One process counts with its finite, nonnegative CPU share, its memory and
      one; any other CPU reading counts nothing. */
  lemma OneProcessCounts(rows: Rows, pid: Pid)
    requires pid in rows
    ensures var sample, usage := rows[pid], Usage(rows, {pid});
      && usage.memory == sample.memory && usage.count == 1
      && (sample.cpu.Some? && sample.cpu.value >= 0.0 ==> usage.cpu == sample.cpu.value)
      && (sample.cpu.None? || sample.cpu.value < 0.0 ==> usage.cpu == 0.0)
  {
    LoadWithout(rows, {pid}, pid);
    assert {pid} - {pid} == {};
  }

  /** Normalising keeps sums: exactly for memory and counts, as bounds for the
      clamped CPU shares. */
  lemma NormalizedSum(x: UsageGroup, y: UsageGroup, z: UsageGroup, cpuCount: nat)
    requires x.cpu >= 0.0 && y.cpu >= 0.0 && z.cpu == x.cpu + y.cpu
    requires z.memory == SaturatingAdd(x.memory, y.memory) && z.count == SaturatingAdd(x.count, y.count)
    ensures var x', y', z' := NormalizeCpu(x, cpuCount), NormalizeCpu(y, cpuCount), NormalizeCpu(z, cpuCount);
      && z'.memory == SaturatingAdd(x'.memory, y'.memory) && z'.count == SaturatingAdd(x'.count, y'.count)
      && x'.cpu <= z'.cpu && y'.cpu <= z'.cpu && z'.cpu <= x'.cpu + y'.cpu
  {
    if cpuCount > 0 {
      ScaledShares(x.cpu, y.cpu, cpuCount);
    }
  }

  lemma OneMorePart(whole: UsageGroup, part: UsageGroup, rest: UsageGroup, parts: seq<UsageGroup>)
    requires Sums(rest, parts)
    requires whole.memory == SaturatingAdd(part.memory, rest.memory)
    requires whole.count == SaturatingAdd(part.count, rest.count)
    requires part.cpu <= whole.cpu && rest.cpu <= whole.cpu && whole.cpu <= part.cpu + rest.cpu
    ensures Sums(whole, [part] + parts)
  {
    assert ([part] + parts)[1..] == parts;
  }

  /** Normalised usage of disjoint parts, over the reals. */
  lemma {:induction false} PartsSum(rows: Rows, whole: set<Pid>, parts: seq<set<Pid>>, cpuCount: nat)
    requires whole <= rows.Keys && Splits(whole, parts)
    requires forall part :: part in parts ==> part <= rows.Keys
    ensures Sums(NormalizeCpu(Usage(rows, whole), cpuCount), Shares(rows, parts, cpuCount))
    decreases |parts|
  {
    if parts == [] {
      NothingUsed(rows, cpuCount);
    } else {
      var rest := whole - parts[0];
      assert forall part :: part in parts[1..] ==> part in parts;
      PartsSum(rows, rest, parts[1..], cpuCount);
      UsageAdds(rows, parts[0], rest);
      assert parts[0] + rest == whole;
      var x, y, z := Usage(rows, parts[0]), Usage(rows, rest), Usage(rows, whole);
      NormalizedSum(x, y, z, cpuCount);
      OneMorePart(NormalizeCpu(z, cpuCount), NormalizeCpu(x, cpuCount), NormalizeCpu(y, cpuCount),
                  Shares(rows, parts[1..], cpuCount));
    }
  }

  lemma NothingUsed(rows: Rows, cpuCount: nat)
    ensures Sums(NormalizeCpu(Usage(rows, {}), cpuCount), [])
  {
    var none: set<Pid> := {};
    assert Usage(rows, none).cpu == 0.0;
    if cpuCount > 0 {
      assert 0.0 / (cpuCount as real) == 0.0;
    }
  }

  ghost function GroupMembers(rows: Rows, root: Pid, backend: Option<Pid>, groups: seq<Group>): (parts: seq<set<Pid>>)
    ensures |parts| == |groups|
    ensures forall part :: part in parts ==> part <= rows.Keys
    ensures forall i :: 0 <= i < |groups| ==>
      parts[i] == Members(rows, root, backend, Reach(ParentsOf(rows), root), groups[i])
  {
    seq(|groups|, i requires 0 <= i < |groups| =>
      Members(rows, root, backend, Reach(ParentsOf(rows), root), groups[i]))
  }

  ghost function Usages(s: Snapshot, groups: seq<Group>): (usages: seq<UsageGroup>)
    ensures |usages| == |groups|
    ensures forall i :: 0 <= i < |groups| ==> usages[i] == UsageOf(s, groups[i])
  {
    seq(|groups|, i requires 0 <= i < |groups| => UsageOf(s, groups[i]))
  }

  lemma GroupsSum(s: Snapshot, rows: Rows, root: Pid, backend: Option<Pid>, cpuCount: nat,
                  whole: Group, groups: seq<Group>)
    requires Attributes(s, rows, root, backend, cpuCount)
    requires Splits(Members(rows, root, backend, Reach(ParentsOf(rows), root), whole),
                    GroupMembers(rows, root, backend, groups))
    ensures Sums(UsageOf(s, whole), Usages(s, groups))
  {
    var parts := GroupMembers(rows, root, backend, groups);
    PartsSum(rows, Members(rows, root, backend, Reach(ParentsOf(rows), root), whole), parts, cpuCount);
    assert Usages(s, groups) == Shares(rows, parts, cpuCount);
  }

  lemma SplitThree(whole: set<Pid>, a: set<Pid>, b: set<Pid>, c: set<Pid>)
    requires whole == a + b + c && a !! b && a !! c && b !! c
    ensures Splits(whole, [a, b, c])
  {
    assert [a, b, c][1..] == [b, c];
    assert [b, c][1..] == [c];
    assert [c][1..] == [];
    assert whole - a - b == c;
    assert Splits(whole - a - b, [c]);
  }

  lemma SplitFive(whole: set<Pid>, parts: seq<set<Pid>>)
    requires |parts| == 5 && whole == parts[0] + parts[1] + parts[2] + parts[3] + parts[4]
    requires forall i, j :: 0 <= i < j < 5 ==> parts[i] !! parts[j]
    ensures Splits(whole, parts)
  {
    var rest := whole - parts[0] - parts[1];
    SplitThree(rest, parts[2], parts[3], parts[4]);
    assert parts[1..][1..] == [parts[2], parts[3], parts[4]];
    assert Splits(whole - parts[0], parts[1..]);
  }

  const FIVE := [Main, Backend, PluginHost, CodexAgent, Other]

  lemma ChargedOnce(rows: Rows, root: Pid, backend: Option<Pid>, pid: Pid)
    requires pid in Reach(ParentsOf(rows), root)
    ensures exists i :: 0 <= i < 5 && Belongs(rows, root, backend, pid, FIVE[i])
    ensures forall i, j :: 0 <= i < j < 5 && Belongs(rows, root, backend, pid, FIVE[i])
              ==> !Belongs(rows, root, backend, pid, FIVE[j])
    ensures Belongs(rows, root, backend, pid, CodexAgent)
       <==> || Belongs(rows, root, backend, pid, CodexAppServer)
            || Belongs(rows, root, backend, pid, CodexSdk)
            || Belongs(rows, root, backend, pid, CodexCommands)
  {
    assert FIVE[0] == Main && FIVE[1] == Backend && FIVE[2] == PluginHost && FIVE[3] == CodexAgent && FIVE[4] == Other;
    if pid != root && Some(pid) != backend && !IsPluginHost(rows[pid]) && Channel(rows, root, pid).Some? {
      assert Belongs(rows, root, backend, pid, FIVE[3]);
      var channel := Channel(rows, root, pid).value;
      assert channel.AppServer? || channel.Sdk?;
    } else if pid == root {
      assert Belongs(rows, root, backend, pid, FIVE[0]);
    } else if Some(pid) == backend {
      assert Belongs(rows, root, backend, pid, FIVE[1]);
    } else if IsPluginHost(rows[pid]) {
      assert Belongs(rows, root, backend, pid, FIVE[2]);
    } else {
      assert Belongs(rows, root, backend, pid, FIVE[4]);
    }
  }

  lemma TotalIsConserved(s: Snapshot, rows: Rows, root: Pid, backend: Option<Pid>, cpuCount: nat)
    requires Attributes(s, rows, root, backend, cpuCount)
    ensures Sums(s.total, [s.main, s.backend, s.pluginHost, s.codexAgent, s.other])
  {
    FiveGroupsSplit(rows, root, backend);
    GroupsSum(s, rows, root, backend, cpuCount, Total, FIVE);
    FiveUsages(s);
  }

  lemma FiveUsages(s: Snapshot)
    ensures Usages(s, FIVE) == [s.main, s.backend, s.pluginHost, s.codexAgent, s.other]
    ensures Usages(s, [CodexAppServer, CodexSdk, CodexCommands]) == [s.codexAppServer, s.codexSdk, s.codexCommands]
  {
  }

  lemma AgentIsConserved(s: Snapshot, rows: Rows, root: Pid, backend: Option<Pid>, cpuCount: nat)
    requires Attributes(s, rows, root, backend, cpuCount)
    ensures Sums(s.codexAgent, [s.codexAppServer, s.codexSdk, s.codexCommands])
  {
    ThreeGroupsSplit(rows, root, backend);
    GroupsSum(s, rows, root, backend, cpuCount, CodexAgent, [CodexAppServer, CodexSdk, CodexCommands]);
    FiveUsages(s);
  }

  /** Every process of the tree is charged to exactly one of five groups, and
      every Codex process to exactly one of three. */
  lemma UsageIsConserved(s: Snapshot, rows: Rows, root: Pid, backend: Option<Pid>, cpuCount: nat)
    requires Attributes(s, rows, root, backend, cpuCount)
    ensures Sums(s.total, [s.main, s.backend, s.pluginHost, s.codexAgent, s.other])
    ensures Sums(s.codexAgent, [s.codexAppServer, s.codexSdk, s.codexCommands])
    ensures forall group :: 0.0 <= UsageOf(s, group).cpu <= 100.0
  {
    TotalIsConserved(s, rows, root, backend, cpuCount);
    AgentIsConserved(s, rows, root, backend, cpuCount);
  }

  lemma FiveGroupsSplit(rows: Rows, root: Pid, backend: Option<Pid>)
    ensures Splits(Members(rows, root, backend, Reach(ParentsOf(rows), root), Total),
                   GroupMembers(rows, root, backend, FIVE))
  {
    var tree, parts := Reach(ParentsOf(rows), root), GroupMembers(rows, root, backend, FIVE);
    forall pid | pid in tree
      ensures pid in parts[0] || pid in parts[1] || pid in parts[2] || pid in parts[3] || pid in parts[4]
      ensures forall i, j :: 0 <= i < j < 5 ==> !(pid in parts[i] && pid in parts[j])
    {
      ChargedOnce(rows, root, backend, pid);
    }
    SplitFive(Members(rows, root, backend, tree, Total), parts);
  }

  lemma ThreeGroupsSplit(rows: Rows, root: Pid, backend: Option<Pid>)
    ensures Splits(Members(rows, root, backend, Reach(ParentsOf(rows), root), CodexAgent),
                   GroupMembers(rows, root, backend, [CodexAppServer, CodexSdk, CodexCommands]))
  {
    var tree := Reach(ParentsOf(rows), root);
    var parts := GroupMembers(rows, root, backend, [CodexAppServer, CodexSdk, CodexCommands]);
    forall pid | pid in tree {
      ChargedOnce(rows, root, backend, pid);
    }
    assert parts == [parts[0], parts[1], parts[2]];
    SplitThree(Members(rows, root, backend, tree, CodexAgent), parts[0], parts[1], parts[2]);
  }
}
