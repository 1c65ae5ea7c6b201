/** The second pass: charge every process of the tree to its groups. CPU shares
    are real numbers here, so rounding is not modelled. */
module TreeAggregate {
  import opened Common
  import opened ProcessTree
  import opened TreeSelect

  // Rows that count.

  type Rows = map<Pid, Sample>

  /** The only row of its pid, and listed once. */
  ghost predicate Alone(samples: multiset<Sample>, sample: Sample) {
    samples[sample] == 1 && forall other :: other in samples && other.pid == sample.pid ==> other == sample
  }

  ghost predicate Keeps(rows: Rows, samples: multiset<Sample>) {
    forall pid: Pid, sample: Sample ::
      (pid in rows && rows[pid] == sample) <==> (sample.pid == pid && Alone(samples, sample))
  }

  /** A function of the multiset of samples: their order is not visible in it. */
  ghost function UniqueRows(samples: multiset<Sample>): (rows: Rows)
    ensures Keeps(rows, samples)
  {
    map sample | sample in samples && Alone(samples, sample) :: sample.pid := sample
  }

  lemma KeptRowsAgree(rows: Rows, rows': Rows, samples: multiset<Sample>)
    requires Keeps(rows, samples) && Keeps(rows', samples)
    ensures rows == rows'
  {
    forall pid | pid in rows
      ensures pid in rows' && rows'[pid] == rows[pid]
    {
      assert rows[pid].pid == pid && Alone(samples, rows[pid]);
    }
    forall pid | pid in rows'
      ensures pid in rows
    {
      assert rows'[pid].pid == pid && Alone(samples, rows'[pid]);
    }
  }

  ghost predicate Occurs(samples: multiset<Sample>, pid: Pid) {
    exists sample :: sample in samples && sample.pid == pid
  }

  lemma AloneAmongMore(samples: multiset<Sample>, sample: Sample, other: Sample)
    ensures Alone(samples + multiset{sample}, other)
        <==> if other.pid == sample.pid then other == sample && !Occurs(samples, sample.pid)
             else Alone(samples, other)
  {
    var more := samples + multiset{sample};
    assert forall x :: x in more <==> x in samples || x == sample;
    if other.pid == sample.pid && Alone(more, other) {
      assert other == sample && samples[sample] == 0;
      assert forall x :: x in samples && x.pid == sample.pid ==> x == sample;
    }
  }

  lemma AddSampleRow(rows: Rows, samples: multiset<Sample>, sample: Sample)
    requires Keeps(rows, samples)
    ensures Keeps(if Occurs(samples, sample.pid) then rows - {sample.pid} else rows[sample.pid := sample],
                  samples + multiset{sample})
  {
    var rows' := if Occurs(samples, sample.pid) then rows - {sample.pid} else rows[sample.pid := sample];
    forall pid: Pid, other: Sample
      ensures (pid in rows' && rows'[pid] == other)
         <==> (other.pid == pid && Alone(samples + multiset{sample}, other))
    {
      AloneAmongMore(samples, sample, other);
      assert (pid in rows && rows[pid] == other) <==> (other.pid == pid && Alone(samples, other));
    }
  }

  ghost function ParentsOf(rows: Rows): Parents {
    map pid | pid in rows :: rows[pid].parent
  }

  // The channel a process inherits.

  /** The channel of the nearest Codex root on the way up to the tree root. */
  ghost function ChannelAt(rows: Rows, root: Pid, pid: Pid, n: nat): Option<CodexChannel>
    requires Below(ParentsOf(rows), root, pid, n)
    decreases n
  {
    var own := CodexChannelOf(rows[pid]);
    if own.Some? || n == 0 then own else ChannelAt(rows, root, rows[pid].parent.value, n - 1)
  }

  ghost function Channel(rows: Rows, root: Pid, pid: Pid): Option<CodexChannel>
    requires Reachable(ParentsOf(rows), root, pid)
  {
    var n: nat :| Below(ParentsOf(rows), root, pid, n);
    ChannelAt(rows, root, pid, n)
  }

  lemma ChannelOfRoot(rows: Rows, root: Pid)
    requires root in rows
    ensures Reachable(ParentsOf(rows), root, root)
    ensures Channel(rows, root, root) == CodexChannelOf(rows[root])
  {
    assert Below(ParentsOf(rows), root, root, 0);
    var n: nat :| Below(ParentsOf(rows), root, root, n)
               && Channel(rows, root, root) == ChannelAt(rows, root, root, n);
    DepthIsUnique(ParentsOf(rows), root, root, n, 0);
  }

  lemma ChannelOfChild(rows: Rows, root: Pid, pid: Pid, child: Pid)
    requires Reachable(ParentsOf(rows), root, pid)
    requires child != root && child in rows && rows[child].parent == Some(pid)
    ensures Reachable(ParentsOf(rows), root, child)
    ensures var own := CodexChannelOf(rows[child]);
      Channel(rows, root, child) == if own.Some? then own else Channel(rows, root, pid)
  {
    var parents := ParentsOf(rows);
    var n: nat :| Below(parents, root, pid, n) && Channel(rows, root, pid) == ChannelAt(rows, root, pid, n);
    assert Below(parents, root, child, n + 1);
    var m: nat :| Below(parents, root, child, m) && Channel(rows, root, child) == ChannelAt(rows, root, child, m);
    DepthIsUnique(parents, root, child, m, n + 1);
    var own := CodexChannelOf(rows[child]);
    assert ChannelAt(rows, root, child, n + 1) == if own.Some? then own else ChannelAt(rows, root, pid, n);
  }

  // Groups.

  datatype UsageGroup = UsageGroup(cpu: real, memory: U64, count: U64)

  const NO_USAGE := UsageGroup(0.0, 0, 0)

  datatype Snapshot = Snapshot(
    total: UsageGroup,
    main: UsageGroup,
    backend: UsageGroup,
    pluginHost: UsageGroup,
    codexAgent: UsageGroup,
    codexAppServer: UsageGroup,
    codexSdk: UsageGroup,
    codexCommands: UsageGroup,
    other: UsageGroup)

  const EMPTY_SNAPSHOT := Snapshot(NO_USAGE, NO_USAGE, NO_USAGE, NO_USAGE, NO_USAGE,
                                   NO_USAGE, NO_USAGE, NO_USAGE, NO_USAGE)

  datatype Group =
    Total | Main | Backend | PluginHost | CodexAgent | CodexAppServer | CodexSdk | CodexCommands | Other

  function UsageOf(snapshot: Snapshot, group: Group): UsageGroup {
    match group
    case Total => snapshot.total
    case Main => snapshot.main
    case Backend => snapshot.backend
    case PluginHost => snapshot.pluginHost
    case CodexAgent => snapshot.codexAgent
    case CodexAppServer => snapshot.codexAppServer
    case CodexSdk => snapshot.codexSdk
    case CodexCommands => snapshot.codexCommands
    case Other => snapshot.other
  }

  function AddSample(group: UsageGroup, sample: Sample): UsageGroup {
    UsageGroup(
      if sample.cpu.Some? && sample.cpu.value >= 0.0 then group.cpu + sample.cpu.value else group.cpu,
      SaturatingAdd(group.memory, sample.memory),
      SaturatingAdd(group.count, 1))
  }

  function Clamp(x: real): real {
    if x < 0.0 then 0.0 else if x > 100.0 then 100.0 else x
  }

  function NormalizeCpu(group: UsageGroup, cpuCount: nat): UsageGroup {
    group.(cpu := if cpuCount == 0 then 0.0 else Clamp(group.cpu / (cpuCount as real)))
  }

  function Normalize(s: Snapshot, cpuCount: nat): Snapshot {
    Snapshot(
      NormalizeCpu(s.total, cpuCount), NormalizeCpu(s.main, cpuCount), NormalizeCpu(s.backend, cpuCount),
      NormalizeCpu(s.pluginHost, cpuCount), NormalizeCpu(s.codexAgent, cpuCount),
      NormalizeCpu(s.codexAppServer, cpuCount), NormalizeCpu(s.codexSdk, cpuCount),
      NormalizeCpu(s.codexCommands, cpuCount), NormalizeCpu(s.other, cpuCount))
  }

  // What the snapshot should be.

  /** Which groups a process of the tree belongs to. */
  ghost predicate Belongs(rows: Rows, root: Pid, backend: Option<Pid>, pid: Pid, group: Group)
    requires Reachable(ParentsOf(rows), root, pid) && pid in rows
  {
    var channel := Channel(rows, root, pid);
    var plain := pid != root && Some(pid) != backend && !IsPluginHost(rows[pid]);
    var agent := plain && channel.Some?;
    var itself := CodexChannelOf(rows[pid]).Some? || IsCodexResourceHelper(rows[pid]);
    match group
    case Total => true
    case Main => pid == root
    case Backend => pid != root && Some(pid) == backend
    case PluginHost => pid != root && Some(pid) != backend && IsPluginHost(rows[pid])
    case CodexAgent => agent
    case CodexAppServer => agent && itself && channel == Some(AppServer)
    case CodexSdk => agent && itself && channel == Some(Sdk)
    case CodexCommands => agent && !itself
    case Other => plain && channel.None?
  }

  ghost function Members(rows: Rows, root: Pid, backend: Option<Pid>, pids: set<Pid>, group: Group): set<Pid>
    requires pids <= Reach(ParentsOf(rows), root)
  {
    set pid | pid in pids && Belongs(rows, root, backend, pid, group)
  }

  /** Exact, unsaturated sums over a set of processes. */
  datatype Load = Load(cpu: real, memory: nat)

  function Share(sample: Sample): real {
    if sample.cpu.Some? && sample.cpu.value >= 0.0 then sample.cpu.value else 0.0
  }

  ghost function LoadOf(rows: Rows, pids: set<Pid>): (load: Load)
    requires pids <= rows.Keys
    ensures load.cpu >= 0.0
  {
    if pids == {} then Load(0.0, 0)
    else
      var pid :| pid in pids;
      var rest := LoadOf(rows, pids - {pid});
      Load(rest.cpu + Share(rows[pid]), rest.memory + rows[pid].memory)
  }

  ghost function Cap(n: nat): U64 {
    if n > U64_MAX then U64_MAX else n
  }

  ghost function Usage(rows: Rows, pids: set<Pid>): UsageGroup
    requires pids <= rows.Keys
  {
    UsageGroup(LoadOf(rows, pids).cpu, Cap(LoadOf(rows, pids).memory), Cap(|pids|))
  }

  ghost function Tally(rows: Rows, root: Pid, backend: Option<Pid>, pids: set<Pid>, group: Group): UsageGroup
    requires pids <= Reach(ParentsOf(rows), root)
  {
    Usage(rows, Members(rows, root, backend, pids, group))
  }

  /** The specification of the whole pass. */
  ghost predicate Attributes(snapshot: Snapshot, rows: Rows, root: Pid, backend: Option<Pid>, cpuCount: nat) {
    forall group :: UsageOf(snapshot, group)
      == NormalizeCpu(Tally(rows, root, backend, Reach(ParentsOf(rows), root), group), cpuCount)
  }

  lemma {:induction false} LoadWithout(rows: Rows, pids: set<Pid>, pid: Pid)
    requires pids <= rows.Keys && pid in pids
    ensures var rest := LoadOf(rows, pids - {pid});
      LoadOf(rows, pids) == Load(rest.cpu + Share(rows[pid]), rest.memory + rows[pid].memory)
    decreases |pids|
  {
    var first :| first in pids
      && LoadOf(rows, pids) == (var rest := LoadOf(rows, pids - {first});
                                Load(rest.cpu + Share(rows[first]), rest.memory + rows[first].memory));
    if first != pid {
      LoadWithout(rows, pids - {first}, pid);
      LoadWithout(rows, pids - {pid}, first);
      assert pids - {first} - {pid} == pids - {pid} - {first};
    }
  }

  lemma AddingOne(rows: Rows, pids: set<Pid>, pid: Pid)
    requires pids <= rows.Keys && pid in rows && pid !in pids
    ensures Usage(rows, pids + {pid}) == AddSample(Usage(rows, pids), rows[pid])
  {
    LoadWithout(rows, pids + {pid}, pid);
    assert pids + {pid} - {pid} == pids;
  }

  /** The branches of the loop: what one sample adds to which group. */
  function Attribute(s: Snapshot, sample: Sample, root: Pid, backend: Option<Pid>,
                     isCodexRoot: bool, channel: Option<CodexChannel>): Snapshot {
    var s1 := s.(total := AddSample(s.total, sample));
    if sample.pid == root then s1.(main := AddSample(s.main, sample))
    else if Some(sample.pid) == backend then s1.(backend := AddSample(s.backend, sample))
    else if IsPluginHost(sample) then s1.(pluginHost := AddSample(s.pluginHost, sample))
    else if channel.Some? then
      var s2 := s1.(codexAgent := AddSample(s.codexAgent, sample));
      if isCodexRoot || IsCodexResourceHelper(sample) then
        match channel.value
        case AppServer => s2.(codexAppServer := AddSample(s.codexAppServer, sample))
        case Sdk => s2.(codexSdk := AddSample(s.codexSdk, sample))
      else s2.(codexCommands := AddSample(s.codexCommands, sample))
    else s1.(other := AddSample(s.other, sample))
  }

  ghost predicate Tallies(s: Snapshot, rows: Rows, root: Pid, backend: Option<Pid>, pids: set<Pid>)
    requires pids <= Reach(ParentsOf(rows), root)
  {
    forall group :: UsageOf(s, group) == Tally(rows, root, backend, pids, group)
  }

  lemma AttributeFollowsGroups(s: Snapshot, rows: Rows, root: Pid, backend: Option<Pid>, pid: Pid, group: Group)
    requires pid in rows && Reachable(ParentsOf(rows), root, pid) && rows[pid].pid == pid
    ensures var s' := Attribute(s, rows[pid], root, backend, CodexChannelOf(rows[pid]).Some?, Channel(rows, root, pid));
      UsageOf(s', group) == if Belongs(rows, root, backend, pid, group)
                            then AddSample(UsageOf(s, group), rows[pid]) else UsageOf(s, group)
  {
  }

  lemma TallyGrows(rows: Rows, root: Pid, backend: Option<Pid>, pids: set<Pid>, pid: Pid, group: Group)
    requires pids <= Reach(ParentsOf(rows), root) && pid in Reach(ParentsOf(rows), root) && pid !in pids
    ensures var before := Tally(rows, root, backend, pids, group);
      Tally(rows, root, backend, pids + {pid}, group)
      == if Belongs(rows, root, backend, pid, group) then AddSample(before, rows[pid]) else before
  {
    var before := Members(rows, root, backend, pids, group);
    var after := Members(rows, root, backend, pids + {pid}, group);
    if Belongs(rows, root, backend, pid, group) {
      assert after == before + {pid};
      AddingOne(rows, before, pid);
    } else {
      assert after == before;
    }
  }

  lemma AttributeTallies(s: Snapshot, rows: Rows, root: Pid, backend: Option<Pid>, pids: set<Pid>, pid: Pid)
    requires pids <= Reach(ParentsOf(rows), root) && pid in Reach(ParentsOf(rows), root) && pid !in pids
    requires rows[pid].pid == pid
    requires Tallies(s, rows, root, backend, pids)
    ensures Tallies(
              Attribute(s, rows[pid], root, backend, CodexChannelOf(rows[pid]).Some?, Channel(rows, root, pid)),
              rows, root, backend, pids + {pid})
  {
    var s' := Attribute(s, rows[pid], root, backend, CodexChannelOf(rows[pid]).Some?, Channel(rows, root, pid));
    forall group
      ensures UsageOf(s', group) == Tally(rows, root, backend, pids + {pid}, group)
    {
      AttributeFollowsGroups(s, rows, root, backend, pid, group);
      TallyGrows(rows, root, backend, pids, pid, group);
    }
  }

  // The pass itself.

  ghost predicate Counts(rows: Rows, duplicates: set<Pid>, samples: multiset<Sample>) {
    && Keeps(rows, samples)
    && forall pid: Pid :: pid in duplicates <==> pid !in rows && Occurs(samples, pid)
  }

  lemma CountsMore(rows: Rows, duplicates: set<Pid>, samples: multiset<Sample>, sample: Sample)
    requires Counts(rows, duplicates, samples)
    ensures var more, pid := samples + multiset{sample}, sample.pid;
      if pid in duplicates then Counts(rows, duplicates, more)
      else if pid in rows then Counts(rows - {pid}, duplicates + {pid}, more)
      else Counts(rows[pid := sample], duplicates, more)
  {
    AddSampleRow(rows, samples, sample);
    assert sample.pid in rows ==> Alone(samples, rows[sample.pid]);
    assert sample.pid in duplicates ==> rows - {sample.pid} == rows;
    var more := samples + multiset{sample};
    assert sample in more;
    forall pid: Pid
      ensures Occurs(more, pid) <==> Occurs(samples, pid) || pid == sample.pid
    {
      if Occurs(samples, pid) {
        var other :| other in samples && other.pid == pid;
        assert other in more;
      }
    }
  }

  method UniqueByPid(samples: seq<Sample>) returns (byPid: Rows)
    ensures byPid == UniqueRows(multiset(samples))
  {
    byPid := map[];
    var duplicates: set<Pid> := {};
    for i := 0 to |samples|
      invariant Counts(byPid, duplicates, multiset(samples[..i]))
    {
      var sample := samples[i];
      assert samples[..i + 1] == samples[..i] + [sample];
      CountsMore(byPid, duplicates, multiset(samples[..i]), sample);
      if sample.pid in duplicates {
      } else if sample.pid in byPid {
        byPid := byPid - {sample.pid};
        duplicates := duplicates + {sample.pid};
      } else {
        byPid := byPid[sample.pid := sample];
      }
    }
    assert samples[..|samples|] == samples;
    KeptRowsAgree(byPid, UniqueRows(multiset(samples)), multiset(samples));
  }

  type Entry = (Pid, Option<CodexChannel>)

  ghost predicate Queued(pending: seq<Entry>, pid: Pid) {
    exists entry :: entry in pending && entry.0 == pid
  }

  function Resolve(own: Option<CodexChannel>, inherited: Option<CodexChannel>): Option<CodexChannel> {
    if own.Some? then own else inherited
  }

  /** A waiting entry carries the channel its process inherits. */
  ghost predicate EntryOk(rows: Rows, root: Pid, visited: set<Pid>, entry: Entry) {
    entry.0 in rows ==>
      && Reachable(ParentsOf(rows), root, entry.0)
      && (entry.0 in visited || Resolve(CodexChannelOf(rows[entry.0]), entry.1) == Channel(rows, root, entry.0))
  }

  ghost predicate Charging(rows: Rows, root: Pid, pending: seq<Entry>, visited: set<Pid>) {
    && (forall pid :: pid in rows ==> rows[pid].pid == pid)
    && root in rows
    && visited * rows.Keys <= Reach(ParentsOf(rows), root)
    && (root in visited || (visited == {} && pending == [(root, None)]))
    && (forall entry :: entry in pending ==> EntryOk(rows, root, visited, entry))
    && (forall c :: c in rows && rows[c].parent.Some? && rows[c].parent.value in visited * rows.Keys
          ==> c in visited || Queued(pending, c))
  }

  lemma DroppingVisited(rows: Rows, root: Pid, pending: seq<Entry>, visited: set<Pid>, seen: set<Pid>)
    requires pending != [] && Charging(rows, root, pending, visited)
    requires seen == visited + {pending[0].0}
    requires pending[0].0 in visited || pending[0].0 !in rows
    ensures Charging(rows, root, pending[1..], seen)
  {
    var rest := pending[1..];
    assert pending[0] in pending;
    forall pid | Queued(pending, pid) && pid != pending[0].0
      ensures Queued(rest, pid)
    {
      var entry :| entry in pending && entry.0 == pid;
      assert entry in rest;
    }
    forall entry | entry in rest
      ensures EntryOk(rows, root, seen, entry)
    {
      assert entry in pending;
    }
  }

  lemma VisitingCharges(rows: Rows, root: Pid, pending: seq<Entry>, visited: set<Pid>,
                        children: Children, more: seq<Entry>)
    requires pending != [] && Charging(rows, root, pending, visited)
    requires var pid := pending[0].0;
      && pid in rows && pid !in visited && IsIndex(ParentsOf(rows), children)
      && (forall c: Pid, channel :: (c, channel) in more
            <==> Lists(children, pid, c) && channel == Resolve(CodexChannelOf(rows[pid]), pending[0].1))
    ensures Charging(rows, root, pending[1..] + more, visited + {pending[0].0})
    ensures pending[0].0 in Reach(ParentsOf(rows), root)
    ensures Resolve(CodexChannelOf(rows[pending[0].0]), pending[0].1) == Channel(rows, root, pending[0].0)
  {
    var (pid, inherited) := pending[0];
    var parents := ParentsOf(rows);
    var channel := Resolve(CodexChannelOf(rows[pid]), inherited);
    var next, seen := pending[1..] + more, visited + {pid};
    assert pending[0] in pending;
    assert EntryOk(rows, root, visited, pending[0]);
    assert root in seen;
    forall entry | entry in next
      ensures EntryOk(rows, root, seen, entry)
    {
      if entry in pending[1..] {
        assert entry in pending;
        assert EntryOk(rows, root, visited, entry);
      } else {
        assert entry in more && (entry.0, entry.1) in more;
        assert Lists(children, pid, entry.0);
        ChildIsReachable(parents, root, pid, entry.0);
        if entry.0 != root {
          ChannelOfChild(rows, root, pid, entry.0);
        }
      }
    }
    forall c | c in rows && rows[c].parent.Some? && rows[c].parent.value in seen * rows.Keys
      ensures c in seen || Queued(next, c)
    {
      if rows[c].parent == Some(pid) {
        assert Lists(children, pid, c);
        assert (c, channel) in more;
        assert (c, channel) in next;
      } else if c !in visited && c != pid {
        var entry :| entry in pending && entry.0 == c;
        assert entry in pending[1..];
        assert entry in next;
      }
    }
  }

  lemma AllCharged(rows: Rows, root: Pid, visited: set<Pid>)
    requires Charging(rows, root, [], visited)
    ensures visited * rows.Keys == Reach(ParentsOf(rows), root)
  {
    assert forall c :: !Queued([], c);
    ClosedAndReachable(ParentsOf(rows), root, visited * rows.Keys);
  }

  /** The result depends on the multiset of samples only: neither their order
      nor the iteration order of the hash maps shows. */
  method AggregateSnapshot(samples: seq<Sample>, root: Pid, backend: Option<Pid>, cpuCount: nat)
    returns (snapshot: Snapshot)
    ensures Attributes(snapshot, UniqueRows(multiset(samples)), root, backend, cpuCount)
  {
    var byPid := UniqueByPid(samples);
    var children := IndexChildren(map pid | pid in byPid :: byPid[pid].parent);
    snapshot := EMPTY_SNAPSHOT;
    if root !in byPid {
      NothingReachable(byPid, root);
      NormalizedTallies(snapshot, byPid, root, backend, cpuCount);
    } else {
      snapshot := Accumulate(byPid, children, root, backend);
      NormalizedTallies(snapshot, byPid, root, backend, cpuCount);
      snapshot := Normalize(snapshot, cpuCount);
    }
  }

  lemma NormalizedTallies(s: Snapshot, rows: Rows, root: Pid, backend: Option<Pid>, cpuCount: nat)
    requires Tallies(s, rows, root, backend, Reach(ParentsOf(rows), root))
    ensures Attributes(Normalize(s, cpuCount), rows, root, backend, cpuCount)
    ensures s == EMPTY_SNAPSHOT ==> Normalize(s, cpuCount) == s
  {
    forall group
      ensures UsageOf(Normalize(s, cpuCount), group) == NormalizeCpu(UsageOf(s, group), cpuCount)
    {
    }
  }

  lemma NothingReachable(rows: Rows, root: Pid)
    requires root !in rows
    ensures Reach(ParentsOf(rows), root) == {}
  {
    forall pid, n: nat
      ensures !Below(ParentsOf(rows), root, pid, n)
    {
      RootIsBelow(ParentsOf(rows), root, pid, n);
    }
  }

  lemma {:induction false} RootIsBelow(parents: Parents, root: Pid, pid: Pid, n: nat)
    ensures Below(parents, root, pid, n) ==> root in parents
    decreases n
  {
    if n > 0 && pid in parents && parents[pid].Some? {
      RootIsBelow(parents, root, parents[pid].value, n - 1);
    }
  }

  ghost predicate AreRoots(codexRoots: map<Pid, CodexChannel>, rows: Rows) {
    forall pid: Pid :: (if pid in codexRoots then Some(codexRoots[pid]) else None)
                    == (if pid in rows then CodexChannelOf(rows[pid]) else None)
  }

  method ChildEntries(children: Children, pid: Pid, channel: Option<CodexChannel>) returns (more: seq<Entry>)
    ensures forall c: Pid, ch :: (c, ch) in more <==> Lists(children, pid, c) && ch == channel
  {
    var found := if pid in children then children[pid] else [];
    more := seq(|found|, i requires 0 <= i < |found| => (found[i], channel));
    forall c: Pid | c in found
      ensures (c, channel) in more
    {
      var i :| 0 <= i < |found| && found[i] == c;
      assert more[i] == (c, channel);
    }
  }

  /** One turn of the worklist loop. */
  method ChargeNext(byPid: Rows, children: Children, codexRoots: map<Pid, CodexChannel>, root: Pid,
                    backend: Option<Pid>, s: Snapshot, pending: seq<Entry>, visited: set<Pid>)
    returns (s': Snapshot, pending': seq<Entry>, visited': set<Pid>)
    requires IsIndex(ParentsOf(byPid), children) && AreRoots(codexRoots, byPid)
    requires pending != [] && Charging(byPid, root, pending, visited)
    requires Tallies(s, byPid, root, backend, visited * byPid.Keys)
    ensures Charging(byPid, root, pending', visited')
    ensures Tallies(s', byPid, root, backend, visited' * byPid.Keys)
    ensures byPid.Keys - visited' < byPid.Keys - visited
         || (byPid.Keys - visited' == byPid.Keys - visited && |pending'| < |pending|)
  {
    var (pid, inherited) := pending[0];
    if pid in visited {
      assert visited == visited + {pid};
      DroppingVisited(byPid, root, pending, visited, visited);
      return s, pending[1..], visited;
    }
    visited' := visited + {pid};
    if pid !in byPid {
      DroppingVisited(byPid, root, pending, visited, visited');
      assert visited' * byPid.Keys == visited * byPid.Keys;
      assert byPid.Keys - visited' == byPid.Keys - visited;
      return s, pending[1..], visited';
    }
    var channel := if pid in codexRoots then Some(codexRoots[pid]) else inherited;
    var more := ChildEntries(children, pid, channel);
    assert channel == Resolve(CodexChannelOf(byPid[pid]), inherited);
    VisitingCharges(byPid, root, pending, visited, children, more);
    AttributeTallies(s, byPid, root, backend, visited * byPid.Keys, pid);
    assert visited' * byPid.Keys == visited * byPid.Keys + {pid};
    s' := Attribute(s, byPid[pid], root, backend, pid in codexRoots, channel);
    pending' := pending[1..] + more;
  }

  method Accumulate(byPid: Rows, children: Children, root: Pid, backend: Option<Pid>) returns (snapshot: Snapshot)
    requires root in byPid && IsIndex(ParentsOf(byPid), children)
    requires forall pid :: pid in byPid ==> byPid[pid].pid == pid
    ensures Tallies(snapshot, byPid, root, backend, Reach(ParentsOf(byPid), root))
  {
    var codexRoots := map pid | pid in byPid && CodexChannelOf(byPid[pid]).Some? :: CodexChannelOf(byPid[pid]).value;
    snapshot := EMPTY_SNAPSHOT;
    var pending: seq<Entry> := [(root, None)];
    var visited: set<Pid> := {};
    ChannelOfRoot(byPid, root);
    assert visited * byPid.Keys == {};
    while pending != []
      invariant Charging(byPid, root, pending, visited)
      invariant Tallies(snapshot, byPid, root, backend, visited * byPid.Keys)
      decreases |byPid.Keys - visited|, |pending|
    {
      ghost var before := byPid.Keys - visited;
      snapshot, pending, visited := ChargeNext(byPid, children, codexRoots, root, backend, snapshot, pending, visited);
      if byPid.Keys - visited < before {
        SmallerSet(byPid.Keys - visited, before);
      }
    }
    AllCharged(byPid, root, visited);
  }
}
