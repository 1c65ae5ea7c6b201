/** The cheap first pass over the process table: find the pids of the tree. */
module TreeSelect {
  import opened Common
  import opened ProcessTree

  datatype Topology = Topology(pid: Pid, parent: Option<Pid>)

  /** Every row of `pid` names this parent, and there is one. */
  ghost predicate Settles(rows: set<Topology>, pid: Pid, parent: Option<Pid>) {
    Topology(pid, parent) in rows && forall row :: row in rows && row.pid == pid ==> row.parent == parent
  }

  /** The pids all of whose rows name the same parent. */
  ghost function Consistent(rows: set<Topology>): Parents {
    map row | row in rows && Settles(rows, row.pid, row.parent) :: row.pid := row.parent
  }

  ghost predicate Resolves(parents: Parents, rows: set<Topology>) {
    forall pid: Pid, parent: Option<Pid> ::
      (pid in parents && parents[pid] == parent) <==> Settles(rows, pid, parent)
  }

  lemma ResolvedIsConsistent(parents: Parents, rows: set<Topology>)
    requires Resolves(parents, rows)
    ensures parents == Consistent(rows)
  {
    forall pid: Pid, parent: Option<Pid>
      ensures (pid in Consistent(rows) && Consistent(rows)[pid] == parent) <==> Settles(rows, pid, parent)
    {
    }
    forall pid | pid in parents
      ensures pid in Consistent(rows) && Consistent(rows)[pid] == parents[pid]
    {
      assert Settles(rows, pid, parents[pid]);
    }
    forall pid | pid in Consistent(rows)
      ensures pid in parents
    {
      assert Settles(rows, pid, Consistent(rows)[pid]);
    }
  }

  ghost function RowsOf(topology: seq<Topology>): set<Topology> {
    set row | row in topology
  }

  ghost predicate Ascending(pids: seq<Pid>) {
    forall i, j :: 0 <= i < j < |pids| ==> pids[i] < pids[j]
  }

  ghost predicate Distinct(pids: seq<Pid>) {
    forall i, j :: 0 <= i < j < |pids| ==> pids[i] != pids[j]
  }

  ghost function PidSet(pids: seq<Pid>): set<Pid> {
    set pid | pid in pids
  }

  method InsertAscending(pids: seq<Pid>, pid: Pid) returns (sorted: seq<Pid>)
    requires Ascending(pids) && pid !in PidSet(pids)
    ensures Ascending(sorted) && PidSet(sorted) == PidSet(pids) + {pid}
  {
    var k := 0;
    while k < |pids| && pids[k] < pid
      invariant k <= |pids|
      invariant forall j :: 0 <= j < k ==> pids[j] < pid
    {
      k := k + 1;
    }
    InsertionAscends(pids, pid, k);
    sorted := pids[..k] + [pid] + pids[k..];
  }

  lemma InsertionAscends(pids: seq<Pid>, pid: Pid, k: nat)
    requires Ascending(pids) && k <= |pids|
    requires forall j :: 0 <= j < k ==> pids[j] < pid
    requires k < |pids| ==> pid < pids[k]
    ensures var sorted := pids[..k] + [pid] + pids[k..];
      Ascending(sorted) && PidSet(sorted) == PidSet(pids) + {pid}
  {
    var sorted := pids[..k] + [pid] + pids[k..];
    assert forall i :: 0 <= i < |sorted| ==>
      sorted[i] == if i < k then pids[i] else if i == k then pid else pids[i - 1];
    forall x | x in pids
      ensures x in sorted
    {
      var j :| 0 <= j < |pids| && pids[j] == x;
      assert sorted[if j < k then j else j + 1] == x;
    }
    assert sorted[k] == pid;
  }

  /** `sort_unstable` on distinct pids. */
  method SortAscending(pids: seq<Pid>) returns (sorted: seq<Pid>)
    requires Distinct(pids)
    ensures Ascending(sorted) && PidSet(sorted) == PidSet(pids)
  {
    sorted := [];
    for i := 0 to |pids|
      invariant Ascending(sorted)
      invariant PidSet(sorted) == PidSet(pids[..i])
    {
      assert pids[..i + 1] == pids[..i] + [pids[i]];
      assert pids[i] !in PidSet(pids[..i]);
      sorted := InsertAscending(sorted, pids[i]);
    }
    assert pids[..|pids|] == pids;
  }

  /** What one more row does to the pids whose rows agree. */
  lemma AddRow(parents: Parents, rows: set<Topology>, row: Topology)
    requires Resolves(parents, rows)
    ensures var known := exists other :: other in rows && other.pid == row.pid;
      var parents' := if !known then parents[row.pid := row.parent]
                      else if row.pid in parents && parents[row.pid] == row.parent then parents
                      else parents - {row.pid};
      Resolves(parents', rows + {row})
  {
    forall pid: Pid, parent: Option<Pid> | pid != row.pid
      ensures Settles(rows + {row}, pid, parent) == Settles(rows, pid, parent)
    {
    }
    forall parent: Option<Pid>
      ensures Settles(rows + {row}, row.pid, parent) <==>
              parent == row.parent && (forall other :: other in rows && other.pid == row.pid ==> other.parent == parent)
    {
    }
    if other :| other in rows && other.pid == row.pid {
      assert (row.pid in parents && parents[row.pid] == row.parent) <==> Settles(rows, row.pid, row.parent);
    }
  }

  /** Buffers that are kept between samples. */
  class SnapshotScratch {
    var topology: seq<Topology>
    var selectedPids: seq<Pid>
    var samples: seq<Sample>
    var topologyByPid: Parents
    var conflictingPids: set<Pid>
    var childrenByParent: Children
    var pending: seq<Pid>
    var visited: set<Pid>

    constructor ()
      ensures Cleared() && topology == []
    {
      topology, selectedPids, samples, pending := [], [], [], [];
      topologyByPid, childrenByParent := map[], map[];
      conflictingPids, visited := {}, {};
    }

    ghost predicate Cleared()
      reads this
    {
      && selectedPids == [] && samples == [] && topologyByPid == map[] && conflictingPids == {}
      && childrenByParent == map[] && pending == [] && visited == {}
    }

    method Clear()
      modifies this
      ensures Cleared() && topology == []
    {
      topology, selectedPids, samples, pending := [], [], [], [];
      topologyByPid, childrenByParent := map[], map[];
      conflictingPids, visited := {}, {};
    }

    method ResolveConflicts()
      requires topologyByPid == map[] && conflictingPids == {}
      modifies this`topologyByPid, this`conflictingPids
      ensures topologyByPid == Consistent(RowsOf(topology))
    {
      for i := 0 to |topology|
        invariant Resolves(topologyByPid, RowsOf(topology[..i]))
        invariant forall pid :: pid in conflictingPids
                    <==> pid !in topologyByPid && exists row :: row in RowsOf(topology[..i]) && row.pid == pid
      {
        var row := topology[i];
        ghost var rows := RowsOf(topology[..i]);
        assert topology[..i + 1] == topology[..i] + [row];
        assert RowsOf(topology[..i + 1]) == rows + {row};
        AddRow(topologyByPid, rows, row);
        assert row.pid in topologyByPid ==> Settles(rows, row.pid, topologyByPid[row.pid]);
        if row.pid in conflictingPids {
        } else if row.pid !in topologyByPid {
          topologyByPid := topologyByPid[row.pid := row.parent];
        } else if topologyByPid[row.pid] != row.parent {
          topologyByPid := topologyByPid - {row.pid};
          conflictingPids := conflictingPids + {row.pid};
        }
        assert forall other :: other in rows + {row} <==> other in rows || other == row;
      }
      assert topology[..|topology|] == topology;
      ResolvedIsConsistent(topologyByPid, RowsOf(topology));
    }

    ghost predicate Exploring(parents: Parents, root: Pid)
      reads this
    {
      && topologyByPid == parents && root in parents && IsIndex(parents, childrenByParent)
      && Distinct(selectedPids)
      && PidSet(selectedPids) == visited * parents.Keys
      && (forall pid :: pid in parents && (pid in visited || pid in pending) ==> Reachable(parents, root, pid))
      && (root in visited || root in pending)
      && (forall c | c in parents && parents[c].Some? && parents[c].value in visited * parents.Keys ::
            c in visited || c in pending)
    }

    /** One turn of the worklist loop. */
    method VisitNext(ghost parents: Parents, ghost root: Pid)
      requires Exploring(parents, root) && pending != []
      modifies this`pending, this`visited, this`selectedPids
      ensures Exploring(parents, root)
      ensures parents.Keys - visited < parents.Keys - old(visited)
           || (parents.Keys - visited == parents.Keys - old(visited) && |pending| < |old(pending)|)
    {
      var pid := pending[0];
      assert pid in pending;
      ghost var wasPending := pending;
      pending := pending[1..];
      assert forall other :: other in wasPending <==> other == pid || other in pending;
      if pid in visited {
        return;
      }
      visited := visited + {pid};
      if pid !in topologyByPid {
        return;
      }
      assert pid !in PidSet(selectedPids);
      ghost var wasSelected := selectedPids;
      selectedPids := selectedPids + [pid];
      assert PidSet(selectedPids) == PidSet(wasSelected) + {pid};
      if pid in childrenByParent {
        pending := pending + childrenByParent[pid];
      }
      forall c: Pid
        ensures c in pending <==> (c in wasPending[1..] || (c in parents && parents[c] == Some(pid)))
        ensures c in parents && parents[c] == Some(pid) ==> Reachable(parents, root, c)
      {
        assert Lists(childrenByParent, pid, c) <==> c in parents && parents[c] == Some(pid);
        if c in parents && parents[c] == Some(pid) {
          ChildIsReachable(parents, root, pid, c);
        }
      }
    }

    /** Terminates on every topology. */
    method Explore(ghost parents: Parents, ghost root: Pid)
      requires Exploring(parents, root)
      modifies this`pending, this`visited, this`selectedPids
      ensures Exploring(parents, root) && pending == []
    {
      while pending != []
        invariant Exploring(parents, root)
        decreases |parents.Keys - visited|, |pending|
      {
        ghost var before := parents.Keys - visited;
        VisitNext(parents, root);
        if parents.Keys - visited < before {
          SmallerSet(parents.Keys - visited, before);
        }
      }
    }

    method SelectRideTree(root: Pid) returns (found: bool)
      requires Cleared()
      modifies this
      ensures topology == old(topology) && samples == []
      ensures var parents := Consistent(RowsOf(topology));
        && found == (root in parents)
        && Ascending(selectedPids)
        && PidSet(selectedPids) == if found then Reach(parents, root) else {}
    {
      ResolveConflicts();
      childrenByParent := IndexChildren(topologyByPid);
      if root !in topologyByPid {
        return false;
      }
      pending := [root];
      assert Below(topologyByPid, root, root, 0);
      Explore(topologyByPid, root);
      ClosedAndReachable(topologyByPid, root, visited * topologyByPid.Keys);
      selectedPids := SortAscending(selectedPids);
      return true;
    }
  }

  lemma {:induction false} SmallerSet(a: set<Pid>, b: set<Pid>)
    requires a < b
    ensures |a| < |b|
  {
    var x :| x in b && x !in a;
    SubsetSize(a, b - {x});
  }

  lemma {:induction false} SubsetSize(a: set<Pid>, b: set<Pid>)
    requires a <= b
    ensures |a| <= |b|
    decreases |a|
  {
    if a != {} {
      var x :| x in a;
      SubsetSize(a - {x}, b - {x});
    }
  }
}
