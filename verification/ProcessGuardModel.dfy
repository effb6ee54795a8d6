/** Process snapshots, descendants and the identity fence of the Cursor process guard. */
module ProcessGuardModel {
  import opened Options

  const MAX_CAPTURED: nat := 4096

  /** `started` is the start marker that tells a process from a later one with the same pid. */
  datatype Identity = Identity(pid: nat, parent: nat, group: nat, started: string)

  /** A process table in the order it was read; a pid occurs once. */
  type Rows = seq<Identity>

  ghost predicate Distinct(rows: Rows) {
    forall i, j :: 0 <= i < j < |rows| ==> rows[i].pid != rows[j].pid
  }

  function Lookup(rows: Rows, pid: nat): (found: Option<Identity>)
    ensures found.Some? ==> found.value in rows && found.value.pid == pid
    ensures found.None? ==> forall row :: row in rows ==> row.pid != pid
    decreases |rows|
  {
    if rows == [] then None
    else if rows[|rows| - 1].pid == pid then Some(rows[|rows| - 1])
    else Lookup(rows[..|rows| - 1], pid)
  }

  lemma LookupFinds(rows: Rows, row: Identity)
    requires Distinct(rows) && row in rows
    ensures Lookup(rows, row.pid) == Some(row)
  {
    var found := Lookup(rows, row.pid);
    var i :| 0 <= i < |rows| && rows[i] == row;
    var j :| 0 <= j < |rows| && rows[j] == found.value;
    assert i == j || rows[i].pid != rows[j].pid;
  }

  /** The captured identity is still the process that runs under its pid. */
  predicate StillRuns(rows: Rows, identity: Identity) {
    var current := Lookup(rows, identity.pid);
    current.Some? && current.value.started == identity.started
  }

  /** `_matching_survivors`. */
  function Survivors(identities: seq<Identity>, rows: Rows): (survivors: seq<Identity>)
    ensures forall i :: i in survivors <==> i in identities && StillRuns(rows, i)
    ensures |survivors| <= |identities|
    decreases |identities|
  {
    if identities == [] then []
    else if StillRuns(rows, identities[0]) then [identities[0]] + Survivors(identities[1..], rows)
    else Survivors(identities[1..], rows)
  }

  // ---------- reachability ----------

  predicate IsChild(rows: Rows, parent: nat, pid: nat) {
    exists row | row in rows :: row.pid == pid && row.parent == parent
  }

  ghost predicate IsPath(rows: Rows, roots: seq<nat>, path: seq<nat>, pid: nat) {
    && path != []
    && path[0] in roots
    && path[|path| - 1] == pid
    && forall i :: 0 < i < |path| ==> IsChild(rows, path[i - 1], path[i])
  }

  /** Reached from a root by following parent links downwards. */
  ghost predicate Reachable(rows: Rows, roots: seq<nat>, pid: nat) {
    exists path :: IsPath(rows, roots, path, pid)
  }

  lemma RootReachable(rows: Rows, roots: seq<nat>, pid: nat)
    requires pid in roots
    ensures Reachable(rows, roots, pid)
  {
    assert IsPath(rows, roots, [pid], pid);
  }

  lemma ChildReachable(rows: Rows, roots: seq<nat>, parent: nat, pid: nat)
    requires Reachable(rows, roots, parent) && IsChild(rows, parent, pid)
    ensures Reachable(rows, roots, pid)
  {
    var path :| IsPath(rows, roots, path, parent);
    assert IsPath(rows, roots, path + [pid], pid);
  }

  /** A set that holds the roots and every child of its members holds everything reachable. */
  lemma {:induction false} ClosedHoldsReachable(rows: Rows, roots: seq<nat>, seen: set<nat>, path: seq<nat>, pid: nat)
    requires forall root :: root in roots ==> root in seen
    requires forall parent, child :: parent in seen && IsChild(rows, parent, child) ==> child in seen
    requires IsPath(rows, roots, path, pid)
    ensures pid in seen
    decreases |path|
  {
    if |path| > 1 {
      var front := path[..|path| - 1];
      assert IsPath(rows, roots, front, front[|front| - 1]);
      ClosedHoldsReachable(rows, roots, seen, front, front[|front| - 1]);
      assert IsChild(rows, path[|path| - 2], path[|path| - 1]);
    }
  }

  // ---------- tracking ----------

  function Pids(identities: seq<Identity>): set<nat> {
    set identity | identity in identities :: identity.pid
  }

  /** The pids whose descendants are followed: the child while it lives, and every captured
      process that is still the one captured. */
  function Roots(child: nat, alive: bool, known: seq<Identity>, rows: Rows): seq<nat> {
    (if alive then [child] else []) + PidsInOrder(Survivors(known, rows))
  }

  function PidsInOrder(identities: seq<Identity>): (pids: seq<nat>)
    ensures forall pid :: pid in pids <==> exists i :: i in identities && i.pid == pid
    decreases |identities|
  {
    if identities == [] then [] else [identities[0].pid] + PidsInOrder(identities[1..])
  }

  /** Why a row of this snapshot belongs to the child. */
  ghost predicate Attributable(child: nat, group: nat, alive: bool, known: seq<Identity>, rows: Rows, row: Identity) {
    && row in rows
    && (|| (row.pid != child && row.group == group)
        || Reachable(rows, Roots(child, alive, known, rows), row.pid))
  }

  ghost predicate HasEntry(known: seq<Identity>, pid: nat, started: string) {
    exists identity :: identity in known && identity.pid == pid && identity.started == started
  }

  /** What one snapshot may do to the captured identities. */
  ghost predicate Tracked(child: nat, group: nat, alive: bool, before: seq<Identity>, after: seq<Identity>, rows: Rows) {
    && Distinct(after)
    && (forall identity :: identity in before ==> HasEntry(after, identity.pid, identity.started))
    && (forall identity :: identity in after && identity !in before ==>
          Attributable(child, group, alive, before, rows, identity))
    && (|after| <= MAX_CAPTURED || |after| == |before|)
  }

  // ---------- whole runs ----------

  datatype Observation = Observation(rows: Rows, alive: bool)

  /** The captured identities after each snapshot, starting with none. */
  ghost predicate IsHistory(child: nat, group: nat, snapshots: seq<Observation>, captured: seq<seq<Identity>>) {
    && |captured| == |snapshots| + 1
    && captured[0] == []
    && forall k :: 0 <= k < |snapshots| ==>
         Tracked(child, group, snapshots[k].alive, captured[k], captured[k + 1], snapshots[k].rows)
  }

  /** A captured pid is never rebound to another start marker, in any later snapshot. */
  lemma {:induction false} NeverRebound(child: nat, group: nat, snapshots: seq<Observation>, captured: seq<seq<Identity>>,
                                        k: nat, later: nat, identity: Identity, other: Identity)
    requires IsHistory(child, group, snapshots, captured)
    requires k <= later < |captured| && identity in captured[k] && other in captured[later] && other.pid == identity.pid
    requires 0 < k
    ensures other.started == identity.started
    decreases later - k
  {
    if k == later {
      assert Tracked(child, group, snapshots[k - 1].alive, captured[k - 1], captured[k], snapshots[k - 1].rows);
      LookupFinds(captured[k], identity);
      LookupFinds(captured[k], other);
    } else {
      assert Tracked(child, group, snapshots[k].alive, captured[k], captured[k + 1], snapshots[k].rows);
      assert HasEntry(captured[k + 1], identity.pid, identity.started);
      var next :| next in captured[k + 1] && next.pid == identity.pid && next.started == identity.started;
      NeverRebound(child, group, snapshots, captured, k + 1, later, next, other);
    }
  }

  /** Belongs to the child by snapshot `k`: it was in the child's group, or below the living
      child, or below a process of which the same was true by an earlier snapshot and whose
      start marker still matched. */
  ghost predicate TracesBack(child: nat, group: nat, snapshots: seq<Observation>, k: nat, pid: nat, started: string)
    decreases k, 0
  {
    exists s :: 0 <= s < k && s < |snapshots| && TracesAt(child, group, snapshots, s, pid, started)
  }

  ghost predicate TracesAt(child: nat, group: nat, snapshots: seq<Observation>, s: nat, pid: nat, started: string)
    requires s < |snapshots|
    decreases s, 1
  {
    var rows := snapshots[s].rows;
    exists row ::
      && row in rows && row.pid == pid && row.started == started
      && (|| (row.pid != child && row.group == group)
          || (snapshots[s].alive && Reachable(rows, [child], pid))
          || exists root: Identity ::
               && StillRuns(rows, root)
               && Reachable(rows, [root.pid], pid)
               && TracesBack(child, group, snapshots, s, root.pid, root.started))
  }

  lemma OneRootIsEnough(rows: Rows, roots: seq<nat>, pid: nat) returns (root: nat)
    requires Reachable(rows, roots, pid)
    ensures root in roots && Reachable(rows, [root], pid)
  {
    var path :| IsPath(rows, roots, path, pid);
    root := path[0];
    assert IsPath(rows, [root], path, pid);
  }

  lemma TracesLater(child: nat, group: nat, snapshots: seq<Observation>, k: nat, later: nat, pid: nat, started: string)
    requires TracesBack(child, group, snapshots, k, pid, started) && k <= later
    ensures TracesBack(child, group, snapshots, later, pid, started)
  {
    var s :| 0 <= s < k && s < |snapshots| && TracesAt(child, group, snapshots, s, pid, started);
  }

  /** Every identity that is ever captured traces back to the child or its group. */
  lemma {:induction false} CapturedTracesBack(child: nat, group: nat, snapshots: seq<Observation>,
                                              captured: seq<seq<Identity>>, k: nat, identity: Identity)
    requires IsHistory(child, group, snapshots, captured)
    requires k < |captured| && identity in captured[k]
    ensures TracesBack(child, group, snapshots, k, identity.pid, identity.started)
    decreases k
  {
    assert k != 0 by {
      assert captured[0] == [];
    }
    var s := k - 1;
    var rows := snapshots[s].rows;
    assert Tracked(child, group, snapshots[s].alive, captured[s], captured[k], rows);
    if identity in captured[s] {
      CapturedTracesBack(child, group, snapshots, captured, s, identity);
      TracesLater(child, group, snapshots, s, k, identity.pid, identity.started);
    } else {
      assert Attributable(child, group, snapshots[s].alive, captured[s], rows, identity);
      if !(identity.pid != child && identity.group == group) {
        var root := OneRootIsEnough(rows, Roots(child, snapshots[s].alive, captured[s], rows), identity.pid);
        if !(snapshots[s].alive && root == child) {
          var parent :| parent in Survivors(captured[s], rows) && parent.pid == root;
          CapturedTracesBack(child, group, snapshots, captured, s, parent);
        }
      }
      assert TracesAt(child, group, snapshots, s, identity.pid, identity.started);
    }
  }
}
