/** The worklist, the accumulation of identities, and the teardown of a Cursor process tree. */
module ProcessGuard {
  import opened Options
  import opened ProcessGuardModel

  function ChildrenOf(rows: Rows, parent: nat): (children: seq<Identity>)
    ensures forall c :: c in children <==> c in rows && c.parent == parent
    decreases |rows|
  {
    if rows == [] then []
    else (if rows[0].parent == parent then [rows[0]] else []) + ChildrenOf(rows[1..], parent)
  }

  ghost predicate Closed(rows: Rows, seen: set<nat>, pending: seq<nat>) {
    forall parent, child :: parent in seen && parent !in pending && IsChild(rows, parent, child) ==> child in seen
  }

  lemma DistinctAppend(rows: Rows, row: Identity)
    requires Distinct(rows) && row.pid !in Pids(rows)
    ensures Distinct(rows + [row])
    ensures Pids(rows + [row]) == Pids(rows) + {row.pid}
  {
    forall i | 0 <= i < |rows| ensures rows[i].pid != row.pid {
      assert rows[i] in rows;
    }
    assert forall r :: r in rows + [row] <==> r in rows || r == row;
    assert row in rows + [row];
  }

  function RootSet(roots: seq<nat>): set<nat> {
    set root | root in roots
  }

  /** What the worklist has found so far. */
  ghost predicate Explored(rows: Rows, roots: seq<nat>, seen: set<nat>, descendants: seq<Identity>, pending: seq<nat>) {
    && Distinct(descendants)
    && |descendants| <= MAX_CAPTURED
    && seen == RootSet(roots) + Pids(descendants)
    && RootSet(roots) !! Pids(descendants)
    && (forall d :: d in descendants ==> d in rows)
    && (forall pid :: pid in seen ==> Reachable(rows, roots, pid))
    && (forall pid :: pid in pending ==> pid in seen)
  }

  lemma ExploreRoots(rows: Rows, roots: seq<nat>)
    ensures Explored(rows, roots, RootSet(roots), [], roots)
  {
    forall root | root in roots ensures Reachable(rows, roots, root) {
      RootReachable(rows, roots, root);
    }
  }

  lemma ExploreChild(rows: Rows, roots: seq<nat>, seen: set<nat>, descendants: seq<Identity>, pending: seq<nat>,
                     parent: nat, row: Identity)
    requires Explored(rows, roots, seen, descendants, pending) && |descendants| < MAX_CAPTURED
    requires parent in seen && row in rows && row.parent == parent && row.pid !in seen
    ensures Explored(rows, roots, seen + {row.pid}, descendants + [row], pending + [row.pid])
  {
    assert IsChild(rows, parent, row.pid);
    ChildReachable(rows, roots, parent, row.pid);
    DistinctAppend(descendants, row);
  }

  /** Visits the children of one parent, in table order, until the cap is reached. */
  method Expand(rows: Rows, roots: seq<nat>, parent: nat, seen0: set<nat>, found0: seq<Identity>, pending0: seq<nat>)
    returns (seen: set<nat>, found: seq<Identity>, pending: seq<nat>)
    requires Explored(rows, roots, seen0, found0, pending0) && |found0| < MAX_CAPTURED && parent in seen0
    ensures Explored(rows, roots, seen, found, pending)
    ensures seen0 <= seen && (forall pid :: pid in pending0 ==> pid in pending)
    ensures forall pid :: pid in seen && pid !in seen0 ==> pid in pending && pid in Pids(rows)
    ensures |found| < MAX_CAPTURED ==> forall child :: IsChild(rows, parent, child) ==> child in seen
    ensures seen == seen0 ==> pending == pending0
  {
    seen, found, pending := seen0, found0, pending0;
    var children := ChildrenOf(rows, parent);
    var k := 0;
    while k < |children|
      invariant k <= |children|
      invariant Explored(rows, roots, seen, found, pending) && |found| < MAX_CAPTURED
      invariant seen0 <= seen && (forall pid :: pid in pending0 ==> pid in pending)
      invariant forall pid :: pid in seen && pid !in seen0 ==> pid in pending && pid in Pids(rows)
      invariant forall i :: 0 <= i < k ==> children[i].pid in seen
      invariant seen == seen0 ==> pending == pending0
    {
      var row := children[k];
      assert row in children;
      if row.pid !in seen {
        ExploreChild(rows, roots, seen, found, pending, parent, row);
        seen, found, pending := seen + {row.pid}, found + [row], pending + [row.pid];
        if |found| >= MAX_CAPTURED {
          return;
        }
      }
      k := k + 1;
    }
    forall child | IsChild(rows, parent, child) ensures child in seen {
      var row :| row in rows && row.pid == child && row.parent == parent;
      assert row in children;
    }
  }

  /** Depth-first over a table that may contain cycles.  Below the cap the result is exactly
      what is reachable from the roots, without the roots and without repetition. */
  method RecursiveDescendants(roots: seq<nat>, rows: Rows) returns (descendants: seq<Identity>)
    ensures Distinct(descendants) && |descendants| <= MAX_CAPTURED
    ensures forall d :: d in descendants ==> d in rows && d.pid !in roots && Reachable(rows, roots, d.pid)
    ensures |descendants| < MAX_CAPTURED ==>
      forall pid :: pid in Pids(descendants) <==> Reachable(rows, roots, pid) && pid !in roots
  {
    descendants := [];
    var pending, seen := roots, RootSet(roots);
    ExploreRoots(rows, roots);
    while pending != [] && |descendants| < MAX_CAPTURED
      invariant Explored(rows, roots, seen, descendants, pending)
      invariant |descendants| < MAX_CAPTURED ==> Closed(rows, seen, pending)
      decreases Pids(rows) - seen, |pending|
    {
      var parent := pending[|pending| - 1];
      ghost var waiting, before := pending, seen;
      pending := pending[..|pending| - 1];
      assert waiting == pending + [parent];
      seen, descendants, pending := Expand(rows, roots, parent, seen, descendants, pending);
      if |descendants| < MAX_CAPTURED {
        forall p, child | p in seen && p !in pending && IsChild(rows, p, child) ensures child in seen {
          if p != parent {
            assert p in before && p !in waiting;
          }
        }
      }
      if seen != before {
        var added :| added in seen && added !in before;
        assert added in Pids(rows) - before;
      }
    }
    if |descendants| < MAX_CAPTURED {
      forall pid | Reachable(rows, roots, pid) ensures pid in seen {
        var path :| IsPath(rows, roots, path, pid);
        ClosedHoldsReachable(rows, roots, seen, path, pid);
      }
    }
  }

  lemma UpdatedEntry(known: seq<Identity>, i: nat, row: Identity)
    requires Distinct(known) && i < |known| && known[i].pid == row.pid && known[i].started == row.started
    ensures Distinct(known[i := row])
    ensures forall identity :: identity in known[i := row] ==> identity in known || identity == row
    ensures forall identity :: identity in known ==> HasEntry(known[i := row], identity.pid, identity.started)
  {
    var next := known[i := row];
    forall identity | identity in known ensures HasEntry(next, identity.pid, identity.started) {
      var j :| 0 <= j < |known| && known[j] == identity;
      assert next[j] in next;
    }
  }

  function IndexOf(known: seq<Identity>, pid: nat): (index: Option<nat>)
    ensures index.Some? ==> index.value < |known| && known[index.value].pid == pid
    ensures index.None? ==> pid !in Pids(known)
    decreases |known|
  {
    if known == [] then None
    else if known[|known| - 1].pid == pid then Some(|known| - 1)
    else IndexOf(known[..|known| - 1], pid)
  }

  /** One individually signalled process, and the table it was checked against. */
  datatype Signalled = Signalled(pid: nat, rows: Rows)

  class Guard {
    const child: nat
    const group: nat
    var known: seq<Identity>
    var signals: seq<Signalled>
    var groupSignals: nat
    ghost var snapshots: seq<Observation>
    ghost var captured: seq<seq<Identity>>

    ghost predicate Valid()
      reads this
    {
      && IsHistory(child, group, snapshots, captured)
      && known == captured[|snapshots|]
      && Distinct(known)
    }

    /** The signal went to a process the guard had captured, and whose marker matched just then. */
    ghost predicate Justified(s: Signalled)
      reads this`captured
    {
      exists k, identity :: 0 <= k < |captured| && identity in captured[k] && identity.pid == s.pid && StillRuns(s.rows, identity)
    }

    constructor (child: nat, group: nat)
      ensures this.child == child && this.group == group && Valid()
      ensures known == [] && signals == [] && groupSignals == 0 && snapshots == []
    {
      this.child, this.group, known, signals, groupSignals := child, group, [], [], 0;
      snapshots, captured := [], [[]];
    }

    /** Everything this snapshot shows to belong to the child, in order of discovery. */
    method Discover(rows: Rows, alive: bool) returns (discovered: seq<Identity>)
      ensures forall row :: row in discovered ==> Attributable(child, group, alive, known, rows, row)
      ensures |discovered| <= MAX_CAPTURED
    {
      discovered := [];
      var k := 0;
      while k < |rows| && |discovered| < MAX_CAPTURED
        invariant k <= |rows| && |discovered| <= MAX_CAPTURED
        invariant forall row :: row in discovered ==> Attributable(child, group, alive, known, rows, row)
      {
        if rows[k].pid != child && rows[k].group == group && IndexOf(discovered, rows[k].pid).None? {
          discovered := discovered + [rows[k]];
        }
        k := k + 1;
      }
      var below := RecursiveDescendants(Roots(child, alive, known, rows), rows);
      k := 0;
      while k < |below| && |discovered| < MAX_CAPTURED
        invariant k <= |below| && |discovered| <= MAX_CAPTURED
        invariant forall row :: row in discovered ==> Attributable(child, group, alive, known, rows, row)
      {
        assert below[k] in below;
        if IndexOf(discovered, below[k].pid).None? {
          discovered := discovered + [below[k]];
        }
        k := k + 1;
      }
    }

    /** `_track_child_processes`: a captured pid keeps its start marker for good. */
    method Track(rows: Rows, alive: bool)
      requires Distinct(known)
      modifies this`known
      ensures Tracked(child, group, alive, old(known), known, rows)
    {
      var discovered := Discover(rows, alive);
      ghost var before := known;
      var k := 0;
      while k < |discovered| && |known| < MAX_CAPTURED
        invariant k <= |discovered|
        invariant Distinct(known)
        invariant forall identity :: identity in before ==> HasEntry(known, identity.pid, identity.started)
        invariant forall identity :: identity in known && identity !in before ==>
                    Attributable(child, group, alive, before, rows, identity)
        invariant |known| <= MAX_CAPTURED || |known| == |before|
      {
        var row := discovered[k];
        assert row in discovered;
        ghost var now := known;
        var index := IndexOf(known, row.pid);
        if index.None? {
          DistinctAppend(known, row);
          known := known + [row];
          forall identity | identity in before ensures HasEntry(known, identity.pid, identity.started) {
            assert HasEntry(now, identity.pid, identity.started);
            var entry :| entry in now && entry.pid == identity.pid && entry.started == identity.started;
            assert entry in known;
          }
        } else if known[index.value].started == row.started {
          UpdatedEntry(known, index.value, row);
          known := known[index.value := row];
          forall identity | identity in before ensures HasEntry(known, identity.pid, identity.started) {
            assert HasEntry(now, identity.pid, identity.started);
            var entry :| entry in now && entry.pid == identity.pid && entry.started == identity.started;
            assert HasEntry(known, entry.pid, entry.started);
          }
        }
        k := k + 1;
      }
    }

    /** Every new individual signal goes to a process whose captured start marker still matches,
        and never to the guard or its parent; and no such survivor is skipped. */
    method SignalIdentities(identities: seq<Identity>, rows: Rows, self: nat, parent: nat)
      modifies this`signals
      ensures old(signals) <= signals
      ensures forall s :: s in signals[|old(signals)|..] <==>
        exists identity :: identity in identities && StillRuns(rows, identity) && identity.pid != self && identity.pid != parent
                           && s == Signalled(identity.pid, rows)
    {
      var survivors := Survivors(identities, rows);
      ghost var before := signals;
      var k := 0;
      while k < |survivors|
        invariant k <= |survivors|
        invariant before <= signals
        invariant forall s :: s in signals[|before|..] <==>
          exists i :: 0 <= i < k && survivors[i].pid != self && survivors[i].pid != parent
                      && s == Signalled(survivors[i].pid, rows)
      {
        ghost var earlier := signals;
        if survivors[k].pid != self && survivors[k].pid != parent {
          signals := signals + [Signalled(survivors[k].pid, rows)];
          assert signals[|before|..] == earlier[|before|..] + [Signalled(survivors[k].pid, rows)];
        }
        k := k + 1;
      }
      forall s
        ensures s in signals[|before|..] <==>
          exists identity :: identity in identities && StillRuns(rows, identity) && identity.pid != self && identity.pid != parent
                             && s == Signalled(identity.pid, rows)
      {
        if s in signals[|before|..] {
          var i :| 0 <= i < |survivors| && survivors[i].pid != self && survivors[i].pid != parent && s == Signalled(survivors[i].pid, rows);
          assert survivors[i] in survivors;
        }
        if exists identity :: identity in identities && StillRuns(rows, identity) && identity.pid != self && identity.pid != parent
                              && s == Signalled(identity.pid, rows) {
          var identity :| identity in identities && StillRuns(rows, identity) && identity.pid != self && identity.pid != parent
                          && s == Signalled(identity.pid, rows);
          assert identity in survivors;
          var i :| 0 <= i < |survivors| && survivors[i] == identity;
        }
      }
    }

    /** One snapshot of the process table. */
    method Observe(o: Observation)
      requires Valid()
      modifies this`known, this`snapshots, this`captured
      ensures Valid() && snapshots == old(snapshots) + [o] && old(captured) <= captured
      ensures Tracked(child, group, o.alive, old(known), known, o.rows)
    {
      Track(o.rows, o.alive);
      snapshots := snapshots + [o];
      captured := captured + [known];
    }

    method SignalGroup()
      modifies this`groupSignals
      ensures groupSignals == old(groupSignals) + 1
    {
      groupSignals := groupSignals + 1;
    }

    /** Signals captured identities and keeps the record justified. */
    method SignalCaptured(identities: seq<Identity>, rows: Rows, self: nat, parent: nat)
      requires Valid() && forall identity :: identity in identities ==> identity in known
      requires forall s :: s in signals ==> Justified(s)
      modifies this`signals
      ensures Valid() && forall s :: s in signals ==> Justified(s) && (s in old(signals) || (s.pid != self && s.pid != parent))
    {
      ghost var before := signals;
      SignalIdentities(identities, rows, self, parent);
      forall s | s in signals ensures Justified(s) && (s in before || (s.pid != self && s.pid != parent)) {
        if s !in before {
          assert s in signals[|before|..];
          var identity :| identity in identities && StillRuns(rows, identity) && identity.pid != self && identity.pid != parent
                          && s == Signalled(identity.pid, rows);
          assert identity in captured[|snapshots|];
        } else {
          assert Justified(s);
        }
      }
    }

    /** `_terminate_child_group`: `first`, `grace` and `last` are the snapshots before, during and
        after the grace period, and `probe` the table read for the first individual signals. */
    method Terminate(first: Observation, probe: Rows, grace: seq<Observation>, last: Observation, self: nat, parent: nat)
      requires Valid() && signals == []
      modifies this
      ensures Valid()
      ensures forall s :: s in signals ==> Justified(s) && s.pid != self && s.pid != parent
    {
      Observe(first);
      var detached := Where(known, group, false);
      if first.alive || Where(known, group, true) != [] {
        SignalGroup();
      }
      SignalCaptured(detached, probe, self, parent);
      var k := 0;
      while k < |grace|
        invariant Valid() && k <= |grace|
        invariant forall s :: s in signals ==> Justified(s) && s.pid != self && s.pid != parent
      {
        ghost var earlier := captured;
        Observe(grace[k]);
        StayJustified(earlier);
        if !grace[k].alive && Survivors(known, grace[k].rows) == [] {
          return;
        }
        k := k + 1;
      }
      ghost var earlier := captured;
      Observe(last);
      StayJustified(earlier);
      var survivors := Survivors(known, last.rows);
      if last.alive || InGroupNow(survivors, last.rows, group, true) != [] {
        SignalGroup();
      }
      SignalCaptured(InGroupNow(survivors, last.rows, group, false), last.rows, self, parent);
    }

    lemma StayJustified(earlier: seq<seq<Identity>>)
      requires earlier <= captured
      ensures forall s: Signalled, k, identity ::
        0 <= k < |earlier| && identity in earlier[k] && identity.pid == s.pid && StillRuns(s.rows, identity) ==> Justified(s)
    {
      forall s: Signalled, k, identity |
        0 <= k < |earlier| && identity in earlier[k] && identity.pid == s.pid && StillRuns(s.rows, identity)
        ensures Justified(s)
      {
        assert identity in captured[k];
      }
    }

    /** What stands behind a signal: the process carries the start marker of a captured identity,
        and that identity traces back to the child or its group. */
    lemma SignalTracesBack(s: Signalled) returns (k: nat, identity: Identity)
      requires Valid() && Justified(s)
      ensures identity.pid == s.pid && StillRuns(s.rows, identity)
      ensures TracesBack(child, group, snapshots, k, identity.pid, identity.started)
    {
      k, identity :| k < |captured| && identity in captured[k] && identity.pid == s.pid && StillRuns(s.rows, identity);
      CapturedTracesBack(child, group, snapshots, captured, k, identity);
    }
  }

  /** The identities captured in the group, or those captured outside it. */
  function Where(identities: seq<Identity>, group: nat, inside: bool): (chosen: seq<Identity>)
    ensures forall i :: i in chosen <==> i in identities && (i.group == group <==> inside)
    decreases |identities|
  {
    if identities == [] then []
    else (if identities[0].group == group <==> inside then [identities[0]] else []) + Where(identities[1..], group, inside)
  }

  /** The survivors whose group in this table is the child's, or is not. */
  function InGroupNow(survivors: seq<Identity>, rows: Rows, group: nat, inside: bool): (chosen: seq<Identity>)
    ensures forall i :: i in chosen ==> i in survivors
    decreases |survivors|
  {
    if survivors == [] then []
    else
      var current := Lookup(rows, survivors[0].pid);
      (if current.Some? && (current.value.group == group <==> inside) then [survivors[0]] else [])
      + InGroupNow(survivors[1..], rows, group, inside)
  }
}
