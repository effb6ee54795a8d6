/**
 Where everything in the release tree can be while a transaction runs.

 A reachable tree is the begin tree with four things put somewhere: the rollback release,
 the candidate, the `current` link and the `previous` link.  A `Layout` names the four
 places, and `Paint` is the tree they give.
 */
module ActivationLayout {
  import opened Options
  import opened ActivationModel

  datatype Spot = AtSource | AtTarget | AtParked

  datatype CurrentEntry = Untouched | Removed | Taken

  /** `home`: the rollback release is where it came from; `swapped`: `previous` names it. */
  datatype Layout = Layout(home: bool, spot: Spot, current: CurrentEntry, swapped: bool)

  const BEGIN_LAYOUT := Layout(true, AtSource, Untouched, false)

  function FinalLayout(plan: Plan): Layout {
    Layout(!plan.OldMoves(), AtTarget, Taken, plan.oldRelease.Some?)
  }

  ghost predicate DistinctDirectories(tree: Tree) {
    forall p, q :: p in tree && q in tree && tree[p].Dir? && tree[p] == tree[q] ==> p == q
  }

  predicate OldSnapshotFits(plan: Plan, tree: Tree) {
    if plan.oldRelease.None? then plan.current.NoEntry?
    else
      var release := plan.oldRelease.value;
      && release.target.InReleases?
      && (release.source.InReleases? || release.source == Current)
      && Matches(tree, release.source, release)
      && release.inode != plan.candidate.inode
      && match plan.current
         case NoEntry => false
         case Symlink(_) => PointsTo(tree, Current, release)
         case Directory => release.source == Current
  }

  /** The two shapes in which the rollback release can be moved and still be found. */
  predicate MoveIsRecoverable(plan: Plan, tree: Tree) {
    plan.OldMoves() ==>
      var release := plan.oldRelease.value;
      && release.target !in tree
      && release.target != plan.ReleaseDir()
      && (|| release.source == Current
          || (release.source == plan.ReleaseDir() && plan.current == CandidateCurrentState(plan)))
  }

  predicate PreviousSnapshotFits(plan: Plan, tree: Tree) {
    plan.previousRelease.Some? ==>
      var release := plan.previousRelease.value;
      && PointsTo(tree, Previous, release)
      && release.inode != plan.candidate.inode
      && (plan.OldMoves() ==> release.inode != plan.oldRelease.value.inode)
  }

  /** What `begin` snapshots, with the start hypotheses the transaction needs. */
  ghost predicate WellFormed(plan: Plan, tree: Tree) {
    && DistinctDirectories(tree)
    && plan.candidate.source.InReleases?
    && plan.candidate.target.InReleases?
    && plan.candidate.source != plan.candidate.target
    && Matches(tree, plan.candidate.source, plan.candidate)
    && (plan.candidate.target in tree ==> plan.OldMoves() && plan.oldRelease.value.source == plan.candidate.target)
    && ParkedCandidate !in tree
    && RetiredCandidate !in tree
    && StateOf(tree, Current) == plan.current
    && StateOf(tree, Previous) == plan.previous
    && plan.previous != Directory
    && OldSnapshotFits(plan, tree)
    && MoveIsRecoverable(plan, tree)
    && PreviousSnapshotFits(plan, tree)
  }

  // ---------- layouts as trees ----------

  function OldPlace(plan: Plan, layout: Layout): Path
    requires plan.oldRelease.Some?
  {
    if layout.home then plan.oldRelease.value.source else plan.oldRelease.value.target
  }

  function CandidatePlace(plan: Plan, layout: Layout): Path {
    match layout.spot
    case AtSource => plan.candidate.source
    case AtTarget => plan.candidate.target
    case AtParked => ParkedCandidate
  }

  function TouchedPaths(plan: Plan): set<Path> {
    {Current, Previous, ParkedCandidate, plan.candidate.source, plan.candidate.target}
    + if plan.oldRelease.Some? then {plan.oldRelease.value.source, plan.oldRelease.value.target} else {}
  }

  function WithOld(plan: Plan, base: Tree, layout: Layout): Tree {
    if plan.oldRelease.Some? then base[OldPlace(plan, layout) := Dir(plan.oldRelease.value.inode)] else base
  }

  function WithCurrent(plan: Plan, base: Tree, layout: Layout): Tree {
    match layout.current
    case Untouched => if plan.current.Symlink? then base[Current := Link(plan.current.text)] else base
    case Removed => base
    case Taken => base[Current := Link(Spelled(plan.ReleaseDir()))]
  }

  function WithPrevious(plan: Plan, base: Tree, layout: Layout): Tree {
    if layout.swapped && plan.oldRelease.Some? then base[Previous := Link(Spelled(plan.oldRelease.value.target))]
    else if plan.previous.Symlink? then base[Previous := Link(plan.previous.text)]
    else base
  }

  function Paint(plan: Plan, begin: Tree, layout: Layout): Tree {
    var base := WithOld(plan, begin - TouchedPaths(plan), layout);
    var candidate := base[CandidatePlace(plan, layout) := Dir(plan.candidate.inode)];
    WithPrevious(plan, WithCurrent(plan, candidate, layout), layout)
  }

  /** The places are compatible with each other. */
  predicate Consistent(plan: Plan, layout: Layout) {
    && (!layout.home ==> plan.OldMoves())
    && (plan.current.Directory? ==> (layout.current == Untouched <==> layout.home))
    && (!plan.current.Directory? ==> layout.current != Removed)
    && (plan.OldMoves() && plan.oldRelease.value.source == plan.ReleaseDir() && layout.home ==> layout.spot != AtTarget)
    && (layout.swapped ==> plan.oldRelease.Some?)
    && (layout.spot == AtParked ==> plan.OldMoves() && plan.oldRelease.value.source == plan.ReleaseDir())
  }

  /** The layouts `activate_files` passes through: each move waits for the one before it. */
  predicate Forward(plan: Plan, layout: Layout) {
    && Consistent(plan, layout)
    && layout.spot != AtParked
    && (layout.spot == AtTarget && plan.OldMoves() ==> !layout.home)
    && (layout.swapped ==> layout.spot == AtTarget)
    && (layout.current == Taken ==> layout.spot == AtTarget && (plan.oldRelease.Some? ==> layout.swapped))
  }

  /** The layouts a rollback can be cut in. */
  predicate Rolling(plan: Plan, layout: Layout) {
    && Consistent(plan, layout)
    && (layout.current == Taken ==> layout.spot != AtSource)
  }

  lemma ForwardCanRollBack(plan: Plan, layout: Layout)
    requires Forward(plan, layout)
    ensures Rolling(plan, layout)
  {
  }

  lemma BeginIsPainted(plan: Plan, begin: Tree)
    requires WellFormed(plan, begin)
    ensures Paint(plan, begin, BEGIN_LAYOUT) == begin
    ensures Forward(plan, BEGIN_LAYOUT)
  {
  }

  // ---------- what the painted tree shows ----------

  /** The release directories of a painted tree, and nothing else at the places they left. */
  lemma PaintedReleases(plan: Plan, begin: Tree, layout: Layout)
    requires WellFormed(plan, begin) && Consistent(plan, layout)
    ensures var tree := Paint(plan, begin, layout);
      && Matches(tree, CandidatePlace(plan, layout), plan.candidate)
      && (plan.oldRelease.Some? ==> Matches(tree, OldPlace(plan, layout), plan.oldRelease.value))
      && (layout.spot != AtSource ==> plan.candidate.source !in tree)
      && (layout.spot != AtParked ==> ParkedCandidate !in tree)
      && (plan.OldMoves() && layout.home ==> plan.oldRelease.value.target !in tree)
  {
  }

  lemma PaintedEntries(plan: Plan, begin: Tree, layout: Layout)
    requires WellFormed(plan, begin) && Consistent(plan, layout)
    ensures var tree := Paint(plan, begin, layout);
      && (layout.current == Taken ==> StateOf(tree, Current) == CandidateCurrentState(plan))
      && (layout.current == Removed ==> Current !in tree)
      && (layout.current == Untouched ==> StateOf(tree, Current) == plan.current)
      && StateOf(tree, Previous) ==
           (if layout.swapped then Symlink(Spelled(plan.oldRelease.value.target)) else plan.previous)
  {
  }

  lemma PaintedElsewhere(plan: Plan, begin: Tree, layout: Layout, path: Path)
    requires path !in TouchedPaths(plan)
    ensures var tree := Paint(plan, begin, layout);
      (path in tree <==> path in begin) && (path in begin ==> tree[path] == begin[path])
  {
  }

  /** The release path is free exactly while neither release is on it. */
  lemma PaintedReleaseDir(plan: Plan, begin: Tree, layout: Layout)
    requires WellFormed(plan, begin) && Consistent(plan, layout)
    ensures plan.ReleaseDir() in Paint(plan, begin, layout) <==>
              || layout.spot == AtTarget
              || (plan.OldMoves() && plan.oldRelease.value.source == plan.ReleaseDir() && layout.home)
  {
  }

  /** A release recorded for `previous` is never one that moves, so its link keeps resolving. */
  lemma PreviousKeepsResolving(plan: Plan, begin: Tree, layout: Layout)
    requires WellFormed(plan, begin) && Consistent(plan, layout) && !layout.swapped
    ensures OriginalPreviousValid(plan, Paint(plan, begin, layout))
  {
    PaintedEntries(plan, begin, layout);
    if plan.previousRelease.Some? {
      var place := begin[Previous].text.path;
      if place in TouchedPaths(plan) {
        assert plan.oldRelease.Some? && place == plan.oldRelease.value.source && !plan.OldMoves();
        PaintedReleases(plan, begin, layout);
      } else {
        PaintedElsewhere(plan, begin, layout, place);
      }
    }
  }

  lemma PaintedCurrentValid(plan: Plan, begin: Tree, layout: Layout, phase: Phase, allowMissing: bool)
    requires WellFormed(plan, begin) && Rolling(plan, layout) && phase in {Linking, RollingBack}
    ensures CurrentValid(plan, phase, Paint(plan, begin, layout), allowMissing)
  {
    PaintedReleases(plan, begin, layout);
    PaintedEntries(plan, begin, layout);
    PaintedReleaseDir(plan, begin, layout);
    if plan.current.Symlink? {
      assert begin[Current].text.path == plan.oldRelease.value.source;
    }
  }

  lemma PaintedPreviousValid(plan: Plan, begin: Tree, layout: Layout, phase: Phase)
    requires WellFormed(plan, begin) && Consistent(plan, layout)
    requires phase == RollingBack || (phase == Linking && Forward(plan, layout))
    ensures PreviousValid(plan, phase, Paint(plan, begin, layout))
  {
    PaintedReleases(plan, begin, layout);
    PaintedEntries(plan, begin, layout);
    if !layout.swapped {
      PreviousKeepsResolving(plan, begin, layout);
    }
  }

  lemma PaintedLocated(plan: Plan, begin: Tree, layout: Layout)
    requires WellFormed(plan, begin) && Consistent(plan, layout)
    ensures var tree := Paint(plan, begin, layout);
      && (plan.oldRelease.Some? ==> Located(tree, plan.oldRelease.value, {}))
      && Located(tree, plan.candidate, {RetiredCandidate, ParkedCandidate})
  {
    PaintedReleases(plan, begin, layout);
  }

  // ---------- conservation ----------

  predicate HoldsAt(tree: Tree, path: Path, inode: nat) {
    path in tree && tree[path] == Dir(inode)
  }

  ghost predicate Holds(tree: Tree, inode: nat) {
    exists path :: HoldsAt(tree, path, inode)
  }

  /** Where a directory of the begin tree is in a painted tree, and the other way round. */
  function Relocated(plan: Plan, layout: Layout, inode: nat, path: Path): Path {
    if inode == plan.candidate.inode then CandidatePlace(plan, layout)
    else if plan.oldRelease.Some? && inode == plan.oldRelease.value.inode then OldPlace(plan, layout)
    else path
  }

  lemma DirectoryRelocated(plan: Plan, begin: Tree, layout: Layout, inode: nat, path: Path)
    requires WellFormed(plan, begin) && Consistent(plan, layout) && HoldsAt(begin, path, inode)
    ensures HoldsAt(Paint(plan, begin, layout), Relocated(plan, layout, inode, path), inode)
  {
    PaintedReleases(plan, begin, layout);
    if path !in TouchedPaths(plan) {
      PaintedElsewhere(plan, begin, layout, path);
    }
  }

  lemma DirectoryTraced(plan: Plan, begin: Tree, layout: Layout, inode: nat, path: Path) returns (origin: Path)
    requires WellFormed(plan, begin) && Consistent(plan, layout) && HoldsAt(Paint(plan, begin, layout), path, inode)
    ensures HoldsAt(begin, origin, inode) && path == Relocated(plan, layout, inode, origin)
  {
    if path == CandidatePlace(plan, layout) {
      origin := plan.candidate.source;
    } else if plan.oldRelease.Some? && path == OldPlace(plan, layout) {
      origin := plan.oldRelease.value.source;
    } else {
      origin := path;
    }
  }

  /** No release directory is lost or duplicated, whatever the layout. */
  lemma DirectoriesConserved(plan: Plan, begin: Tree, layout: Layout)
    requires WellFormed(plan, begin) && Consistent(plan, layout)
    ensures DistinctDirectories(Paint(plan, begin, layout))
    ensures forall inode :: Holds(Paint(plan, begin, layout), inode) <==> Holds(begin, inode)
  {
    var tree := Paint(plan, begin, layout);
    forall p, q | p in tree && q in tree && tree[p].Dir? && tree[p] == tree[q]
      ensures p == q
    {
      var from := DirectoryTraced(plan, begin, layout, tree[p].inode, p);
      var origin := DirectoryTraced(plan, begin, layout, tree[p].inode, q);
      assert from == origin;
    }
    forall inode
      ensures Holds(tree, inode) <==> Holds(begin, inode)
    {
      if Holds(tree, inode) {
        var path :| HoldsAt(tree, path, inode);
        var origin := DirectoryTraced(plan, begin, layout, inode, path);
      }
      if Holds(begin, inode) {
        var path :| HoldsAt(begin, path, inode);
        DirectoryRelocated(plan, begin, layout, inode, path);
      }
    }
  }

  // ---------- the moves between layouts ----------

  lemma OldQuarantined(plan: Plan, begin: Tree, layout: Layout)
    requires WellFormed(plan, begin) && Forward(plan, layout) && plan.OldMoves() && layout.home
    ensures var next := layout.(home := false, current := if plan.current.Directory? then Removed else layout.current);
      && Forward(plan, next)
      && Moved(Paint(plan, begin, layout), plan.oldRelease.value.source, plan.oldRelease.value.target)
           == Paint(plan, begin, next)
  {
  }

  lemma CandidateInstalled(plan: Plan, begin: Tree, layout: Layout)
    requires WellFormed(plan, begin) && Forward(plan, layout) && layout.spot == AtSource
    requires plan.OldMoves() ==> !layout.home
    ensures var next := layout.(spot := AtTarget);
      && Forward(plan, next)
      && plan.candidate.target !in Paint(plan, begin, layout)
      && Moved(Paint(plan, begin, layout), plan.candidate.source, plan.candidate.target) == Paint(plan, begin, next)
  {
    PaintedReleases(plan, begin, layout);
    PaintedReleaseDir(plan, begin, layout);
  }

  lemma PreviousSwapped(plan: Plan, begin: Tree, layout: Layout)
    requires WellFormed(plan, begin) && Forward(plan, layout) && layout.spot == AtTarget && plan.oldRelease.Some?
    ensures var next := layout.(swapped := true);
      && Forward(plan, next)
      && Paint(plan, begin, layout)[Previous := Link(Spelled(plan.oldRelease.value.target))] == Paint(plan, begin, next)
  {
  }

  lemma CurrentTaken(plan: Plan, begin: Tree, layout: Layout)
    requires WellFormed(plan, begin) && Forward(plan, layout) && layout.spot == AtTarget
    requires plan.oldRelease.Some? ==> layout.swapped
    ensures var next := layout.(current := Taken);
      && next == FinalLayout(plan)
      && Forward(plan, next)
      && Paint(plan, begin, layout)[Current := Link(Spelled(plan.ReleaseDir()))] == Paint(plan, begin, next)
  {
  }

  lemma CandidateParked(plan: Plan, begin: Tree, layout: Layout)
    requires WellFormed(plan, begin) && Rolling(plan, layout) && plan.OldMoves() && layout.spot == AtTarget
    requires plan.oldRelease.value.source == plan.ReleaseDir()
    ensures var next := layout.(spot := AtParked);
      && Rolling(plan, next)
      && Moved(Paint(plan, begin, layout), plan.ReleaseDir(), ParkedCandidate) == Paint(plan, begin, next)
  {
  }

  lemma LegacyLinkRemoved(plan: Plan, begin: Tree, layout: Layout)
    requires WellFormed(plan, begin) && Rolling(plan, layout) && plan.current.Directory? && !layout.home
    ensures var next := layout.(current := Removed);
      && Rolling(plan, next)
      && Paint(plan, begin, layout) - {Current} == Paint(plan, begin, next)
  {
  }

  lemma OldReturned(plan: Plan, begin: Tree, layout: Layout)
    requires WellFormed(plan, begin) && Rolling(plan, layout) && !layout.home
    requires plan.oldRelease.value.source !in Paint(plan, begin, layout)
    ensures var next := layout.(home := true, current := if plan.current.Directory? then Untouched else layout.current);
      && Rolling(plan, next)
      && Moved(Paint(plan, begin, layout), plan.oldRelease.value.target, plan.oldRelease.value.source)
           == Paint(plan, begin, next)
  {
    PaintedReleases(plan, begin, layout);
  }

  lemma CurrentRestored(plan: Plan, begin: Tree, layout: Layout)
    requires WellFormed(plan, begin) && Rolling(plan, layout) && layout.home && !plan.current.Directory?
    ensures var next := layout.(current := Untouched);
      && Rolling(plan, next)
      && Paint(plan, begin, next) ==
           (if plan.current.Symlink? then Paint(plan, begin, layout)[Current := Link(plan.current.text)]
            else Paint(plan, begin, layout) - {Current})
  {
  }

  lemma PreviousRestored(plan: Plan, begin: Tree, layout: Layout)
    requires WellFormed(plan, begin) && Rolling(plan, layout)
    ensures var next := layout.(swapped := false);
      && Rolling(plan, next)
      && Paint(plan, begin, next) ==
           (if plan.previous.Symlink? then Paint(plan, begin, layout)[Previous := Link(plan.previous.text)]
            else Paint(plan, begin, layout) - {Previous})
  {
  }
}
