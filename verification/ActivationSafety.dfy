/**
 Safety of whole activation runs: whatever commands are issued, and wherever each of them
 loses power, the persisted phase's validation keeps holding, rollback stays possible until
 `committing`, and a completed rollback is the begin snapshot.  A mode is a matter of each single call.
 */
module ActivationSafety {
  import opened Options
  import opened ActivationModel
  import opened ActivationLayout
  import opened ActivationConfig

  // ---------- the invariant ----------

  ghost predicate At(plan: Plan, begin: Tree, d: Disk, layout: Layout) {
    d.manifest.plan == plan && d.tree == Paint(plan, begin, layout)
  }

  ghost predicate ConfigsReady(d: Disk) {
    forall kind: Kind :: ConfigReady(d, kind)
  }

  /** A rollback can clean up behind the file, but for a service draft that was stale when the rollback began. */
  ghost predicate ConfigBacked(d: Disk, kind: Kind) {
    && (Cleanable(d.SlotOf(kind), d.manifest.JournalOf(kind))
        || (kind.Service? && Stale(d.service, d.manifest.service)))
    && WriteAheadKept(kind, d.manifest.plan.Original(kind), d.SlotOf(kind), d.manifest.JournalOf(kind))
  }

  ghost predicate ConfigsBacked(d: Disk) {
    forall kind: Kind :: ConfigBacked(d, kind)
  }

  ghost predicate ForwardState(plan: Plan, begin: Tree, d: Disk, layout: Layout) {
    && !RollbackPhase(d.manifest.phase)
    && At(plan, begin, d, layout)
    && Forward(plan, layout)
    && ConfigsReady(d)
  }

  ghost predicate RollingState(plan: Plan, begin: Tree, d: Disk, layout: Layout) {
    && RollbackPhase(d.manifest.phase)
    && At(plan, begin, d, layout)
    && Rolling(plan, layout)
    && ConfigsBacked(d)
  }

  ghost predicate Inv(plan: Plan, begin: Tree, d: Disk) {
    && WellFormed(plan, begin)
    && Validates(d, false)
    && exists layout ::
         || ForwardState(plan, begin, d, layout)
         || RollingState(plan, begin, d, layout)
  }

  /** The disk right after `begin` published its manifest. */
  ghost predicate Began(plan: Plan, begin: Tree, d: Disk) {
    && WellFormed(plan, begin)
    && d.tree == begin
    && d.manifest.plan == plan
    && d.manifest.phase == Prepared
    && forall kind: Kind ::
         && d.SlotOf(kind).source.None?
         && d.SlotOf(kind).publication.None?
         && ContentOf(d.SlotOf(kind).dest) == plan.Original(kind)
         && (d.SlotOf(kind).dest.Some? ==> d.SlotOf(kind).dest.value.nlink == 1)
         && (plan.Original(kind).Some? ==> plan.Original(kind).value.mode in AllowedModes(kind))
         && d.manifest.JournalOf(kind) == Journal(None, {DigestOf(plan.Original(kind))})
  }

  lemma BeginEstablishesInv(plan: Plan, begin: Tree, d: Disk)
    requires Began(plan, begin, d)
    ensures Inv(plan, begin, d)
  {
    BeginIsPainted(plan, begin);
    PaintedLocated(plan, begin, BEGIN_LAYOUT);
    PreviousKeepsResolving(plan, begin, BEGIN_LAYOUT);
    forall kind: Kind ensures ConfigReady(d, kind) {
      assert d.SlotOf(kind).source.None?;
    }
    assert ForwardState(plan, begin, d, BEGIN_LAYOUT);
    assert d.SlotOf(Env).source.None? && d.SlotOf(Service).source.None?;
  }

  // ---------- record ----------

  lemma RollingStateValidates(plan: Plan, begin: Tree, d: Disk, layout: Layout)
    requires WellFormed(plan, begin) && RollingState(plan, begin, d, layout) && d.manifest.phase == RollingBack
    ensures Validates(d, false)
  {
    PaintedLocated(plan, begin, layout);
    PaintedCurrentValid(plan, begin, layout, RollingBack, false);
    PaintedPreviousValid(plan, begin, layout, RollingBack);
    assert ConfigBacked(d, Env) && ConfigBacked(d, Service);
  }

  lemma LinkingStateValidates(plan: Plan, begin: Tree, d: Disk, layout: Layout)
    requires WellFormed(plan, begin) && ForwardState(plan, begin, d, layout) && d.manifest.phase == Linking
    requires forall kind: Kind :: ConfigValid(kind, Linking, plan.Original(kind), d.SlotOf(kind), d.manifest.JournalOf(kind))
    ensures Validates(d, false)
  {
    PaintedLocated(plan, begin, layout);
    ForwardCanRollBack(plan, layout);
    PaintedCurrentValid(plan, begin, layout, Linking, false);
    PaintedPreviousValid(plan, begin, layout, Linking);
    assert ConfigValid(Env, Linking, plan.Original(Env), d.SlotOf(Env), d.manifest.JournalOf(Env));
    assert ConfigValid(Service, Linking, plan.Original(Service), d.SlotOf(Service), d.manifest.JournalOf(Service));
  }

  lemma ForwardTurnsBack(plan: Plan, begin: Tree, d: Disk, e: Disk, layout: Layout)
    requires ForwardState(plan, begin, d, layout)
    requires e == d.(manifest := e.manifest) && e.manifest == Advanced(d.manifest, RollingBack)
    ensures RollingState(plan, begin, e, layout)
  {
    ForwardCanRollBack(plan, layout);
    forall kind: Kind ensures ConfigBacked(e, kind) {
      assert ConfigReady(d, kind);
      StagingIsCleanable(kind, d.SlotOf(kind), d.manifest.JournalOf(kind));
    }
  }

  lemma MissingCandidateMatters(plan: Plan, begin: Tree, d: Disk, layout: Layout)
    requires WellFormed(plan, begin) && At(plan, begin, d, layout) && Consistent(plan, layout)
    requires RollbackPhase(d.manifest.phase) && Validates(d, true)
    ensures Validates(d, false)
  {
    PaintedLocated(plan, begin, layout);
  }

  /** A phase is recorded along the transition graph, validated before and after, or not at all. */
  lemma RecordEffect(w: World, phase: Phase)
    ensures var outcome := Record(w, phase);
      var next := w.disk.(manifest := Advanced(w.disk.manifest, phase));
      var allowMissing := RollbackPhase(phase);
      && (outcome.Done? <==>
            && w.power > 0
            && (phase == w.disk.manifest.phase || phase in Transitions(w.disk.manifest.phase))
            && Validates(w.disk, allowMissing)
            && Validates(next, allowMissing))
      && outcome.world.disk == (if outcome.Done? then next else w.disk)
  {
  }

  lemma RecordedForward(plan: Plan, begin: Tree, d: Disk, phase: Phase, layout: Layout)
    requires ForwardState(plan, begin, d, layout) && !RollbackPhase(phase)
    ensures ForwardState(plan, begin, d.(manifest := Advanced(d.manifest, phase)), layout)
  {
    var e := d.(manifest := Advanced(d.manifest, phase));
    forall kind: Kind ensures ConfigReady(e, kind) {
      assert ConfigReady(d, kind);
    }
  }

  lemma RecordedRolling(plan: Plan, begin: Tree, d: Disk, phase: Phase, layout: Layout)
    requires RollingState(plan, begin, d, layout) && RollbackPhase(phase)
    ensures RollingState(plan, begin, d.(manifest := Advanced(d.manifest, phase)), layout)
  {
    var e := d.(manifest := Advanced(d.manifest, phase));
    forall kind: Kind ensures ConfigBacked(e, kind) {
      assert ConfigBacked(d, kind);
    }
  }

  lemma TurnBackKeepsInv(plan: Plan, begin: Tree, d: Disk)
    requires Inv(plan, begin, d) && !RollbackPhase(d.manifest.phase)
    ensures Inv(plan, begin, d.(manifest := Advanced(d.manifest, RollingBack)))
  {
    var layout :| ForwardState(plan, begin, d, layout);
    var e := d.(manifest := Advanced(d.manifest, RollingBack));
    ForwardTurnsBack(plan, begin, d, e, layout);
    RollingStateValidates(plan, begin, e, layout);
  }

  lemma RollingRecordKeepsInv(plan: Plan, begin: Tree, d: Disk, phase: Phase)
    requires Inv(plan, begin, d) && RollbackPhase(d.manifest.phase) && RollbackPhase(phase)
    requires Validates(d.(manifest := Advanced(d.manifest, phase)), true)
    ensures Inv(plan, begin, d.(manifest := Advanced(d.manifest, phase)))
  {
    var layout :| RollingState(plan, begin, d, layout);
    RecordedRolling(plan, begin, d, phase, layout);
    MissingCandidateMatters(plan, begin, d.(manifest := Advanced(d.manifest, phase)), layout);
  }

  lemma ForwardRecordKeepsInv(plan: Plan, begin: Tree, d: Disk, phase: Phase)
    requires Inv(plan, begin, d) && !RollbackPhase(d.manifest.phase) && !RollbackPhase(phase)
    requires Validates(d.(manifest := Advanced(d.manifest, phase)), false)
    ensures Inv(plan, begin, d.(manifest := Advanced(d.manifest, phase)))
  {
    var layout :| ForwardState(plan, begin, d, layout);
    RecordedForward(plan, begin, d, phase, layout);
  }

  lemma TransitionsRespectRollback(from: Phase, phase: Phase)
    requires phase in Transitions(from)
    ensures phase == RollingBack ==> !RollbackPhase(from)
    ensures phase != RollingBack ==> (RollbackPhase(phase) <==> RollbackPhase(from))
  {
  }

  lemma RecordKeepsInv(plan: Plan, begin: Tree, w: World, phase: Phase)
    requires Inv(plan, begin, w.disk)
    ensures Inv(plan, begin, Record(w, phase).world.disk)
  {
    var d := w.disk;
    RecordEffect(w, phase);
    var done := Record(w, phase).Done?;
    if done && phase != d.manifest.phase {
      TransitionsRespectRollback(d.manifest.phase, phase);
      if phase == RollingBack {
        TurnBackKeepsInv(plan, begin, d);
      } else if RollbackPhase(phase) {
        RollingRecordKeepsInv(plan, begin, d, phase);
      } else {
        ForwardRecordKeepsInv(plan, begin, d, phase);
      }
    }
  }

  // ---------- activate_files ----------

  /** Only the release tree changed, nothing was refused, and `cost` steps of power suffice. */
  ghost predicate TreeStep(w: World, outcome: Outcome, cost: nat) {
    && !outcome.Raised?
    && outcome.world.disk == w.disk.(tree := outcome.world.disk.tree)
    && (w.power >= cost ==> outcome.Done?)
    && (outcome.Done? ==> outcome.world.power + cost >= w.power)
  }

  ghost predicate ForwardStep(plan: Plan, begin: Tree, w: World, outcome: Outcome, next: Layout) {
    && TreeStep(w, outcome, 1)
    && At(plan, begin, outcome.world.disk, next)
    && Forward(plan, next)
  }

  lemma QuarantineStep(plan: Plan, begin: Tree, w: World, layout: Layout) returns (next: Layout)
    requires WellFormed(plan, begin) && At(plan, begin, w.disk, layout) && Forward(plan, layout)
    ensures ForwardStep(plan, begin, w, QuarantineOld(w), next)
    ensures QuarantineOld(w).Done? ==> (plan.OldMoves() ==> !next.home)
  {
    next := layout;
    PaintedReleases(plan, begin, layout);
    if plan.OldMoves() && layout.home {
      OldQuarantined(plan, begin, layout);
      if QuarantineOld(w).Done? {
        next := layout.(home := false, current := if plan.current.Directory? then Removed else layout.current);
      }
    } else if plan.OldMoves() {
      PaintedReleaseDir(plan, begin, layout);
      DirectoriesConserved(plan, begin, layout);
    }
  }

  lemma InstallStep(plan: Plan, begin: Tree, w: World, layout: Layout) returns (next: Layout)
    requires WellFormed(plan, begin) && At(plan, begin, w.disk, layout) && Forward(plan, layout)
    requires plan.OldMoves() ==> !layout.home
    ensures ForwardStep(plan, begin, w, InstallCandidate(w), next)
    ensures InstallCandidate(w).Done? ==> next.spot == AtTarget
  {
    next := layout;
    PaintedReleases(plan, begin, layout);
    if layout.spot == AtSource {
      CandidateInstalled(plan, begin, layout);
      if InstallCandidate(w).Done? {
        next := layout.(spot := AtTarget);
      }
    }
  }

  lemma PreviousStep(plan: Plan, begin: Tree, w: World, layout: Layout) returns (next: Layout)
    requires WellFormed(plan, begin) && At(plan, begin, w.disk, layout) && Forward(plan, layout)
    requires layout.spot == AtTarget
    ensures ForwardStep(plan, begin, w, PointPrevious(w), next)
    ensures next.spot == AtTarget
    ensures PointPrevious(w).Done? ==> (plan.oldRelease.Some? ==> next.swapped)
  {
    next := layout;
    PaintedEntries(plan, begin, layout);
    if plan.oldRelease.Some? {
      PreviousSwapped(plan, begin, layout);
      if PointPrevious(w).Done? {
        next := layout.(swapped := true);
      }
    }
  }

  lemma CurrentStep(plan: Plan, begin: Tree, w: World, layout: Layout) returns (next: Layout)
    requires WellFormed(plan, begin) && At(plan, begin, w.disk, layout) && Forward(plan, layout)
    requires layout.spot == AtTarget && (plan.oldRelease.Some? ==> layout.swapped)
    ensures ForwardStep(plan, begin, w, PointCurrent(w), next)
    ensures PointCurrent(w).Done? ==> next == FinalLayout(plan)
  {
    next := layout;
    PaintedEntries(plan, begin, layout);
    CurrentTaken(plan, begin, layout);
    if PointCurrent(w).Done? {
      next := layout.(current := Taken);
    }
  }

  const ACTIVATE_STEPS: nat := 4

  /** Wherever the power goes, the tree is left in a forward layout; with enough power it is
      the final tree, which does not depend on where an earlier attempt was cut. */
  lemma ActivationMovesForward(plan: Plan, begin: Tree, w: World, layout: Layout) returns (next: Layout)
    requires WellFormed(plan, begin) && At(plan, begin, w.disk, layout) && Forward(plan, layout)
    ensures var outcome := ActivationMoves(w);
      && !outcome.Raised?
      && outcome.world.disk == w.disk.(tree := outcome.world.disk.tree)
      && At(plan, begin, outcome.world.disk, next)
      && Forward(plan, next)
      && (w.power >= ACTIVATE_STEPS ==> outcome.Done?)
      && (outcome.Done? ==> next == FinalLayout(plan))
  {
    next := QuarantineStep(plan, begin, w, layout);
    var quarantined := QuarantineOld(w);
    if quarantined.Done? {
      next := InstallStep(plan, begin, quarantined.world, next);
      var installed := InstallCandidate(quarantined.world);
      if installed.Done? {
        next := PreviousStep(plan, begin, installed.world, next);
        var taken := PointPrevious(installed.world);
        if taken.Done? {
          next := CurrentStep(plan, begin, taken.world, next);
        }
      }
    }
  }

  lemma ActivateMovesForward(plan: Plan, begin: Tree, w: World, layout: Layout) returns (next: Layout)
    requires WellFormed(plan, begin) && At(plan, begin, w.disk, layout) && Forward(plan, layout)
    requires Validates(w.disk, false) && w.disk.manifest.phase == Linking
    ensures var outcome := ActivateFiles(w);
      && !outcome.Raised?
      && outcome.world.disk == w.disk.(tree := outcome.world.disk.tree)
      && At(plan, begin, outcome.world.disk, next)
      && Forward(plan, next)
      && (w.power >= ACTIVATE_STEPS ==> outcome.Done?)
      && (outcome.Done? ==> next == FinalLayout(plan))
  {
    next := ActivationMovesForward(plan, begin, w, layout);
    PaintedReleases(plan, begin, next);
  }

  lemma ForwardTreeKeepsInv(plan: Plan, begin: Tree, d: Disk, e: Disk, next: Layout)
    requires Inv(plan, begin, d) && d.manifest.phase == Linking
    requires e == d.(tree := e.tree) && At(plan, begin, e, next) && Forward(plan, next)
    ensures Inv(plan, begin, e)
  {
    var layout :| ForwardState(plan, begin, d, layout);
    forall kind: Kind ensures ConfigReady(e, kind) {
      assert ConfigReady(d, kind);
    }
    assert ForwardState(plan, begin, e, next);
    LinkingStateValidates(plan, begin, e, next);
  }

  lemma ActivateKeepsInv(plan: Plan, begin: Tree, w: World)
    requires Inv(plan, begin, w.disk)
    ensures Inv(plan, begin, ActivateFiles(w).world.disk)
  {
    if w.disk.manifest.phase == Linking {
      var layout :| ForwardState(plan, begin, w.disk, layout);
      var next := ActivateMovesForward(plan, begin, w, layout);
      ForwardTreeKeepsInv(plan, begin, w.disk, ActivateFiles(w).world.disk, next);
    }
  }

  /** Forward recovery: from any state a cut activation leaves, running it again with enough
      power completes, in one and the same final tree, and `linked` can be recorded. */
  lemma ActivationRecovers(plan: Plan, begin: Tree, w: World)
    requires Inv(plan, begin, w.disk) && w.disk.manifest.phase == Linking
    requires w.power >= ACTIVATE_STEPS
    ensures var outcome := ActivateFiles(w);
      && outcome.Done?
      && outcome.world.disk == w.disk.(tree := Paint(plan, begin, FinalLayout(plan)))
  {
    var layout :| ForwardState(plan, begin, w.disk, layout);
    var next := ActivateMovesForward(plan, begin, w, layout);
  }

  lemma FinalTreeLinks(plan: Plan, begin: Tree, w: World)
    requires Inv(plan, begin, w.disk) && w.disk.manifest.phase == Linking && w.power > 0
    requires w.disk.tree == Paint(plan, begin, FinalLayout(plan))
    ensures Record(w, Linked).Done?
  {
    var final := FinalLayout(plan);
    assert Consistent(plan, final);
    PaintedLocated(plan, begin, final);
    PaintedReleases(plan, begin, final);
    PaintedEntries(plan, begin, final);
    if plan.oldRelease.None? {
      PreviousKeepsResolving(plan, begin, final);
    }
    var layout :| ForwardState(plan, begin, w.disk, layout);
    assert ConfigReady(w.disk, Env) && ConfigReady(w.disk, Service);
    assert Validates(w.disk.(manifest := Advanced(w.disk.manifest, Linked)), false);
    RecordEffect(w, Linked);
  }

  // ---------- restore_files ----------

  ghost predicate RollingStep(plan: Plan, begin: Tree, w: World, outcome: Outcome, cost: nat, next: Layout) {
    && TreeStep(w, outcome, cost)
    && At(plan, begin, outcome.world.disk, next)
    && Rolling(plan, next)
  }

  lemma VacateStep(plan: Plan, begin: Tree, w: World, layout: Layout) returns (next: Layout)
    requires WellFormed(plan, begin) && At(plan, begin, w.disk, layout) && Rolling(plan, layout) && !layout.home
    ensures RollingStep(plan, begin, w, VacateOldSource(w), 1, next)
    ensures !next.home
    ensures VacateOldSource(w).Done? ==> plan.oldRelease.value.source !in VacateOldSource(w).world.disk.tree
  {
    next := layout;
    PaintedReleases(plan, begin, layout);
    PaintedEntries(plan, begin, layout);
    PaintedReleaseDir(plan, begin, layout);
    if plan.current.Directory? {
      LegacyLinkRemoved(plan, begin, layout);
      if VacateOldSource(w).Done? {
        next := layout.(current := Removed);
        PaintedEntries(plan, begin, next);
      }
    } else if layout.spot == AtTarget {
      CandidateParked(plan, begin, layout);
      if VacateOldSource(w).Done? {
        next := layout.(spot := AtParked);
        PaintedReleaseDir(plan, begin, next);
      }
    }
  }

  lemma ReturnStep(plan: Plan, begin: Tree, w: World, layout: Layout) returns (next: Layout)
    requires WellFormed(plan, begin) && At(plan, begin, w.disk, layout) && Rolling(plan, layout)
    ensures RollingStep(plan, begin, w, ReturnOld(w), 2, next)
    ensures ReturnOld(w).Done? ==> next.home
  {
    next := layout;
    PaintedReleases(plan, begin, layout);
    if !layout.home {
      DirectoriesConserved(plan, begin, layout);
      next := VacateStep(plan, begin, w, layout);
      var vacated := VacateOldSource(w);
      if vacated.Done? {
        PaintedReleases(plan, begin, next);
        OldReturned(plan, begin, next);
        if vacated.world.power > 0 {
          next := next.(home := true, current := if plan.current.Directory? then Untouched else next.current);
        }
      }
    }
  }

  lemma RestoreCurrentStep(plan: Plan, begin: Tree, w: World, layout: Layout) returns (next: Layout)
    requires WellFormed(plan, begin) && At(plan, begin, w.disk, layout) && Rolling(plan, layout) && layout.home
    ensures RollingStep(plan, begin, w, RestoreCurrent(w), 1, next)
    ensures next.home
    ensures RestoreCurrent(w).Done? ==> next.current == Untouched
  {
    next := layout;
    PaintedEntries(plan, begin, layout);
    PaintedReleases(plan, begin, layout);
    if !plan.current.Directory? {
      CurrentRestored(plan, begin, layout);
      if RestoreCurrent(w).Done? {
        next := layout.(current := Untouched);
      }
    }
  }

  lemma RestorePreviousStep(plan: Plan, begin: Tree, w: World, layout: Layout) returns (next: Layout)
    requires WellFormed(plan, begin) && At(plan, begin, w.disk, layout) && Rolling(plan, layout)
    ensures RollingStep(plan, begin, w, RestorePrevious(w), 1, next)
    ensures next.home == layout.home && next.current == layout.current
    ensures RestorePrevious(w).Done? ==> !next.swapped
  {
    next := layout;
    PaintedEntries(plan, begin, layout);
    PreviousRestored(plan, begin, layout);
    if RestorePrevious(w).Done? {
      next := layout.(swapped := false);
    }
  }

  /** The release tree under a rollback that is cut anywhere, and when it is not cut. */
  lemma RestoreMovesBack(plan: Plan, begin: Tree, w: World, layout: Layout) returns (next: Layout)
    requires WellFormed(plan, begin) && At(plan, begin, w.disk, layout) && Rolling(plan, layout)
    ensures RollingStep(plan, begin, w, RestoreMoves(w), 4, next)
    ensures RestoreMoves(w).Done? ==> next == Layout(true, next.spot, Untouched, false)
  {
    next := ReturnStep(plan, begin, w, layout);
    var returned := ReturnOld(w);
    if returned.Done? {
      next := RestoreCurrentStep(plan, begin, returned.world, next);
      var current := RestoreCurrent(returned.world);
      if current.Done? {
        next := RestorePreviousStep(plan, begin, current.world, next);
      }
    }
  }

  // the configuration part of a rollback

  /** `stuck`: one of the checks refuses, and the step can end in nothing else but a power loss before it. */
  ghost predicate ConfigStep(w: World, outcome: Outcome, cost: nat, stuck: bool) {
    && outcome.world.disk.tree == w.disk.tree
    && outcome.world.disk.manifest == w.disk.manifest
    && ConfigsBacked(outcome.world.disk)
    && (StuckService(outcome.world.disk) <==> StuckService(w.disk))
    && (stuck ==> !outcome.Done?)
    && (!stuck ==> !outcome.Raised?)
    && (!stuck && w.power >= cost ==> outcome.Done?)
    && (outcome.Done? ==> outcome.world.power + cost >= w.power)
  }

  predicate StuckService(d: Disk) {
    Stale(d.service, d.manifest.service)
  }

  predicate NoStaging(slot: Slot) {
    slot.source.None? && slot.publication.None?
  }

  lemma CleanStagingStep(w: World, kind: Kind)
    requires ConfigsBacked(w.disk)
    ensures ConfigStep(w, CleanStaging(w, kind), 2, kind.Service? && StuckService(w.disk))
    ensures CleanStaging(w, kind).Done? ==> NoStaging(CleanStaging(w, kind).world.disk.SlotOf(kind))
    ensures OnlyConfigChanged(w.disk, CleanStaging(w, kind).world.disk, kind)
  {
    assert ConfigBacked(w.disk, kind);
    if kind.Service? && StuckService(w.disk) {
      assert CleanStaging(w, kind) == Raised(w);
    } else {
      CleanStagingRemoves(w, kind);
      forall other: Kind ensures ConfigBacked(CleanStaging(w, kind).world.disk, other) {
        assert ConfigBacked(w.disk, other);
      }
      CleanableIsNotStale(CleanStaging(w, kind).world.disk.SlotOf(kind), w.disk.manifest.JournalOf(kind));
    }
  }

  lemma CleanableIsNotStale(slot: Slot, journal: Journal)
    requires Cleanable(slot, journal)
    ensures !Stale(slot, journal)
  {
  }

  lemma RestoreConfigurationStep(w: World, kind: Kind, inode: nat)
    requires ConfigsBacked(w.disk) && NoStaging(w.disk.SlotOf(kind))
    ensures var outcome := RestoreConfiguration(w, kind, inode);
      && ConfigStep(w, outcome, 1, false)
      && OnlyConfigChanged(w.disk, outcome.world.disk, kind)
      && (outcome.Done? ==>
            && NoStaging(outcome.world.disk.SlotOf(kind))
            && ContentOf(outcome.world.disk.SlotOf(kind).dest) == w.disk.manifest.plan.Original(kind))
  {
    var outcome := RestoreConfiguration(w, kind, inode);
    forall other: Kind ensures ConfigBacked(outcome.world.disk, other) {
      assert ConfigBacked(w.disk, other);
    }
  }

  ghost predicate ConfigsRestored(d: Disk) {
    forall kind: Kind ::
      && NoStaging(d.SlotOf(kind))
      && ContentOf(d.SlotOf(kind).dest) == d.manifest.plan.Original(kind)
  }

  lemma RestoreConfigsStep(w: World, envInode: nat, serviceInode: nat)
    requires ConfigsBacked(w.disk)
    ensures ConfigStep(w, RestoreConfigs(w, envInode, serviceInode), 6, StuckService(w.disk))
    ensures RestoreConfigs(w, envInode, serviceInode).Done? ==>
              ConfigsRestored(RestoreConfigs(w, envInode, serviceInode).world.disk)
  {
    CleanStagingStep(w, Env);
    var envClean := CleanStaging(w, Env);
    if envClean.Done? {
      CleanStagingStep(envClean.world, Service);
      var clean := CleanStaging(envClean.world, Service);
      if clean.Done? {
        RestoreConfigurationStep(clean.world, Env, envInode);
        var envBack := RestoreConfiguration(clean.world, Env, envInode);
        if envBack.Done? {
          RestoreConfigurationStep(envBack.world, Service, serviceInode);
        }
      }
    }
  }

  const RESTORE_STEPS: nat := 10

  lemma ValidatesEitherWay(d: Disk)
    requires Validates(d, false)
    ensures Validates(d, true)
  {
  }

  /** A restore cut anywhere stays in a rollback state; with enough power the tree is back, and the restore completes
      exactly when no stale service draft stands in its way. */
  lemma RestoreRolls(plan: Plan, begin: Tree, w: World, envInode: nat, serviceInode: nat, layout: Layout)
    returns (next: Layout)
    requires WellFormed(plan, begin) && RollingState(plan, begin, w.disk, layout)
    requires Validates(w.disk, true) && w.disk.manifest.phase == RollingBack
    ensures var outcome := RestoreFiles(w, envInode, serviceInode);
      && RollingState(plan, begin, outcome.world.disk, next)
      && outcome.world.disk.manifest == w.disk.manifest
      && (StuckService(outcome.world.disk) <==> StuckService(w.disk))
      && (outcome.Raised? ==> StuckService(w.disk))
      && (outcome.Done? ==> !StuckService(w.disk))
      && (w.power >= RESTORE_STEPS ==>
            && (outcome.Done? <==> !StuckService(w.disk))
            && next == Layout(true, next.spot, Untouched, false))
      && (outcome.Done? ==>
            && next == Layout(true, next.spot, Untouched, false)
            && ConfigsRestored(outcome.world.disk))
  {
    next := RestoreMovesBack(plan, begin, w, layout);
    var moved := RestoreMoves(w);
    forall kind: Kind ensures ConfigBacked(moved.world.disk, kind) {
      assert ConfigBacked(w.disk, kind);
    }
    if moved.Done? {
      RestoreConfigsStep(moved.world, envInode, serviceInode);
    }
  }

  lemma RestoreKeepsInv(plan: Plan, begin: Tree, w: World, envInode: nat, serviceInode: nat)
    requires Inv(plan, begin, w.disk)
    ensures var e := RestoreFiles(w, envInode, serviceInode).world.disk;
      Inv(plan, begin, e) && e.manifest == w.disk.manifest && (StuckService(e) <==> StuckService(w.disk))
  {
    if w.disk.manifest.phase == RollingBack {
      ValidatesEitherWay(w.disk);
      var layout :| RollingState(plan, begin, w.disk, layout);
      var next := RestoreRolls(plan, begin, w, envInode, serviceInode, layout);
      RollingStateValidates(plan, begin, RestoreFiles(w, envInode, serviceInode).world.disk, next);
    }
  }
}
