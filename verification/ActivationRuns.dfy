/** Runs: any sequence of commands, each cut after any number of durable steps. */
module ActivationRuns {
  import opened Options
  import opened ActivationModel
  import opened ActivationLayout
  import opened ActivationConfig
  import opened ActivationReplace
  import opened ActivationSafety

  datatype Command =
    | RecordPhase(phase: Phase)
    | Replace(kind: Kind, mode: nat)
    | Draft(kind: Kind, inode: nat, digest: nat)
    | Activate
    | Restore(envInode: nat, serviceInode: nat)

  /** A command and the number of durable steps before the power goes. */
  datatype Call = Call(command: Command, power: nat)

  function Perform(d: Disk, call: Call): Disk {
    var w := World(d, call.power);
    match call.command
    case RecordPhase(phase) => Record(w, phase).world.disk
    case Replace(kind, mode) => ReplaceConfig(w, kind, mode).world.disk
    case Draft(kind, inode, digest) => if CanDraft(d.SlotOf(kind), inode) then Drafted(d, kind, inode, digest) else d
    case Activate => ActivateFiles(w).world.disk
    case Restore(envInode, serviceInode) => RestoreFiles(w, envInode, serviceInode).world.disk
  }

  function Execute(d: Disk, script: seq<Call>): Disk
    decreases |script|
  {
    if script == [] then d else Execute(Perform(d, script[0]), script[1..])
  }

  /** The call is no `replace_config` that would be fatal where it is made. */
  predicate Permitted(d: Disk, call: Call) {
    call.command.Replace? && ReplaceAccepted(d.manifest.phase) ==>
      !Fatal(World(d, call.power), call.command.kind, call.command.mode)
  }

  predicate PermittedScript(d: Disk, script: seq<Call>)
    decreases |script|
  {
    script == [] ||
    (Permitted(d, script[0]) && PermittedScript(Perform(d, script[0]), script[1..]))
  }

  lemma ReplacedForward(plan: Plan, begin: Tree, d: Disk, e: Disk, kind: Kind, layout: Layout)
    requires ForwardState(plan, begin, d, layout) && OnlyConfigChanged(d, e, kind)
    requires ConfigReady(e, kind)
    ensures ForwardState(plan, begin, e, layout)
  {
    forall other: Kind ensures ConfigReady(e, other) {
      assert ConfigReady(d, other);
    }
  }

  lemma RefusedReplace(w: World, kind: Kind, mode: nat)
    requires !Validates(w.disk, false) || !ReplaceAccepted(w.disk.manifest.phase)
    ensures ReplaceConfig(w, kind, mode).world == w
  {
  }

  lemma ReplaceKeepsInv(plan: Plan, begin: Tree, w: World, kind: Kind, mode: nat)
    requires Inv(plan, begin, w.disk)
    requires ReplaceAccepted(w.disk.manifest.phase) ==> !Fatal(w, kind, mode)
    ensures Inv(plan, begin, ReplaceConfig(w, kind, mode).world.disk)
  {
    if ReplaceAccepted(w.disk.manifest.phase) {
      var layout :| ForwardState(plan, begin, w.disk, layout);
      assert ConfigReady(w.disk, kind);
      AcceptedReplaceKeeps(w, kind, mode);
      ReplaceIsFatalExactlyWhen(w, kind, mode);
      ReplacedForward(plan, begin, w.disk, ReplaceConfig(w, kind, mode).world.disk, kind, layout);
    } else {
      RefusedReplace(w, kind, mode);
    }
  }

  lemma DraftKeepsForward(plan: Plan, begin: Tree, d: Disk, kind: Kind, inode: nat, digest: nat, layout: Layout)
    requires ForwardState(plan, begin, d, layout) && CanDraft(d.SlotOf(kind), inode)
    ensures ForwardState(plan, begin, Drafted(d, kind, inode, digest), layout)
  {
    forall other: Kind ensures ConfigReady(Drafted(d, kind, inode, digest), other) {
      assert ConfigReady(d, other);
    }
  }

  lemma DraftKeepsValidity(d: Disk, kind: Kind, inode: nat, digest: nat)
    requires Validates(d, false) && CanDraft(d.SlotOf(kind), inode)
    ensures Validates(Drafted(d, kind, inode, digest), false)
  {
  }

  lemma DraftKeepsRolling(plan: Plan, begin: Tree, d: Disk, kind: Kind, inode: nat, digest: nat, layout: Layout)
    requires RollingState(plan, begin, d, layout) && CanDraft(d.SlotOf(kind), inode)
    ensures RollingState(plan, begin, Drafted(d, kind, inode, digest), layout)
  {
    forall other: Kind ensures ConfigBacked(Drafted(d, kind, inode, digest), other) {
      assert ConfigBacked(d, other);
    }
  }

  lemma DraftKeepsInv(plan: Plan, begin: Tree, d: Disk, kind: Kind, inode: nat, digest: nat)
    requires Inv(plan, begin, d) && CanDraft(d.SlotOf(kind), inode)
    ensures Inv(plan, begin, Drafted(d, kind, inode, digest))
  {
    DraftKeepsValidity(d, kind, inode, digest);
    var layout :| ForwardState(plan, begin, d, layout) || RollingState(plan, begin, d, layout);
    if ForwardState(plan, begin, d, layout) {
      DraftKeepsForward(plan, begin, d, kind, inode, digest, layout);
    } else {
      DraftKeepsRolling(plan, begin, d, kind, inode, digest, layout);
    }
  }

  lemma PerformKeepsInv(plan: Plan, begin: Tree, d: Disk, call: Call)
    requires Inv(plan, begin, d) && Permitted(d, call)
    ensures Inv(plan, begin, Perform(d, call))
  {
    var w := World(d, call.power);
    match call.command
    case RecordPhase(phase) => RecordKeepsInv(plan, begin, w, phase);
    case Replace(kind, mode) => ReplaceKeepsInv(plan, begin, w, kind, mode);
    case Draft(kind, inode, digest) =>
      if CanDraft(d.SlotOf(kind), inode) {
        DraftKeepsInv(plan, begin, d, kind, inode, digest);
      }
    case Activate => ActivateKeepsInv(plan, begin, w);
    case Restore(envInode, serviceInode) => RestoreKeepsInv(plan, begin, w, envInode, serviceInode);
  }

  // ---------- a failed validation is final ----------

  lemma RefusedCallChangesNothing(d: Disk, call: Call)
    requires !Validates(d, true)
    ensures var e := Perform(d, call);
      && e.manifest == d.manifest && e.tree == d.tree
      && e.env.dest == d.env.dest && e.service.dest == d.service.dest
      && !Validates(e, true)
  {
    assert !Validates(d, false);
  }

  /** Once the persisted phase does not validate, no call changes the tree, the manifest or a
      published file ever again: neither commit nor rollback can be reached. */
  lemma {:induction false} WedgedForGood(d: Disk, script: seq<Call>)
    requires !Validates(d, true)
    ensures var e := Execute(d, script);
      && e.manifest == d.manifest && e.tree == d.tree
      && e.env.dest == d.env.dest && e.service.dest == d.service.dest
      && !Validates(e, true)
    decreases |script|
  {
    if script != [] {
      RefusedCallChangesNothing(d, script[0]);
      WedgedForGood(Perform(d, script[0]), script[1..]);
    }
  }

  // ---------- every script, permitted or not ----------

  /** A transaction that a fatal `replace_config` has wedged, with its tree as it was. */
  ghost predicate Wedged(plan: Plan, begin: Tree, d: Disk) {
    && !Validates(d, true)
    && ReplaceAccepted(d.manifest.phase)
    && exists layout :: At(plan, begin, d, layout) && Forward(plan, layout)
  }

  lemma FatalReplaceWedges(plan: Plan, begin: Tree, d: Disk, call: Call)
    requires Inv(plan, begin, d) && !Permitted(d, call)
    ensures Wedged(plan, begin, Perform(d, call))
  {
    var kind, mode, w := call.command.kind, call.command.mode, World(d, call.power);
    var layout :| ForwardState(plan, begin, d, layout);
    assert ConfigReady(d, kind);
    AcceptedReplaceKeeps(w, kind, mode);
    ReplaceIsFatalExactlyWhen(w, kind, mode);
    assert At(plan, begin, Perform(d, call), layout);
  }

  lemma WedgedStaysWedged(plan: Plan, begin: Tree, d: Disk, script: seq<Call>)
    requires Wedged(plan, begin, d)
    ensures Wedged(plan, begin, Execute(d, script))
  {
    WedgedForGood(d, script);
    var layout :| At(plan, begin, d, layout) && Forward(plan, layout);
    assert At(plan, begin, Execute(d, script), layout);
  }

  /** A script keeps the invariant exactly when none of its calls is fatal where it is made; otherwise it ends wedged. */
  lemma {:induction false} ScriptKeepsOrWedges(plan: Plan, begin: Tree, d: Disk, script: seq<Call>)
    requires Inv(plan, begin, d)
    ensures var reached := Execute(d, script);
      if PermittedScript(d, script) then Inv(plan, begin, reached) else Wedged(plan, begin, reached)
    decreases |script|
  {
    if script != [] {
      if Permitted(d, script[0]) {
        PerformKeepsInv(plan, begin, d, script[0]);
        ScriptKeepsOrWedges(plan, begin, Perform(d, script[0]), script[1..]);
      } else {
        FatalReplaceWedges(plan, begin, d, script[0]);
        WedgedStaysWedged(plan, begin, Perform(d, script[0]), script[1..]);
      }
    }
  }

  // ---------- never wedged ----------

  predicate Undecided(phase: Phase) {
    !RollbackPhase(phase) && phase != Committing && phase != Committed
  }

  lemma RollbackCanBeRecorded(plan: Plan, begin: Tree, d: Disk, power: nat)
    requires Inv(plan, begin, d) && Undecided(d.manifest.phase) && power > 0
    ensures Record(World(d, power), RollingBack).Done?
  {
    TurnBackKeepsInv(plan, begin, d);
    ValidatesEitherWay(d);
    ValidatesEitherWay(d.(manifest := Advanced(d.manifest, RollingBack)));
    assert RollingBack in Transitions(d.manifest.phase);
    RecordEffect(World(d, power), RollingBack);
  }

  /** The state a script reaches validates exactly when no `replace_config` in it was fatal where it was made; and
      then, until `committing` is entered, the rollback can be recorded with a single durable step. */
  lemma NeverWedged(plan: Plan, begin: Tree, d: Disk, script: seq<Call>)
    requires Began(plan, begin, d)
    ensures var reached := Execute(d, script);
      && (Validates(reached, false) <==> PermittedScript(d, script))
      && (Validates(reached, true) <==> PermittedScript(d, script))
      && (Undecided(reached.manifest.phase) ==>
            forall power: nat :: power > 0 ==>
              (Record(World(reached, power), RollingBack).Done? <==> PermittedScript(d, script)))
  {
    BeginEstablishesInv(plan, begin, d);
    ScriptKeepsOrWedges(plan, begin, d, script);
    var reached := Execute(d, script);
    if PermittedScript(d, script) {
      ValidatesEitherWay(reached);
      forall power: nat | power > 0 && Undecided(reached.manifest.phase)
        ensures Record(World(reached, power), RollingBack).Done?
      {
        RollbackCanBeRecorded(plan, begin, reached, power);
      }
    } else {
      forall power: nat ensures !Record(World(reached, power), RollingBack).Done? {
        RecordEffect(World(reached, power), RollingBack);
      }
    }
  }

  /** No release directory is lost or duplicated by any script whatever. */
  lemma ReleasesConserved(plan: Plan, begin: Tree, d: Disk, script: seq<Call>)
    requires Began(plan, begin, d)
    ensures var reached := Execute(d, script);
      && DistinctDirectories(reached.tree)
      && forall inode :: Holds(reached.tree, inode) <==> Holds(begin, inode)
  {
    BeginEstablishesInv(plan, begin, d);
    ScriptKeepsOrWedges(plan, begin, d, script);
    var reached := Execute(d, script);
    if PermittedScript(d, script) {
      var layout :| ForwardState(plan, begin, reached, layout) || RollingState(plan, begin, reached, layout);
      DirectoriesConserved(plan, begin, layout);
    } else {
      var layout :| At(plan, begin, reached, layout) && Forward(plan, layout);
      DirectoriesConserved(plan, begin, layout);
    }
  }

  // ---------- crash-safe rollback ----------

  predicate SameAt(tree: Tree, begin: Tree, path: Path) {
    (path in tree <==> path in begin) && (path in tree ==> tree[path] == begin[path])
  }

  /** Both links, the rollback release and both configuration files are as `begin` found them. */
  predicate SnapshotRestored(plan: Plan, begin: Tree, d: Disk) {
    && SameAt(d.tree, begin, Current)
    && SameAt(d.tree, begin, Previous)
    && (plan.oldRelease.Some? ==> Matches(d.tree, plan.oldRelease.value.source, plan.oldRelease.value))
    && ContentOf(d.env.dest) == plan.env
    && ContentOf(d.service.dest) == plan.service
  }

  /** The tree of `begin`, outside the candidate's own places. */
  ghost predicate TreeRestored(plan: Plan, begin: Tree, tree: Tree) {
    && (forall path :: path !in {plan.candidate.source, plan.candidate.target, ParkedCandidate} ==> SameAt(tree, begin, path))
    && (plan.oldRelease.Some? ==> Matches(tree, plan.oldRelease.value.source, plan.oldRelease.value))
  }

  /** From any state of a rollback, however it was cut, one run with enough power restores the whole begin tree outside
      the candidate's own places; it completes exactly when no stale service draft is in its way, and then both files
      are restored too, and `rolled-back` records. */
  lemma RestoreCompletes(plan: Plan, begin: Tree, d: Disk, power: nat, envInode: nat, serviceInode: nat)
    requires Inv(plan, begin, d) && d.manifest.phase == RollingBack && power >= RESTORE_STEPS
    ensures var outcome := RestoreFiles(World(d, power), envInode, serviceInode);
      var restored := outcome.world.disk;
      && TreeRestored(plan, begin, restored.tree)
      && (outcome.Done? <==> !StuckService(d))
      && (outcome.Done? ==>
            && SnapshotRestored(plan, begin, restored)
            && NoStaging(restored.env) && NoStaging(restored.service)
            && Record(World(restored, 1), RolledBack).Done?)
  {
    ValidatesEitherWay(d);
    var layout :| RollingState(plan, begin, d, layout);
    var next := RestoreRolls(plan, begin, World(d, power), envInode, serviceInode, layout);
    var restored := RestoreFiles(World(d, power), envInode, serviceInode).world.disk;
    RestoredTree(plan, begin, next);
    if !StuckService(d) {
      RestoredWhole(plan, begin, restored, next);
    }
  }

  lemma RestoredWhole(plan: Plan, begin: Tree, d: Disk, layout: Layout)
    requires WellFormed(plan, begin) && RollingState(plan, begin, d, layout) && d.manifest.phase == RollingBack
    requires layout == Layout(true, layout.spot, Untouched, false)
    requires ConfigsRestored(d)
    ensures SnapshotRestored(plan, begin, d) && NoStaging(d.env) && NoStaging(d.service)
    ensures Record(World(d, 1), RolledBack).Done?
  {
    RestoredTree(plan, begin, layout);
    RestoredRecords(plan, begin, d, layout);
    assert NoStaging(d.SlotOf(Env)) && NoStaging(d.SlotOf(Service));
    assert ContentOf(d.SlotOf(Env).dest) == plan.Original(Env) && ContentOf(d.SlotOf(Service).dest) == plan.Original(Service);
  }

  lemma RestoredTree(plan: Plan, begin: Tree, layout: Layout)
    requires WellFormed(plan, begin) && Rolling(plan, layout)
    requires layout == Layout(true, layout.spot, Untouched, false)
    ensures TreeRestored(plan, begin, Paint(plan, begin, layout))
  {
  }

  lemma RestoredRecords(plan: Plan, begin: Tree, d: Disk, layout: Layout)
    requires WellFormed(plan, begin) && RollingState(plan, begin, d, layout) && d.manifest.phase == RollingBack
    requires layout == Layout(true, layout.spot, Untouched, false)
    requires ConfigsRestored(d)
    ensures Record(World(d, 1), RolledBack).Done?
  {
    RollingStateValidates(plan, begin, d, layout);
    ValidatesEitherWay(d);
    PaintedReleases(plan, begin, layout);
    PaintedEntries(plan, begin, layout);
    PaintedLocated(plan, begin, layout);
    PreviousKeepsResolving(plan, begin, layout);
    var next := d.(manifest := Advanced(d.manifest, RolledBack));
    assert ConfigBacked(d, Env) && ConfigBacked(d, Service);
    assert ContentOf(d.SlotOf(Env).dest) == plan.env && ContentOf(d.SlotOf(Service).dest) == plan.service;
    if plan.current.Symlink? {
      assert begin[Current].text.path == plan.oldRelease.value.source;
    }
    assert Validates(next, true);
    RecordEffect(World(d, 1), RolledBack);
  }

  lemma ValidRolledBackTree(plan: Plan, begin: Tree, tree: Tree, layout: Layout)
    requires WellFormed(plan, begin) && Consistent(plan, layout) && tree == Paint(plan, begin, layout)
    requires OriginalCurrentValid(plan, tree) && OriginalPreviousValid(plan, tree)
    ensures plan.oldRelease.Some? ==> Matches(tree, plan.oldRelease.value.source, plan.oldRelease.value)
    ensures SameAt(tree, begin, Current) && SameAt(tree, begin, Previous)
  {
    if plan.oldRelease.Some? && plan.current.Symlink? {
      assert begin[Current].text.path == plan.oldRelease.value.source;
    }
  }

  /** `rolled-back` and `rollback-healthy` are only ever persisted over the begin snapshot. */
  lemma RolledBackMeansRestored(plan: Plan, begin: Tree, d: Disk, script: seq<Call>)
    requires Began(plan, begin, d)
    ensures var reached := Execute(d, script);
      reached.manifest.phase in {RolledBack, RollbackHealthy} ==> SnapshotRestored(plan, begin, reached)
  {
    BeginEstablishesInv(plan, begin, d);
    ScriptKeepsOrWedges(plan, begin, d, script);
    if Execute(d, script).manifest.phase in {RolledBack, RollbackHealthy} {
      RolledBackShows(plan, begin, Execute(d, script));
    }
  }

  lemma RolledBackShows(plan: Plan, begin: Tree, d: Disk)
    requires Inv(plan, begin, d) && d.manifest.phase in {RolledBack, RollbackHealthy}
    ensures SnapshotRestored(plan, begin, d)
  {
    var layout :| RollingState(plan, begin, d, layout);
    ValidRolledBackTree(plan, begin, d.tree, layout);
  }

  /** The whole story: any run, the rollback decision, any number of interrupted restores, and one with enough power.
      The decision is taken exactly when no call of the run was fatal; the last restore puts the tree back, and completes
      exactly when the service draft was not stale at the decision; then the begin snapshot is restored. */
  lemma CrashSafeRollback(plan: Plan, begin: Tree, d: Disk, script: seq<Call>,
    interrupted: seq<Call>, power: nat, envInode: nat, serviceInode: nat)
    requires Began(plan, begin, d)
    requires Undecided(Execute(d, script).manifest.phase)
    requires forall i :: 0 <= i < |interrupted| ==> interrupted[i].command.Restore?
    requires power >= RESTORE_STEPS
    ensures var turned := Record(World(Execute(d, script), 1), RollingBack);
      var cut := Execute(turned.world.disk, interrupted);
      var outcome := RestoreFiles(World(cut, power), envInode, serviceInode);
      && (turned.Done? <==> PermittedScript(d, script))
      && (turned.Done? ==>
            && TreeRestored(plan, begin, outcome.world.disk.tree)
            && (outcome.Done? <==> !StuckService(Execute(d, script)))
            && (outcome.Done? ==>
                  && SnapshotRestored(plan, begin, outcome.world.disk)
                  && Record(World(outcome.world.disk, 1), RolledBack).Done?))
  {
    NeverWedged(plan, begin, d, script);
    if PermittedScript(d, script) {
      BeginEstablishesInv(plan, begin, d);
      ScriptKeepsOrWedges(plan, begin, d, script);
      var reached := Execute(d, script);
      RecordEffect(World(reached, 1), RollingBack);
      RecordKeepsInv(plan, begin, World(reached, 1), RollingBack);
      var turned := Record(World(reached, 1), RollingBack).world.disk;
      RestoresStayRolling(plan, begin, turned, interrupted);
      RestoreCompletes(plan, begin, Execute(turned, interrupted), power, envInode, serviceInode);
    }
  }

  lemma RestoreStaysRolling(plan: Plan, begin: Tree, d: Disk, power: nat, envInode: nat, serviceInode: nat)
    requires Inv(plan, begin, d) && d.manifest.phase == RollingBack
    ensures var cut := RestoreFiles(World(d, power), envInode, serviceInode).world.disk;
      Inv(plan, begin, cut) && cut.manifest.phase == RollingBack && (StuckService(cut) <==> StuckService(d))
  {
    RestoreKeepsInv(plan, begin, World(d, power), envInode, serviceInode);
  }

  lemma {:induction false} RestoresStayRolling(plan: Plan, begin: Tree, d: Disk, restores: seq<Call>)
    requires Inv(plan, begin, d) && d.manifest.phase == RollingBack
    requires forall i :: 0 <= i < |restores| ==> restores[i].command.Restore?
    ensures var cut := Execute(d, restores);
      Inv(plan, begin, cut) && cut.manifest.phase == RollingBack && (StuckService(cut) <==> StuckService(d))
    decreases |restores|
  {
    if restores != [] {
      RestoreStaysRolling(plan, begin, d, restores[0].power, restores[0].command.envInode, restores[0].command.serviceInode);
      RestoresStayRolling(plan, begin, Perform(d, restores[0]), restores[1..]);
    }
  }

  /** A rollback that finds the service draft stale never completes, however often and with whatever power it is tried. */
  lemma StuckForGood(plan: Plan, begin: Tree, d: Disk, restores: seq<Call>, power: nat, envInode: nat, serviceInode: nat)
    requires Inv(plan, begin, d) && d.manifest.phase == RollingBack && StuckService(d)
    requires forall i :: 0 <= i < |restores| ==> restores[i].command.Restore?
    ensures !RestoreFiles(World(Execute(d, restores), power), envInode, serviceInode).Done?
  {
    RestoresStayRolling(plan, begin, d, restores);
    StuckOnce(plan, begin, World(Execute(d, restores), power), envInode, serviceInode);
  }

  lemma StuckOnce(plan: Plan, begin: Tree, w: World, envInode: nat, serviceInode: nat)
    requires Inv(plan, begin, w.disk) && w.disk.manifest.phase == RollingBack && StuckService(w.disk)
    ensures !RestoreFiles(w, envInode, serviceInode).Done?
  {
    ValidatesEitherWay(w.disk);
    var layout :| RollingState(plan, begin, w.disk, layout);
    var next := RestoreRolls(plan, begin, w, envInode, serviceInode, layout);
  }

  // ---------- forward recovery ----------

  lemma ReenteredActivation(plan: Plan, begin: Tree, d: Disk, power: nat)
    requires Inv(plan, begin, d) && d.manifest.phase == Linking && power >= ACTIVATE_STEPS
    ensures var outcome := ActivateFiles(World(d, power));
      && outcome.Done?
      && outcome.world.disk.tree == Paint(plan, begin, FinalLayout(plan))
      && Record(World(outcome.world.disk, 1), Linked).Done?
  {
    var w := World(d, power);
    ActivationRecovers(plan, begin, w);
    ActivateKeepsInv(plan, begin, w);
    FinalTreeLinks(plan, begin, World(ActivateFiles(w).world.disk, 1));
  }

  /** Re-entering `activate_files` in any state a run can leave `linking` in completes exactly when no call of the
      run was fatal; and then in the one final tree an uninterrupted run reaches, and `linked` can be recorded. */
  lemma ForwardRecovery(plan: Plan, begin: Tree, d: Disk, script: seq<Call>, power: nat)
    requires Began(plan, begin, d)
    requires Execute(d, script).manifest.phase == Linking
    requires power >= ACTIVATE_STEPS
    ensures var outcome := ActivateFiles(World(Execute(d, script), power));
      && (outcome.Done? <==> PermittedScript(d, script))
      && (outcome.Done? ==>
            && outcome.world.disk.tree == Paint(plan, begin, FinalLayout(plan))
            && Record(World(outcome.world.disk, 1), Linked).Done?)
  {
    NeverWedged(plan, begin, d, script);
    BeginEstablishesInv(plan, begin, d);
    ScriptKeepsOrWedges(plan, begin, d, script);
    if PermittedScript(d, script) {
      ReenteredActivation(plan, begin, Execute(d, script), power);
    }
  }

  /** What the final tree shows: both links moved, the candidate at its release path and the
      rollback release at the path `previous` names. */
  lemma FinalTreeShows(plan: Plan, begin: Tree)
    requires WellFormed(plan, begin)
    ensures var tree := Paint(plan, begin, FinalLayout(plan));
      && tree.Keys >= {Current, plan.ReleaseDir()}
      && tree[Current] == Link(Spelled(plan.ReleaseDir()))
      && Matches(tree, plan.ReleaseDir(), plan.candidate)
      && (plan.oldRelease.Some? ==>
            && Previous in tree && tree[Previous] == Link(Spelled(plan.oldRelease.value.target))
            && Matches(tree, plan.oldRelease.value.target, plan.oldRelease.value))
      && (plan.oldRelease.None? ==> SameAt(tree, begin, Previous))
  {
    PaintedReleases(plan, begin, FinalLayout(plan));
    PaintedEntries(plan, begin, FinalLayout(plan));
  }

  // ---------- commit and rollback exclude each other ----------

  function Fate(phase: Phase): int {
    if RollbackPhase(phase) then 0 - 1 else if phase in {Committing, Committed} then 1 else 0
  }

  lemma OnlyRecordMovesThePhase(d: Disk, call: Call)
    requires !call.command.RecordPhase?
    ensures Perform(d, call).manifest.phase == d.manifest.phase
  {
    var w := World(d, call.power);
    match call.command
    case Replace(kind, mode) => ReplaceKeepsPhase(w, kind, mode);
    case Draft(_, _, _) =>
    case Activate =>
    case Restore(envInode, serviceInode) => RestoreKeepsPhase(w, envInode, serviceInode);
  }

  lemma PublishKeepsManifest(w: World, kind: Kind)
    ensures Publish(w, kind).world.disk.manifest == w.disk.manifest
  {
    assert DropSharedSource(w, kind).world.disk.manifest == w.disk.manifest;
  }

  lemma DraftingKeepsPhase(w: World, kind: Kind, mode: nat)
    ensures PublishDraft(w, kind, mode).world.disk.manifest.phase == w.disk.manifest.phase
  {
    var journaled := WriteAhead(w, kind, mode);
    if journaled.Done? {
      var changed := ChangeMode(journaled.world, kind, mode);
      if changed.Done? {
        PublishKeepsManifest(LinkPublication(changed.world, kind).world, kind);
      }
    }
  }

  lemma ReplaceKeepsPhase(w: World, kind: Kind, mode: nat)
    ensures ReplaceConfig(w, kind, mode).world.disk.manifest.phase == w.disk.manifest.phase
  {
    PublishKeepsManifest(w, kind);
    DraftingKeepsPhase(w, kind, mode);
    assert ReplaceConfig(w, kind, mode).world in {w, Publish(w, kind).world, PublishDraft(w, kind, mode).world};
  }

  lemma ReturnOldKeepsManifest(w: World)
    ensures ReturnOld(w).world.disk.manifest == w.disk.manifest
  {
    assert VacateOldSource(w).world.disk.manifest == w.disk.manifest;
  }

  lemma MovesKeepManifest(w: World)
    ensures RestoreMoves(w).world.disk.manifest == w.disk.manifest
  {
    ReturnOldKeepsManifest(w);
    var returned := ReturnOld(w);
    if returned.Done? {
      assert RestoreCurrent(returned.world).world.disk.manifest == w.disk.manifest;
    }
  }

  lemma CleanStagingKeepsManifest(w: World, kind: Kind)
    ensures CleanStaging(w, kind).world.disk.manifest == w.disk.manifest
  {
    assert CleanSource(w, kind).world.disk.manifest == w.disk.manifest;
  }

  lemma ConfigsKeepManifest(w: World, envInode: nat, serviceInode: nat)
    ensures RestoreConfigs(w, envInode, serviceInode).world.disk.manifest == w.disk.manifest
  {
    CleanStagingKeepsManifest(w, Env);
    var envClean := CleanStaging(w, Env);
    if envClean.Done? {
      CleanStagingKeepsManifest(envClean.world, Service);
      var clean := CleanStaging(envClean.world, Service);
      if clean.Done? {
        assert RestoreConfiguration(clean.world, Env, envInode).world.disk.manifest == w.disk.manifest;
      }
    }
  }

  lemma RestoreKeepsPhase(w: World, envInode: nat, serviceInode: nat)
    ensures RestoreFiles(w, envInode, serviceInode).world.disk.manifest.phase == w.disk.manifest.phase
  {
    MovesKeepManifest(w);
    if RestoreMoves(w).Done? {
      ConfigsKeepManifest(RestoreMoves(w).world, envInode, serviceInode);
    }
  }

  lemma FateIsSettled(d: Disk, call: Call)
    requires Fate(d.manifest.phase) != 0
    ensures Fate(Perform(d, call).manifest.phase) == Fate(d.manifest.phase)
  {
    if call.command.RecordPhase? {
      RecordEffect(World(d, call.power), call.command.phase);
    } else {
      OnlyRecordMovesThePhase(d, call);
    }
  }

  /** Once committing or rolling back, every continuation stays on that side, so no run
      reaches both `committed` and `rollback-healthy`. */
  lemma {:induction false} CommitExcludesRollback(d: Disk, script: seq<Call>)
    requires Fate(d.manifest.phase) != 0
    ensures Fate(Execute(d, script).manifest.phase) == Fate(d.manifest.phase)
    ensures d.manifest.phase == Committed ==> Execute(d, script).manifest.phase != RollbackHealthy
    ensures d.manifest.phase == RollbackHealthy ==> Execute(d, script).manifest.phase != Committed
    decreases |script|
  {
    if script != [] {
      FateIsSettled(d, script[0]);
      CommitExcludesRollback(Perform(d, script[0]), script[1..]);
    }
  }
}
