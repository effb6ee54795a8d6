/**
 Where the activation's promises stop: the exact conditions on the calls and on the start
 state without which some cut leaves a transaction that no command accepts any more.
 */
module ActivationLimits {
  import opened Options
  import opened ActivationModel
  import opened ActivationLayout
  import opened ActivationConfig
  import opened ActivationReplace
  import opened ActivationSafety
  import opened ActivationRuns

  // ---------- changing the mode between attempts ----------

  /** From any staging state, at any cut, with any mode: what the call leaves can be cleaned up by the rollback unless it
      lost power right after journaling a draft that an earlier attempt had given another mode, or changed nothing and
      found it so. */
  lemma CleanupAfterModeChange(w: World, kind: Kind, mode: nat)
    requires ConfigReady(w.disk, kind)
    ensures var cut := ReplaceConfig(w, kind, mode).world.disk;
      (forall power: nat :: power >= 2 ==> CleanStaging(World(cut, power), kind).Done?) <==>
        if Journals(w, kind, mode) then w.power > 1 || w.disk.SlotOf(kind).source.value.mode in {MODE_0600, mode}
        else !Stale(w.disk.SlotOf(kind), w.disk.manifest.JournalOf(kind))
  {
    var cut := ReplaceConfig(w, kind, mode).world.disk;
    StaleExactlyWhen(w, kind, mode);
    if Validates(w.disk, false) && ReplaceAccepted(w.disk.manifest.phase) {
      AcceptedReplaceKeeps(w, kind, mode);
    } else {
      RefusedReplace(w, kind, mode);
    }
    CleansUpExactlyWhen(cut, kind);
  }

  lemma CleansUpExactlyWhen(d: Disk, kind: Kind)
    requires ConfigReady(d, kind)
    ensures (forall power: nat :: power >= 2 ==> CleanStaging(World(d, power), kind).Done?) <==>
              !Stale(d.SlotOf(kind), d.manifest.JournalOf(kind))
  {
    StagingIsCleanable(kind, d.SlotOf(kind), d.manifest.JournalOf(kind));
    if Stale(d.SlotOf(kind), d.manifest.JournalOf(kind)) {
      assert CleanStaging(World(d, 2), kind).Raised?;
    } else {
      forall power: nat | power >= 2 ensures CleanStaging(World(d, power), kind).Done? {
        CleanStagingRemoves(World(d, power), kind);
      }
    }
  }

  // ---------- which moves can be recovered ----------

  /** The first durable step of `activate_files` moves the rollback release.  A power loss right
      after it leaves a valid transaction exactly when the moved directory was `current` itself,
      or the release path spelled the way the candidate link will be, and `previous` did not
      resolve through it. */
  lemma FirstMoveIsRecoverableExactlyWhen(d: Disk)
    requires d.manifest.phase == Linking && Validates(d, false) && DistinctDirectories(d.tree)
    requires var plan := d.manifest.plan;
      && plan.OldMoves()
      && plan.oldRelease.value.target.InReleases?
      && (plan.oldRelease.value.source.InReleases? || plan.oldRelease.value.source == Current)
      && Matches(d.tree, plan.oldRelease.value.source, plan.oldRelease.value)
      && plan.oldRelease.value.target !in d.tree
      && plan.oldRelease.value.inode != plan.candidate.inode
      && Matches(d.tree, plan.candidate.source, plan.candidate)
      && plan.candidate.source.InReleases? && plan.candidate.target.InReleases?
      && (plan.candidate.target in d.tree ==> plan.candidate.target == plan.oldRelease.value.source)
      && plan.oldRelease.value.target != plan.candidate.target
      && OriginalCurrentValid(plan, d.tree) && !plan.current.NoEntry?
      && OriginalPreviousValid(plan, d.tree)
    ensures var plan := d.manifest.plan;
      var cut := ActivateFiles(World(d, 1)).world.disk;
      Validates(cut, true) <==>
        && (|| plan.oldRelease.value.source == Current
            || (plan.oldRelease.value.source == plan.ReleaseDir() && plan.current == CandidateCurrentState(plan)))
        && (plan.previousRelease.None? || plan.previousRelease.value.inode != plan.oldRelease.value.inode)
  {
    var plan := d.manifest.plan;
    var moved := Moved(d.tree, plan.oldRelease.value.source, plan.oldRelease.value.target);
    var cut := ActivateFiles(World(d, 1)).world.disk;
    FirstMoveCut(d);
    assert cut == d.(tree := moved);
    CurrentAfterFirstMove(plan, d.tree);
    PreviousAfterFirstMove(plan, d.tree);
    assert Located(moved, plan.oldRelease.value, {});
  }

  lemma FirstMoveCut(d: Disk)
    requires d.manifest.phase == Linking && Validates(d, false)
    requires var plan := d.manifest.plan;
      && plan.OldMoves()
      && Matches(d.tree, plan.oldRelease.value.source, plan.oldRelease.value)
      && plan.oldRelease.value.target !in d.tree
      && plan.oldRelease.value.inode != plan.candidate.inode
      && plan.oldRelease.value.target != plan.candidate.target
      && Matches(d.tree, plan.candidate.source, plan.candidate)
      && (plan.candidate.target in d.tree ==> plan.candidate.target == plan.oldRelease.value.source)
    ensures ActivateFiles(World(d, 1)).world.disk ==
      d.(tree := Moved(d.tree, d.manifest.plan.oldRelease.value.source, d.manifest.plan.oldRelease.value.target))
  {
    var w := QuarantineOld(World(d, 1)).world;
    assert w.power == 0;
    assert InstallCandidate(w).Crashed?;
  }

  lemma CurrentAfterFirstMove(plan: Plan, tree: Tree)
    requires plan.OldMoves() && DistinctDirectories(tree)
    requires Matches(tree, plan.oldRelease.value.source, plan.oldRelease.value)
    requires plan.oldRelease.value.target.InReleases? && plan.oldRelease.value.target !in tree
    requires plan.oldRelease.value.source.InReleases? || plan.oldRelease.value.source == Current
    requires plan.oldRelease.value.target != plan.candidate.target && plan.oldRelease.value.inode != plan.candidate.inode
    requires plan.candidate.target.InReleases?
    requires plan.candidate.target in tree ==> plan.candidate.target == plan.oldRelease.value.source
    requires OriginalCurrentValid(plan, tree) && !plan.current.NoEntry?
    ensures CurrentValid(plan, Linking, Moved(tree, plan.oldRelease.value.source, plan.oldRelease.value.target), true) <==>
      || plan.oldRelease.value.source == Current
      || (plan.oldRelease.value.source == plan.ReleaseDir() && plan.current == CandidateCurrentState(plan))
  {
    var moved := Moved(tree, plan.oldRelease.value.source, plan.oldRelease.value.target);
    if plan.current.Symlink? {
      assert tree[Current].text.path == plan.oldRelease.value.source;
      assert moved[Current] == tree[Current];
    }
  }

  lemma PreviousAfterFirstMove(plan: Plan, tree: Tree)
    requires plan.OldMoves() && DistinctDirectories(tree)
    requires Matches(tree, plan.oldRelease.value.source, plan.oldRelease.value)
    requires plan.oldRelease.value.target.InReleases? && plan.oldRelease.value.target !in tree
    requires plan.oldRelease.value.source.InReleases? || plan.oldRelease.value.source == Current
    requires OriginalPreviousValid(plan, tree) && StateOf(tree, Previous) != Directory
    ensures PreviousValid(plan, Linking, Moved(tree, plan.oldRelease.value.source, plan.oldRelease.value.target)) <==>
      plan.previousRelease.None? || plan.previousRelease.value.inode != plan.oldRelease.value.inode
  {
    var moved := Moved(tree, plan.oldRelease.value.source, plan.oldRelease.value.target);
    assert StateOf(moved, Previous) == StateOf(tree, Previous);
    if plan.previousRelease.Some? {
      var place := tree[Previous].text.path;
      if place != plan.oldRelease.value.source {
        assert moved[place] == tree[place];
      }
    }
  }

  /** The other move is that of the candidate, once the rollback release is out of its way.  A power loss right after it
      leaves a valid transaction exactly when `previous` did not resolve through the candidate. */
  lemma CandidateMoveIsRecoverableExactlyWhen(d: Disk)
    requires d.manifest.phase == Linking && Validates(d, false) && DistinctDirectories(d.tree)
    requires var plan := d.manifest.plan;
      && (plan.OldMoves() ==> Matches(d.tree, plan.oldRelease.value.target, plan.oldRelease.value))
      && (plan.oldRelease.Some? ==> plan.oldRelease.value.inode != plan.candidate.inode)
      && Matches(d.tree, plan.candidate.source, plan.candidate)
      && plan.candidate.source.InReleases? && plan.candidate.target.InReleases? && plan.candidate.target !in d.tree
      && OriginalPreviousValid(plan, d.tree)
    ensures var plan := d.manifest.plan;
      var cut := ActivateFiles(World(d, 1)).world.disk;
      && cut == d.(tree := Moved(d.tree, plan.candidate.source, plan.candidate.target))
      && (Validates(cut, true) <==> plan.previousRelease.None? || plan.previousRelease.value.inode != plan.candidate.inode)
  {
    var plan := d.manifest.plan;
    var moved := Moved(d.tree, plan.candidate.source, plan.candidate.target);
    CandidateMoveCut(d);
    CurrentAfterCandidateMove(plan, d.tree);
    PreviousAfterCandidateMove(plan, d.tree);
    if plan.oldRelease.Some? {
      assert Located(moved, plan.oldRelease.value, {});
    }
  }

  lemma CandidateMoveCut(d: Disk)
    requires d.manifest.phase == Linking && Validates(d, false) && DistinctDirectories(d.tree)
    requires var plan := d.manifest.plan;
      && (plan.OldMoves() ==> Matches(d.tree, plan.oldRelease.value.target, plan.oldRelease.value))
      && Matches(d.tree, plan.candidate.source, plan.candidate) && plan.candidate.target !in d.tree
    ensures ActivateFiles(World(d, 1)).world.disk ==
      d.(tree := Moved(d.tree, d.manifest.plan.candidate.source, d.manifest.plan.candidate.target))
  {
    assert QuarantineOld(World(d, 1)) == Done(World(d, 1));
    var w := InstallCandidate(World(d, 1)).world;
    assert w.power == 0 && Matches(w.disk.tree, d.manifest.plan.candidate.target, d.manifest.plan.candidate);
    var taken := PointPrevious(w);
    assert taken.world.disk == w.disk;
    if taken.Done? {
      assert PointCurrent(taken.world).world.disk == w.disk;
    }
  }

  lemma CurrentAfterCandidateMove(plan: Plan, tree: Tree)
    requires Matches(tree, plan.candidate.source, plan.candidate)
    requires plan.candidate.source.InReleases? && plan.candidate.target.InReleases? && plan.candidate.target !in tree
    requires plan.oldRelease.Some? ==> plan.oldRelease.value.inode != plan.candidate.inode
    requires CurrentValid(plan, Linking, tree, false)
    ensures CurrentValid(plan, Linking, Moved(tree, plan.candidate.source, plan.candidate.target), true)
  {
    var moved := Moved(tree, plan.candidate.source, plan.candidate.target);
    assert StateOf(moved, Current) == StateOf(tree, Current);
    if OriginalCurrentValid(plan, tree) && plan.current.Symlink? {
      var place := tree[Current].text.path;
      assert place != plan.candidate.source && moved[place] == tree[place];
    }
  }

  lemma PreviousAfterCandidateMove(plan: Plan, tree: Tree)
    requires Matches(tree, plan.candidate.source, plan.candidate) && DistinctDirectories(tree)
    requires plan.candidate.source.InReleases? && plan.candidate.target.InReleases? && plan.candidate.target !in tree
    requires plan.oldRelease.Some? ==> plan.oldRelease.value.inode != plan.candidate.inode
    requires OriginalPreviousValid(plan, tree) && StateOf(tree, Previous) != Directory
    ensures PreviousValid(plan, Linking, Moved(tree, plan.candidate.source, plan.candidate.target)) <==>
      plan.previousRelease.None? || plan.previousRelease.value.inode != plan.candidate.inode
  {
    var moved := Moved(tree, plan.candidate.source, plan.candidate.target);
    assert StateOf(moved, Previous) == StateOf(tree, Previous);
    if plan.previousRelease.Some? {
      var place := tree[Previous].text.path;
      if plan.previousRelease.value.inode == plan.candidate.inode {
        assert place == plan.candidate.source;
        assert plan.candidate.source != plan.candidate.target ==> place !in moved;
      } else {
        assert moved[place] == tree[place];
      }
    }
  }

  // ---------- runs that get there ----------

  const DRAFT_DIGEST: nat := 9
  const DRAFT_INODE: nat := 8

  /** A first installation: nothing is installed, and neither configuration file exists. */
  const FRESH_PLAN: Plan := Plan(Release(InReleases("staged"), InReleases("1"), 2), None, NoEntry, NoEntry, None, None, None)
  const FRESH_TREE: Tree := map[InReleases("staged") := Dir(2)]
  const NO_FILE: Slot := Slot(None, None, None)
  const NO_HISTORY: Journal := Journal(None, {None})
  const FRESH_DISK: Disk := Disk(FRESH_TREE, NO_FILE, NO_FILE, Manifest(FRESH_PLAN, Prepared, None, NO_HISTORY, NO_HISTORY))

  lemma FreshBegins()
    ensures Began(FRESH_PLAN, FRESH_TREE, FRESH_DISK)
  {
    assert InReleases("staged") != InReleases("1") by {
      assert "staged"[0] != "1"[0];
    }
  }

  lemma OneMoreCall(d: Disk, call: Call, e: Disk, rest: seq<Call>)
    requires Perform(d, call) == e
    ensures Execute(d, [call] + rest) == Execute(e, rest)
    ensures PermittedScript(d, [call] + rest) <==> Permitted(d, call) && PermittedScript(e, rest)
  {
    assert ([call] + rest)[1..] == rest;
  }

  lemma ThreeCalls(d: Disk, a: Call, e: Disk, b: Call, f: Disk, c: Call, g: Disk)
    requires Perform(d, a) == e && Perform(e, b) == f && Perform(f, c) == g
    ensures Execute(d, [a, b, c]) == g && Execute(d, [a, b]) == f
    ensures PermittedScript(d, [a, b, c]) <==> Permitted(d, a) && Permitted(e, b) && Permitted(f, c)
  {
    OneMoreCall(d, a, e, [b] + ([c] + []));
    OneMoreCall(d, a, e, [b] + []);
    OneMoreCall(e, b, f, [c] + []);
    OneMoreCall(e, b, f, []);
    OneMoreCall(f, c, g, []);
    assert [a, b, c] == [a] + ([b] + ([c] + [])) && [a, b] == [a] + ([b] + []);
  }

  /** The disk after the env draft has been written. */
  function WithDraft(kind: Kind): Disk {
    Drafted(FRESH_DISK, kind, DRAFT_INODE, DRAFT_DIGEST)
  }

  /** Publishing a draft straight after `begin` wedges a first installation. */
  lemma LooseDraftCanWedge(script: seq<Call>)
    requires script == [Call(Draft(Env, DRAFT_INODE, DRAFT_DIGEST), 0), Call(Replace(Env, MODE_0600), REPLACE_STEPS)]
    ensures Began(FRESH_PLAN, FRESH_TREE, FRESH_DISK)
    ensures !Validates(Execute(FRESH_DISK, script), true)
  {
    FreshBegins();
    var drafted := Perform(FRESH_DISK, script[0]);
    assert drafted == WithDraft(Env);
    assert !Permitted(drafted, script[1]);
    assert script[1..][0] == script[1];
    assert !PermittedScript(drafted, script[1..]);
    assert !PermittedScript(FRESH_DISK, script);
    NeverWedged(FRESH_PLAN, FRESH_TREE, FRESH_DISK, script);
  }

  /** The draft journaled with its mode and linked to the publication name, and the power lost before the rename. */
  function Pending(kind: Kind, mode: nat): Disk {
    var file := File(DRAFT_INODE, DRAFT_DIGEST, mode, 2);
    FRESH_DISK.(manifest := FRESH_DISK.manifest.WithJournal(kind, Journal(Some(Desired(DRAFT_DIGEST, mode, DRAFT_INODE)), {None, Some(DRAFT_DIGEST)})))
              .WithSlot(kind, Slot(None, Some(file), Some(file)))
  }

  lemma LinkedNotPublished()
    ensures PublishDraft(World(WithDraft(Env), 3), Env, MODE_0600).world.disk == Pending(Env, MODE_0600)
  {
    var w := World(WithDraft(Env), 3);
    assert {None} + {Some(DRAFT_DIGEST)} == {None, Some(DRAFT_DIGEST)};
    var linked := LinkPublication(ChangeMode(WriteAhead(w, Env, MODE_0600).world, Env, MODE_0600).world, Env);
    assert linked == Done(World(Pending(Env, MODE_0600), 0));
    assert Publish(linked.world, Env) == Crashed(linked.world);
  }

  lemma DraftIsReady()
    ensures Validates(WithDraft(Env), false) && ConfigReady(WithDraft(Env), Env)
  {
    FreshBegins();
    BeginEstablishesInv(FRESH_PLAN, FRESH_TREE, FRESH_DISK);
    DraftKeepsValidity(FRESH_DISK, Env, DRAFT_INODE, DRAFT_DIGEST);
  }

  lemma CutBeforeRename()
    ensures ReplaceConfig(World(WithDraft(Env), 3), Env, MODE_0600).world.disk == Pending(Env, MODE_0600)
  {
    DraftIsReady();
    AcceptedReplace(World(WithDraft(Env), 3), Env, MODE_0600);
    LinkedNotPublished();
  }

  /** So does publishing a draft whose publication was cut before the rename. */
  lemma PendingPublicationCanWedge(script: seq<Call>)
    requires script == [Call(Draft(Env, DRAFT_INODE, DRAFT_DIGEST), 0), Call(Replace(Env, MODE_0600), 3), Call(Replace(Env, MODE_0600), 2)]
    ensures Validates(Execute(FRESH_DISK, script[..2]), false)
    ensures !Validates(Execute(FRESH_DISK, script), true)
  {
    FirstAttemptPends(script[0], script[1]);
    SecondAttemptWedges(script[2]);
    assert script[..2] == [script[0], script[1]];
    ThreeCalls(FRESH_DISK, script[0], WithDraft(Env), script[1], Pending(Env, MODE_0600), script[2],
               Perform(Pending(Env, MODE_0600), script[2]));
  }

  lemma FirstAttemptPends(a: Call, b: Call)
    requires a == Call(Draft(Env, DRAFT_INODE, DRAFT_DIGEST), 0) && b == Call(Replace(Env, MODE_0600), 3)
    ensures Perform(FRESH_DISK, a) == WithDraft(Env)
    ensures Perform(WithDraft(Env), b) == Pending(Env, MODE_0600)
  {
    CutBeforeRename();
  }

  lemma SecondAttemptWedges(c: Call)
    requires c == Call(Replace(Env, MODE_0600), 2)
    ensures Validates(Pending(Env, MODE_0600), false)
    ensures !Validates(Perform(Pending(Env, MODE_0600), c), true)
  {
    DraftIsReady();
    CutBeforeRename();
    ReplaceIsFatalExactlyWhen(World(WithDraft(Env), 3), Env, MODE_0600);
    AcceptedReplaceKeeps(World(WithDraft(Env), 3), Env, MODE_0600);
    ReplaceIsFatalExactlyWhen(World(Pending(Env, MODE_0600), 2), Env, MODE_0600);
  }

  // ---------- a rollback that cannot finish ----------

  /** The service draft journaled for `second` after an earlier attempt had already given it the mode `first`. */
  function Rejournaled(first: nat, second: nat): Disk {
    FRESH_DISK.(service := Slot(None, Some(File(DRAFT_INODE, DRAFT_DIGEST, first, 1)), None),
                manifest := FRESH_DISK.manifest.(service := Journal(Some(Desired(DRAFT_DIGEST, second, DRAFT_INODE)), {None, Some(DRAFT_DIGEST)})))
  }

  lemma ServiceDraftValidates()
    ensures Validates(WithDraft(Service), false) && Validates(Rejournaled(MODE_0644, MODE_0644), false)
  {
    FreshBegins();
    BeginEstablishesInv(FRESH_PLAN, FRESH_TREE, FRESH_DISK);
    DraftKeepsValidity(FRESH_DISK, Service, DRAFT_INODE, DRAFT_DIGEST);
    assert Validates(FRESH_DISK, false);
  }

  lemma FirstCut()
    ensures ReplaceConfig(World(WithDraft(Service), 2), Service, MODE_0644).world.disk == Rejournaled(MODE_0644, MODE_0644)
  {
    ServiceDraftValidates();
    assert {None} + {Some(DRAFT_DIGEST)} == {None, Some(DRAFT_DIGEST)};
  }

  lemma SecondCut()
    ensures ReplaceConfig(World(Rejournaled(MODE_0644, MODE_0644), 1), Service, MODE_0600).world.disk == Rejournaled(MODE_0644, MODE_0600)
  {
    ServiceDraftValidates();
    assert {None, Some(DRAFT_DIGEST)} + {Some(DRAFT_DIGEST)} == {None, Some(DRAFT_DIGEST)};
  }

  /** Two attempts at the service file with different modes, each cut, and then the rollback: it is recorded, and no
      restore ever completes, however often it is tried. */
  lemma ModeChangeStopsRollback(script: seq<Call>, restores: seq<Call>, power: nat, envInode: nat, serviceInode: nat)
    requires script == [Call(Draft(Service, DRAFT_INODE, DRAFT_DIGEST), 0), Call(Replace(Service, MODE_0644), 2),
                        Call(Replace(Service, MODE_0600), 1), Call(RecordPhase(RollingBack), 1)]
    requires forall i :: 0 <= i < |restores| ==> restores[i].command.Restore?
    ensures Began(FRESH_PLAN, FRESH_TREE, FRESH_DISK) && PermittedScript(FRESH_DISK, script)
    ensures Execute(FRESH_DISK, script).manifest.phase == RollingBack
    ensures !RestoreFiles(World(Execute(Execute(FRESH_DISK, script), restores), power), envInode, serviceInode).Done?
  {
    FreshBegins();
    BeginEstablishesInv(FRESH_PLAN, FRESH_TREE, FRESH_DISK);
    ModeChangeRuns(script);
    ScriptKeepsOrWedges(FRESH_PLAN, FRESH_TREE, FRESH_DISK, script);
    StuckForGood(FRESH_PLAN, FRESH_TREE, Execute(FRESH_DISK, script), restores, power, envInode, serviceInode);
  }

  lemma ModeChangeRuns(script: seq<Call>)
    requires script == [Call(Draft(Service, DRAFT_INODE, DRAFT_DIGEST), 0), Call(Replace(Service, MODE_0644), 2),
                        Call(Replace(Service, MODE_0600), 1), Call(RecordPhase(RollingBack), 1)]
    ensures PermittedScript(FRESH_DISK, script)
    ensures var twice := Rejournaled(MODE_0644, MODE_0600);
      Execute(FRESH_DISK, script) == twice.(manifest := Advanced(twice.manifest, RollingBack))
    ensures StuckService(Execute(FRESH_DISK, script)) && Execute(FRESH_DISK, script).manifest.phase == RollingBack
  {
    var once, twice := Rejournaled(MODE_0644, MODE_0644), Rejournaled(MODE_0644, MODE_0600);
    AttemptsAreCut(script[0], script[1], script[2]);
    ThreeCalls(FRESH_DISK, script[0], WithDraft(Service), script[1], once, script[2], twice);
    RejournaledTurnsBack(World(twice, 1));
    LastCall(FRESH_DISK, script[0], script[1], script[2], twice, script[3], twice.(manifest := Advanced(twice.manifest, RollingBack)));
  }

  lemma LastCall(d: Disk, a: Call, b: Call, c: Call, e: Disk, last: Call, f: Disk)
    requires Execute(d, [a, b, c]) == e && PermittedScript(d, [a, b, c]) && last.command.RecordPhase?
    requires Perform(e, last) == f
    ensures Execute(d, [a, b, c, last]) == f && PermittedScript(d, [a, b, c, last])
  {
    ScriptInParts(d, [a, b, c], [last]);
    OneMoreCall(e, last, f, []);
    assert [a, b, c] + [last] == [a, b, c, last] && [last] + [] == [last];
  }

  lemma {:induction false} ScriptInParts(d: Disk, first: seq<Call>, second: seq<Call>)
    ensures Execute(d, first + second) == Execute(Execute(d, first), second)
    ensures PermittedScript(d, first + second) <==> PermittedScript(d, first) && PermittedScript(Execute(d, first), second)
    decreases |first|
  {
    if first == [] {
      assert first + second == second;
    } else {
      assert (first + second)[1..] == first[1..] + second;
      ScriptInParts(Perform(d, first[0]), first[1..], second);
    }
  }

  lemma AttemptsAreCut(a: Call, b: Call, c: Call)
    requires a == Call(Draft(Service, DRAFT_INODE, DRAFT_DIGEST), 0) && b == Call(Replace(Service, MODE_0644), 2)
    requires c == Call(Replace(Service, MODE_0600), 1)
    ensures Perform(FRESH_DISK, a) == WithDraft(Service) && Permitted(FRESH_DISK, a)
    ensures Perform(WithDraft(Service), b) == Rejournaled(MODE_0644, MODE_0644) && Permitted(WithDraft(Service), b)
    ensures Perform(Rejournaled(MODE_0644, MODE_0644), c) == Rejournaled(MODE_0644, MODE_0600)
    ensures Permitted(Rejournaled(MODE_0644, MODE_0644), c)
  {
    FirstCut();
    SecondCut();
  }

  lemma RejournaledTurnsBack(w: World)
    requires w.disk == Rejournaled(MODE_0644, MODE_0600) && w.power > 0
    ensures Record(w, RollingBack).world.disk == w.disk.(manifest := Advanced(w.disk.manifest, RollingBack))
  {
    FreshBegins();
    BeginEstablishesInv(FRESH_PLAN, FRESH_TREE, FRESH_DISK);
    assert Validates(FRESH_DISK, false);
    assert Validates(w.disk, true);
    assert Validates(w.disk.(manifest := Advanced(w.disk.manifest, RollingBack)), true);
  }

  // ---------- an activation that cannot go on or back ----------

  /** The installed version again: `current` names its release by a relative text. */
  const SAME_PLAN: Plan :=
    Plan(Release(InReleases("staged"), InReleases("1"), 2), Some(Release(InReleases("1"), InReleases("1-old"), 1)),
         Symlink(LinkText(InReleases("1"), false)), NoEntry, None, None, None)
  const SAME_TREE: Tree :=
    map[Current := Link(LinkText(InReleases("1"), false)), InReleases("1") := Dir(1), InReleases("staged") := Dir(2)]
  const SAME_DISK: Disk := Disk(SAME_TREE, NO_FILE, NO_FILE, Manifest(SAME_PLAN, Prepared, None, NO_HISTORY, NO_HISTORY))

  lemma SamePathsDiffer()
    ensures InReleases("staged") != InReleases("1")
    ensures InReleases("1-old") != InReleases("1")
    ensures InReleases("1-old") != InReleases("staged")
  {
    assert "staged"[0] != "1"[0] && |"1-old"| != |"1"| && |"1-old"| != |"staged"|;
  }

  lemma SameValidates(phase: Phase)
    requires phase in {Prepared, Linking}
    ensures Validates(SAME_DISK.(manifest := Advanced(SAME_DISK.manifest, phase)), false)
  {
    SamePathsDiffer();
    assert Matches(SAME_TREE, InReleases("1"), SAME_PLAN.oldRelease.value);
    assert OriginalCurrentValid(SAME_PLAN, SAME_TREE) && OriginalPreviousValid(SAME_PLAN, SAME_TREE);
  }

  lemma SameFirstMove(linking: Disk)
    requires linking == SAME_DISK.(manifest := Advanced(SAME_DISK.manifest, Linking))
    ensures !Validates(ActivateFiles(World(linking, 1)).world.disk, true)
  {
    SamePathsDiffer();
    SameValidates(Linking);
    FirstMoveIsRecoverableExactlyWhen(linking);
  }

  /** A valid transaction is recorded as `linking`, and its activation loses power after the first rename: nothing
      validates any more. */
  lemma RespelledCurrentCanWedge(script: seq<Call>)
    requires script == [Call(RecordPhase(Linking), 1), Call(Activate, 1)]
    ensures Validates(SAME_DISK, false)
    ensures !Validates(Execute(SAME_DISK, script), true)
  {
    SameValidates(Prepared);
    SameValidates(Linking);
    RecordEffect(World(SAME_DISK, 1), Linking);
    var linking := Perform(SAME_DISK, script[0]);
    SameFirstMove(linking);
    assert script[1..] == [script[1]];
    assert Execute(linking, [script[1]]) == Execute(Perform(linking, script[1]), []);
  }
}
