/** Scripts that give the service file one mode only: no rollback of theirs is ever stopped by a stale draft. */
module ActivationModes {
  import opened Options
  import opened ActivationModel
  import opened ActivationLayout
  import opened ActivationConfig
  import opened ActivationSafety
  import opened ActivationRuns

  predicate OneMode(script: seq<Call>, mode: nat) {
    forall i :: 0 <= i < |script| && script[i].command.Replace? && script[i].command.kind.Service? ==> script[i].command.mode == mode
  }

  /** No other mode than this, and the private one of a draft, has come near the staging names. */
  predicate Tame(slot: Slot, journal: Journal, mode: nat) {
    && (slot.source.Some? ==> slot.source.value.mode in {MODE_0600, mode})
    && (journal.desired.Some? ==> journal.desired.value.mode == mode)
  }

  predicate TameDisk(d: Disk, mode: nat) {
    Tame(d.service, d.manifest.service, mode)
  }

  lemma PublishKeepsTame(w: World, kind: Kind, mode: nat)
    requires TameDisk(w.disk, mode)
    ensures TameDisk(Publish(w, kind).world.disk, mode)
  {
    assert TameDisk(DropSharedSource(w, kind).world.disk, mode);
  }

  lemma DraftingKeepsTame(w: World, kind: Kind, used: nat, mode: nat)
    requires TameDisk(w.disk, mode) && (kind.Service? ==> used == mode)
    ensures TameDisk(PublishDraft(w, kind, used).world.disk, mode)
  {
    var journaled := WriteAhead(w, kind, used);
    assert TameDisk(journaled.world.disk, mode);
    if journaled.Done? {
      var changed := ChangeMode(journaled.world, kind, used);
      assert TameDisk(changed.world.disk, mode);
      if changed.Done? {
        var linked := LinkPublication(changed.world, kind);
        assert TameDisk(linked.world.disk, mode);
        PublishKeepsTame(linked.world, kind, mode);
      }
    }
  }

  lemma ReplaceKeepsTame(w: World, kind: Kind, used: nat, mode: nat)
    requires TameDisk(w.disk, mode) && (kind.Service? ==> used == mode)
    ensures TameDisk(ReplaceConfig(w, kind, used).world.disk, mode)
  {
    PublishKeepsTame(w, kind, mode);
    DraftingKeepsTame(w, kind, used, mode);
    var e := ReplaceConfig(w, kind, used).world;
    assert e in {w, Publish(w, kind).world, PublishDraft(w, kind, used).world};
  }

  predicate SameFiles(d: Disk, e: Disk) {
    e.service == d.service && e.manifest == d.manifest
  }

  lemma MovesLeaveFiles(w: World)
    ensures SameFiles(w.disk, RestoreMoves(w).world.disk)
  {
    var vacated := VacateOldSource(w);
    assert SameFiles(w.disk, vacated.world.disk);
    var returned := ReturnOld(w);
    assert SameFiles(w.disk, returned.world.disk);
    if returned.Done? {
      var current := RestoreCurrent(returned.world);
      assert SameFiles(w.disk, current.world.disk);
      if current.Done? {
        assert SameFiles(w.disk, RestorePrevious(current.world).world.disk);
      }
    }
  }

  lemma CleaningKeepsTame(w: World, kind: Kind, mode: nat)
    requires TameDisk(w.disk, mode)
    ensures TameDisk(CleanStaging(w, kind).world.disk, mode)
  {
    assert TameDisk(CleanSource(w, kind).world.disk, mode);
  }

  lemma RestoringKeepsTame(w: World, kind: Kind, inode: nat, mode: nat)
    requires TameDisk(w.disk, mode)
    ensures TameDisk(RestoreConfiguration(w, kind, inode).world.disk, mode)
  {
  }

  lemma ConfigsKeepTame(w: World, envInode: nat, serviceInode: nat, mode: nat)
    requires TameDisk(w.disk, mode)
    ensures TameDisk(RestoreConfigs(w, envInode, serviceInode).world.disk, mode)
  {
    CleaningKeepsTame(w, Env, mode);
    var envClean := CleanStaging(w, Env);
    if envClean.Done? {
      CleaningKeepsTame(envClean.world, Service, mode);
      var clean := CleanStaging(envClean.world, Service);
      if clean.Done? {
        RestoringKeepsTame(clean.world, Env, envInode, mode);
        var envBack := RestoreConfiguration(clean.world, Env, envInode);
        if envBack.Done? {
          RestoringKeepsTame(envBack.world, Service, serviceInode, mode);
        }
      }
    }
  }

  lemma RestoreKeepsTame(w: World, envInode: nat, serviceInode: nat, mode: nat)
    requires TameDisk(w.disk, mode)
    ensures TameDisk(RestoreFiles(w, envInode, serviceInode).world.disk, mode)
  {
    MovesLeaveFiles(w);
    var moved := RestoreMoves(w);
    if moved.Done? {
      ConfigsKeepTame(moved.world, envInode, serviceInode, mode);
    }
  }

  lemma MovesForwardLeaveFiles(w: World)
    ensures SameFiles(w.disk, ActivateFiles(w).world.disk)
  {
    var quarantined := QuarantineOld(w);
    assert SameFiles(w.disk, quarantined.world.disk);
    if quarantined.Done? {
      var installed := InstallCandidate(quarantined.world);
      assert SameFiles(w.disk, installed.world.disk);
      if installed.Done? {
        var taken := PointPrevious(installed.world);
        assert SameFiles(w.disk, taken.world.disk);
        if taken.Done? {
          assert SameFiles(w.disk, PointCurrent(taken.world).world.disk);
        }
      }
    }
    assert SameFiles(w.disk, ActivationMoves(w).world.disk);
  }

  lemma PerformKeepsTame(d: Disk, call: Call, mode: nat)
    requires TameDisk(d, mode) && (call.command.Replace? && call.command.kind.Service? ==> call.command.mode == mode)
    ensures TameDisk(Perform(d, call), mode)
  {
    var w := World(d, call.power);
    match call.command
    case RecordPhase(phase) =>
      RecordEffect(w, phase);
      assert Perform(d, call).manifest.service == d.manifest.service;
    case Replace(kind, used) => ReplaceKeepsTame(w, kind, used, mode);
    case Draft(_, _, _) =>
    case Activate => MovesForwardLeaveFiles(w);
    case Restore(envInode, serviceInode) => RestoreKeepsTame(w, envInode, serviceInode, mode);
  }

  lemma {:induction false} ScriptKeepsTame(d: Disk, script: seq<Call>, mode: nat)
    requires TameDisk(d, mode) && OneMode(script, mode)
    ensures TameDisk(Execute(d, script), mode)
    decreases |script|
  {
    if script != [] {
      PerformKeepsTame(d, script[0], mode);
      ScriptKeepsTame(Perform(d, script[0]), script[1..], mode);
    }
  }

  /** With one service mode in the whole script, the rollback decided after it completes exactly when it can be decided:
      when no call of the script was fatal. */
  lemma OneModeRollsBack(plan: Plan, begin: Tree, d: Disk, script: seq<Call>, mode: nat,
    interrupted: seq<Call>, power: nat, envInode: nat, serviceInode: nat)
    requires Began(plan, begin, d) && OneMode(script, mode)
    requires Undecided(Execute(d, script).manifest.phase)
    requires forall i :: 0 <= i < |interrupted| ==> interrupted[i].command.Restore?
    requires power >= RESTORE_STEPS
    ensures !StuckService(Execute(d, script))
    ensures var turned := Record(World(Execute(d, script), 1), RollingBack);
      var outcome := RestoreFiles(World(Execute(turned.world.disk, interrupted), power), envInode, serviceInode);
      && (turned.Done? <==> PermittedScript(d, script))
      && (turned.Done? ==> outcome.Done? && SnapshotRestored(plan, begin, outcome.world.disk))
  {
    assert d.SlotOf(Service).source.None? && d.manifest.JournalOf(Service).desired.None?;
    ScriptKeepsTame(d, script, mode);
    CrashSafeRollback(plan, begin, d, script, interrupted, power, envInode, serviceInode);
  }
}
