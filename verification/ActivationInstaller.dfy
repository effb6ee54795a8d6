/** The transaction as the installer runs it: one object whose files and manifest change step by step. */
module ActivationInstaller {
  import opened Options
  import opened ActivationModel

  /** How a method ended; `:-` stops the caller at a power loss or a refused check. */
  datatype Status = Completed | PowerLost | Refused {
    predicate IsFailure() { !Completed? }

    function PropagateFailure(): Status
      requires IsFailure()
    {
      this
    }
  }

  function Ended(status: Status, w: World): Outcome {
    match status
    case Completed => Done(w)
    case PowerLost => Crashed(w)
    case Refused => Raised(w)
  }

  class Installer {
    var tree: Tree
    var env: Slot
    var service: Slot
    var manifest: Manifest
    var power: nat

    function Now(): World
      reads this
    {
      World(Disk(tree, env, service, manifest), power)
    }

    constructor (disk: Disk, power: nat)
      ensures Now() == World(disk, power)
    {
      this.tree, this.env, this.service, this.manifest := disk.tree, disk.env, disk.service, disk.manifest;
      this.power := power;
    }

    // ---------- single durable steps ----------

    method Require(condition: bool) returns (status: Status)
      ensures status == if condition then Completed else Refused
    {
      status := if condition then Completed else Refused;
    }

    method Spend() returns (status: Status)
      modifies this`power
      ensures old(power) == 0 ==> status == PowerLost && power == 0
      ensures old(power) > 0 ==> status == Completed && power == old(power) - 1
    {
      if power == 0 {
        return PowerLost;
      }
      power := power - 1;
      return Completed;
    }

    method WriteManifest(value: Manifest) returns (status: Status)
      modifies this
      ensures Ended(status, Now()) == Durably(old(Now()), old(Now()).disk.(manifest := value))
    {
      status := Completed;
      :- Spend();
      manifest := value;
      return Completed;
    }

    method PutSlot(kind: Kind, slot: Slot) returns (status: Status)
      modifies this
      ensures Ended(status, Now()) == Durably(old(Now()), old(Now()).disk.WithSlot(kind, slot))
    {
      status := Completed;
      :- Spend();
      if kind.Env? {
        env := slot;
      } else {
        service := slot;
      }
      return Completed;
    }

    method RenameDirectory(source: Path, destination: Path) returns (status: Status)
      modifies this
      ensures Ended(status, Now()) == MoveDirectory(old(Now()), source, destination)
    {
      status := Completed;
      :- Require(source in tree && destination !in tree);
      :- Spend();
      tree := Moved(tree, source, destination);
      return Completed;
    }

    method ReplaceSymlink(path: Path, text: LinkText) returns (status: Status)
      modifies this
      ensures Ended(status, Now()) == ReplaceLink(old(Now()), path, text)
    {
      status := Completed;
      :- Require(!(path in tree && tree[path].Dir?));
      :- Spend();
      tree := tree[path := Link(text)];
      return Completed;
    }

    method UnlinkSymlink(path: Path) returns (status: Status)
      modifies this
      ensures Ended(status, Now()) == RemoveLink(old(Now()), path)
    {
      if path !in tree {
        return Completed;
      }
      :- Require(tree[path].Link?);
      :- Spend();
      tree := tree - {path};
      return Completed;
    }

    // ---------- record ----------

    method RecordPhase(phase: Phase) returns (status: Status)
      modifies this
      ensures Ended(status, Now()) == Record(old(Now()), phase)
    {
      var allowMissing := RollbackPhase(phase);
      :- Require(Validates(Now().disk, allowMissing));
      var value := manifest;
      if phase != value.phase {
        :- Require(phase in Transitions(value.phase));
        if phase == RollingBack {
          value := value.(rollbackFrom := Some(value.phase));
        }
        value := value.(phase := phase);
      }
      :- Require(Validates(Now().disk.(manifest := value), allowMissing));
      :- WriteManifest(value);
      return Completed;
    }

    // ---------- activate_files ----------

    method MoveOldAside() returns (status: Status)
      modifies this
      ensures Ended(status, Now()) == QuarantineOld(old(Now()))
    {
      if manifest.plan.OldMoves() {
        var release := manifest.plan.oldRelease.value;
        if Matches(tree, release.source, release) {
          :- RenameDirectory(release.source, release.target);
        } else {
          :- Require(Matches(tree, release.target, release));
        }
      }
      return Completed;
    }

    method MoveCandidateIn() returns (status: Status)
      modifies this
      ensures Ended(status, Now()) == InstallCandidate(old(Now()))
    {
      var candidate := manifest.plan.candidate;
      if !Matches(tree, candidate.target, candidate) {
        :- Require(Matches(tree, candidate.source, candidate));
        :- RenameDirectory(candidate.source, candidate.target);
      }
      return Completed;
    }

    method Activate() returns (status: Status)
      modifies this
      ensures Ended(status, Now()) == ActivateFiles(old(Now()))
    {
      status := Completed;
      :- Require(Validates(Now().disk, false) && manifest.phase == Linking);
      ghost var start := Now();
      :- MoveOldAside();
      ghost var quarantined := Now();
      :- MoveCandidateIn();
      ghost var installed := Now();
      if manifest.plan.oldRelease.Some? {
        :- ReplaceSymlink(Previous, Spelled(manifest.plan.oldRelease.value.target));
      }
      ghost var taken := Now();
      assert PointPrevious(installed) == Done(taken);
      :- ReplaceSymlink(Current, Spelled(manifest.plan.ReleaseDir()));
      assert ActivationMoves(start) == Done(Now());
      :- Require(Matches(tree, manifest.plan.candidate.target, manifest.plan.candidate));
      return Completed;
    }

    // ---------- restore_files ----------

    method Vacate() returns (status: Status)
      modifies this
      ensures Ended(status, Now()) == VacateOldSource(old(Now()))
    {
      if manifest.plan.oldRelease.None? {
        return Completed;
      }
      var source := manifest.plan.oldRelease.value.source;
      var candidate := manifest.plan.candidate;
      if source !in tree {
        return Completed;
      }
      if tree[source].Link? && source == Current {
        :- UnlinkSymlink(source);
      } else {
        :- Require(Matches(tree, source, candidate));
        if !Matches(tree, ParkedCandidate, candidate) {
          :- RenameDirectory(source, ParkedCandidate);
        }
      }
      return Completed;
    }

    method BringOldBack() returns (status: Status)
      modifies this
      ensures Ended(status, Now()) == ReturnOld(old(Now()))
    {
      if manifest.plan.OldMoves() {
        var release := manifest.plan.oldRelease.value;
        if !Matches(tree, release.source, release) {
          :- Require(Matches(tree, release.target, release));
          :- Vacate();
          :- RenameDirectory(release.target, release.source);
        }
      }
      return Completed;
    }

    method PutCurrentBack() returns (status: Status)
      modifies this
      ensures Ended(status, Now()) == RestoreCurrent(old(Now()))
    {
      match manifest.plan.current {
        case Symlink(text) =>
          :- ReplaceSymlink(Current, text);
        case NoEntry =>
          :- UnlinkSymlink(Current);
        case Directory =>
          if !(Current in tree && tree[Current].Dir?) {
            :- UnlinkSymlink(Current);
            :- Require(manifest.plan.oldRelease.Some?);
            :- RenameDirectory(manifest.plan.oldRelease.value.target, Current);
          }
      }
      return Completed;
    }

    method PutPreviousBack() returns (status: Status)
      modifies this
      ensures Ended(status, Now()) == RestorePrevious(old(Now()))
    {
      if manifest.plan.previous.Symlink? {
        :- ReplaceSymlink(Previous, manifest.plan.previous.text);
      } else {
        :- UnlinkSymlink(Previous);
      }
      return Completed;
    }

    method CleanupStaging(kind: Kind) returns (status: Status)
      modifies this
      ensures Ended(status, Now()) == CleanStaging(old(Now()), kind)
    {
      var slot := Now().disk.SlotOf(kind);
      var desired := manifest.JournalOf(kind).desired;
      :- Require(slot.publication.Some? ==> SafelyStaged(slot.publication.value));
      if slot.source.Some? {
        :- Require(SafelyStaged(slot.source.value) && SourceDisposable(slot, desired));
        :- PutSlot(kind, WithoutSource(slot));
      }
      slot := Now().disk.SlotOf(kind);
      if slot.publication.Some? {
        :- Require(desired.Some? && IsDesired(slot.publication.value, desired.value));
        :- PutSlot(kind, slot.(publication := None));
      }
      return Completed;
    }

    method PutConfigurationBack(kind: Kind, inode: nat) returns (status: Status)
      modifies this
      ensures Ended(status, Now()) == RestoreConfiguration(old(Now()), kind, inode)
    {
      var slot := Now().disk.SlotOf(kind);
      match manifest.plan.Original(kind) {
        case None =>
          if slot.dest.Some? {
            :- PutSlot(kind, slot.(dest := None));
          }
        case Some(content) =>
          :- PutSlot(kind, slot.(dest := Some(File(inode, content.digest, content.mode, 1))));
      }
      return Completed;
    }

    method Restore(envInode: nat, serviceInode: nat) returns (status: Status)
      modifies this
      ensures Ended(status, Now()) == RestoreFiles(old(Now()), envInode, serviceInode)
    {
      status := Completed;
      :- Require(Validates(Now().disk, true) && manifest.phase == RollingBack);
      :- BringOldBack();
      :- PutCurrentBack();
      :- PutPreviousBack();
      :- CleanupStaging(Env);
      :- CleanupStaging(Service);
      :- PutConfigurationBack(Env, envInode);
      :- PutConfigurationBack(Service, serviceInode);
      return Completed;
    }

    // ---------- replace_config ----------

    method PublishStaged(kind: Kind) returns (status: Status)
      modifies this
      ensures Ended(status, Now()) == Publish(old(Now()), kind)
    {
      var slot := Now().disk.SlotOf(kind);
      var desired := manifest.JournalOf(kind).desired;
      :- Require(slot.publication.Some? && desired.Some?
                 && SafelyStaged(slot.publication.value) && IsDesired(slot.publication.value, desired.value));
      if slot.source.Some? && slot.source.value.inode == slot.publication.value.inode {
        :- PutSlot(kind, WithoutSource(slot));
      }
      slot := Now().disk.SlotOf(kind);
      :- PutSlot(kind, Slot(slot.publication, slot.source, None));
      :- Require(Published(Now().disk.SlotOf(kind), desired));
      return Completed;
    }

    method StageDraft(kind: Kind, mode: nat) returns (status: Status)
      modifies this
      ensures Ended(status, Now()) == PublishDraft(old(Now()), kind, mode)
    {
      var slot := Now().disk.SlotOf(kind);
      :- Require(slot.source.Some? && SafelyReadable(slot.source.value));
      :- WriteManifest(manifest.WithJournal(kind, Journaled(manifest.JournalOf(kind), slot.source.value, mode)));
      :- PutSlot(kind, slot.(source := Some(slot.source.value.(mode := mode))));
      slot := Now().disk.SlotOf(kind);
      :- Require(slot.publication.None?);
      var shared := Some(slot.source.value.(nlink := slot.source.value.nlink + 1));
      :- PutSlot(kind, Slot(slot.dest, shared, shared));
      :- PublishStaged(kind);
      return Completed;
    }

    method ReplaceConfiguration(kind: Kind, mode: nat) returns (status: Status)
      modifies this
      ensures Ended(status, Now()) == ReplaceConfig(old(Now()), kind, mode)
    {
      status := Completed;
      :- Require(Validates(Now().disk, false));
      :- Require(manifest.phase !in {Committing, Committed, RollingBack, RolledBack, RollbackHealthy});
      :- Require(mode in PublishedModes(kind));
      var slot := Now().disk.SlotOf(kind);
      var desired := manifest.JournalOf(kind).desired;
      if slot.source.None? {
        :- Require(desired.Some? && desired.value.mode == mode);
        if slot.publication.None? {
          :- Require(Published(slot, desired));
        } else {
          :- PublishStaged(kind);
        }
      } else if slot.publication.Some? {
        :- Require(desired.Some? && desired.value.mode == mode);
        :- PublishStaged(kind);
      } else {
        :- StageDraft(kind, mode);
      }
      return Completed;
    }
  }
}
