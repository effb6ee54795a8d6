/**
 The write-ahead publication of one configuration file.

 `Staging` describes every state the three names of a file can be in before rollback, whatever durable step
 `replace_config` was cut after and with whatever modes it was called; `Cleanable` describes what
 `_cleanup_config_staging` accepts once rollback has begun, and `Stale` the one kind of draft it does not.
 */
module ActivationConfig {
  import opened Options
  import opened ActivationModel

  predicate SharedStaging(slot: Slot) {
    slot.source.Some? && slot.publication.Some? && slot.source.value.inode == slot.publication.value.inode
  }

  /** The original snapshot was observed first, and the published file always is observed. */
  predicate WriteAheadKept(kind: Kind, original: Option<Content>, slot: Slot, journal: Journal) {
    && DigestOf(original) in journal.observed
    && (original.Some? ==> original.value.mode in AllowedModes(kind))
    && (slot.dest.Some? ==> SafelyReadable(slot.dest.value))
    && Authorized(kind, slot, journal)
  }

  /** The very file the journal names, whatever its mode. */
  predicate IsJournaled(file: File, desired: Option<Desired>) {
    desired.Some? && file.inode == desired.value.inode && file.digest == desired.value.digest
  }

  predicate Staging(kind: Kind, slot: Slot, journal: Journal) {
    && (SharedStaging(slot) ==> slot.source == slot.publication)
    && (slot.publication.Some? ==>
          && journal.desired.Some?
          && IsDesired(slot.publication.value, journal.desired.value)
          && slot.publication.value.nlink == (if SharedStaging(slot) then 2 else 1))
    && (slot.source.Some? && !SharedStaging(slot) ==>
          && slot.source.value.nlink == 1
          && (|| slot.source.value.mode == MODE_0600
              || (IsJournaled(slot.source.value, journal.desired) && slot.source.value.mode in PublishedModes(kind))))
    && (journal.desired.Some? ==>
          && journal.desired.value.mode in PublishedModes(kind)
          && Some(journal.desired.value.digest) in journal.observed
          && (slot.source.None? && slot.publication.None? ==> Published(slot, journal.desired)))
    && (slot.dest.Some? && slot.source.Some? ==> slot.dest.value.inode != slot.source.value.inode)
    && (slot.dest.Some? && slot.publication.Some? ==> slot.dest.value.inode != slot.publication.value.inode)
  }

  predicate HasLooseDraft(slot: Slot) {
    slot.source.Some? && slot.publication.None?
  }

  /** A draft that was given one mode and then journaled again with another. */
  predicate Stale(slot: Slot, journal: Journal) {
    HasLooseDraft(slot) && journal.desired.Some? && slot.source.value.mode !in {MODE_0600, journal.desired.value.mode}
  }

  predicate Cleanable(slot: Slot, journal: Journal) {
    && (slot.publication.Some? ==>
          && SafelyStaged(slot.publication.value)
          && journal.desired.Some?
          && IsDesired(slot.publication.value, journal.desired.value))
    && (slot.source.Some? ==> SafelyStaged(slot.source.value) && SourceDisposable(slot, journal.desired))
    && (SharedStaging(slot) ==> slot.publication.value.nlink == 2)
  }

  /** Of the states that cut publications leave, with whatever modes they were attempted, the rollback cleanup accepts
      exactly those whose draft is not stale; the env file has but one mode, so it is never stale. */
  lemma StagingIsCleanable(kind: Kind, slot: Slot, journal: Journal)
    requires Staging(kind, slot, journal)
    ensures Cleanable(slot, journal) <==> !Stale(slot, journal)
    ensures kind.Env? ==> !Stale(slot, journal)
  {
  }

  // ---------- one configuration file inside a whole disk ----------

  ghost predicate ConfigReady(d: Disk, kind: Kind) {
    && Staging(kind, d.SlotOf(kind), d.manifest.JournalOf(kind))
    && WriteAheadKept(kind, d.manifest.plan.Original(kind), d.SlotOf(kind), d.manifest.JournalOf(kind))
  }

  /** Nothing but the named configuration file and its journal differs. */
  predicate OnlyConfigChanged(d: Disk, e: Disk, kind: Kind) {
    var other := if kind.Env? then Service else Env;
    && e.tree == d.tree
    && e.manifest.plan == d.manifest.plan
    && e.manifest.phase == d.manifest.phase
    && e.manifest.rollbackFrom == d.manifest.rollbackFrom
    && e.SlotOf(other) == d.SlotOf(other)
    && e.manifest.JournalOf(other) == d.manifest.JournalOf(other)
  }

  /** Publication has at most two durable steps left, keeps the state describable after
      each of them, and completes with the exact journaled file in place. */
  lemma PublishKeeps(w: World, kind: Kind)
    requires ConfigReady(w.disk, kind) && w.disk.SlotOf(kind).publication.Some?
    ensures var outcome := Publish(w, kind);
      && !outcome.Raised?
      && ConfigReady(outcome.world.disk, kind)
      && OnlyConfigChanged(w.disk, outcome.world.disk, kind)
      && outcome.world.disk.manifest == w.disk.manifest
      && (outcome.Done? ==> Published(outcome.world.disk.SlotOf(kind), w.disk.manifest.JournalOf(kind).desired))
      && (w.power >= 2 ==> outcome.Done?)
  {
    var single := DropSharedSource(w, kind);
    assert !single.Raised?;
    assert ConfigReady(single.world.disk, kind);
    assert OnlyConfigChanged(w.disk, single.world.disk, kind);
  }

  /** The three durable steps before publication: the journal first, then mode and link. */
  lemma PrepareKeeps(w: World, kind: Kind, mode: nat)
    requires ConfigReady(w.disk, kind) && mode in PublishedModes(kind)
    requires HasLooseDraft(w.disk.SlotOf(kind))
    ensures var journaled := WriteAhead(w, kind, mode);
      && !journaled.Raised?
      && ConfigReady(journaled.world.disk, kind)
      && OnlyConfigChanged(w.disk, journaled.world.disk, kind)
      && (w.power >= 1 ==> journaled.Done?)
      && (journaled.Done? ==>
        var changed := ChangeMode(journaled.world, kind, mode);
        && !changed.Raised?
        && ConfigReady(changed.world.disk, kind)
        && OnlyConfigChanged(w.disk, changed.world.disk, kind)
        && (w.power >= 2 ==> changed.Done?)
        && (changed.Done? ==>
          var linked := LinkPublication(changed.world, kind);
          && !linked.Raised?
          && ConfigReady(linked.world.disk, kind)
          && OnlyConfigChanged(w.disk, linked.world.disk, kind)
          && (w.power >= 3 ==> linked.Done? && linked.world.power == w.power - 3)
          && (linked.Done? ==>
            && linked.world.disk.SlotOf(kind).publication.Some?
            && linked.world.disk.manifest.JournalOf(kind).desired
                 == Some(Desired(w.disk.SlotOf(kind).source.value.digest, mode, w.disk.SlotOf(kind).source.value.inode)))))
  {
  }

  // ---------- replace_config as a whole ----------

  /** The phases in which `replace_config` does not refuse. */
  predicate ReplaceAccepted(phase: Phase) {
    phase !in {Committing, Committed, RollingBack, RolledBack, RollbackHealthy}
  }

  /** The phases whose validation asks only that the published digest was journaled. */
  predicate HistoryPhase(phase: Phase) {
    phase in {Linked, Fenced, Authorizing, Authority}
  }

  const REPLACE_STEPS: nat := 5

  lemma PublishDraftKeeps(w: World, kind: Kind, mode: nat)
    requires ConfigReady(w.disk, kind) && mode in PublishedModes(kind)
    requires HasLooseDraft(w.disk.SlotOf(kind))
    ensures var outcome := PublishDraft(w, kind, mode);
      && !outcome.Raised?
      && ConfigReady(outcome.world.disk, kind)
      && OnlyConfigChanged(w.disk, outcome.world.disk, kind)
      && (outcome.Done? ==>
            Published(outcome.world.disk.SlotOf(kind), outcome.world.disk.manifest.JournalOf(kind).desired))
      && (w.power >= REPLACE_STEPS ==> outcome.Done?)
  {
    PrepareKeeps(w, kind, mode);
    var journaled := WriteAhead(w, kind, mode);
    if journaled.Done? {
      var changed := ChangeMode(journaled.world, kind, mode);
      if changed.Done? {
        var linked := LinkPublication(changed.world, kind);
        if linked.Done? {
          PublishKeeps(linked.world, kind);
        }
      }
    }
  }

  /** In a history phase a configuration change never makes the validation fail. */
  lemma HistoryToleratesChange(d: Disk, e: Disk, kind: Kind)
    requires Validates(d, false) && HistoryPhase(d.manifest.phase) && OnlyConfigChanged(d, e, kind)
    requires WriteAheadKept(kind, e.manifest.plan.Original(kind), e.SlotOf(kind), e.manifest.JournalOf(kind))
    ensures Validates(e, false)
  {
  }

  /** The call gets past its checks on the mode: a draft may be journaled with either mode, and what is journaled
      already only be resumed with its own. */
  predicate TakesMode(kind: Kind, slot: Slot, journal: Journal, mode: nat) {
    && mode in PublishedModes(kind)
    && (HasLooseDraft(slot) || (journal.desired.Some? && journal.desired.value.mode == mode))
  }

  /** What an accepted call comes to. */
  lemma ReplaceTakes(w: World, kind: Kind, mode: nat)
    requires Validates(w.disk, false) && ReplaceAccepted(w.disk.manifest.phase) && ConfigReady(w.disk, kind)
    ensures var slot := w.disk.SlotOf(kind);
      ReplaceConfig(w, kind, mode) ==
        if !TakesMode(kind, slot, w.disk.manifest.JournalOf(kind), mode) then Raised(w)
        else if slot.publication.Some? then Publish(w, kind)
        else if slot.source.Some? then PublishDraft(w, kind, mode)
        else Done(w)
  {
  }

  predicate ReplaceOk(w: World, kind: Kind, mode: nat, outcome: Outcome) {
    var desired := outcome.world.disk.manifest.JournalOf(kind).desired;
    && OnlyConfigChanged(w.disk, outcome.world.disk, kind)
    && (outcome.Done? ==> Published(outcome.world.disk.SlotOf(kind), desired) && desired.value.mode == mode)
    && !outcome.Raised?
    && (w.power >= REPLACE_STEPS ==> outcome.Done?)
  }

  lemma TakenReplaceIsOk(w: World, kind: Kind, mode: nat)
    requires Validates(w.disk, false) && ReplaceAccepted(w.disk.manifest.phase) && ConfigReady(w.disk, kind)
    requires TakesMode(kind, w.disk.SlotOf(kind), w.disk.manifest.JournalOf(kind), mode)
    ensures ReplaceOk(w, kind, mode, ReplaceConfig(w, kind, mode)) && ConfigReady(ReplaceConfig(w, kind, mode).world.disk, kind)
  {
    ReplaceTakes(w, kind, mode);
    if w.disk.SlotOf(kind).publication.Some? {
      PublishKeeps(w, kind);
    } else if w.disk.SlotOf(kind).source.Some? {
      PublishDraftKeeps(w, kind, mode);
      DraftIsJournaledWith(w, kind, mode);
    }
  }

  lemma ReplaceKeeps(w: World, kind: Kind, mode: nat)
    requires Validates(w.disk, false) && HistoryPhase(w.disk.manifest.phase) && ConfigReady(w.disk, kind)
    ensures var outcome := ReplaceConfig(w, kind, mode);
      && ConfigReady(outcome.world.disk, kind)
      && OnlyConfigChanged(w.disk, outcome.world.disk, kind)
      && Validates(outcome.world.disk, false)
      && (if TakesMode(kind, w.disk.SlotOf(kind), w.disk.manifest.JournalOf(kind), mode) then ReplaceOk(w, kind, mode, outcome)
          else outcome == Raised(w))
  {
    ReplaceTakes(w, kind, mode);
    if TakesMode(kind, w.disk.SlotOf(kind), w.disk.manifest.JournalOf(kind), mode) {
      TakenReplaceIsOk(w, kind, mode);
    }
    HistoryToleratesChange(w.disk, ReplaceConfig(w, kind, mode).world.disk, kind);
  }

  lemma DraftIsJournaledWith(w: World, kind: Kind, mode: nat)
    requires ConfigReady(w.disk, kind) && mode in PublishedModes(kind) && HasLooseDraft(w.disk.SlotOf(kind))
    ensures w.power > 0 ==>
      var draft := w.disk.SlotOf(kind).source.value;
      PublishDraft(w, kind, mode).world.disk.manifest.JournalOf(kind).desired == Some(Desired(draft.digest, mode, draft.inode))
    ensures w.power == 0 ==> PublishDraft(w, kind, mode) == Crashed(w)
  {
    PrepareKeeps(w, kind, mode);
    var journaled := WriteAhead(w, kind, mode);
    if journaled.Done? {
      var changed := ChangeMode(journaled.world, kind, mode);
      if changed.Done? {
        var linked := LinkPublication(changed.world, kind);
        if linked.Done? {
          PublishKeeps(linked.world, kind);
        }
      }
    }
  }

  /** The file being published, wherever its publication was cut. */
  predicate InFlight(slot: Slot, journal: Journal, inode: nat, digest: nat) {
    if slot.publication.Some? then
      && slot.publication.value.inode == inode && slot.publication.value.digest == digest
      && (slot.source.Some? ==> SharedStaging(slot))
    else if slot.source.Some? then
      slot.source.value.inode == inode && slot.source.value.digest == digest
    else
      && journal.desired.Some?
      && journal.desired.value == Desired(digest, journal.desired.value.mode, inode)
      && slot.dest == Some(File(inode, digest, journal.desired.value.mode, 1))
  }

  /** One call of `replace_config` and the steps before it loses power. */
  datatype Attempt = Attempt(mode: nat, power: nat)

  function Attempts(d: Disk, kind: Kind, attempts: seq<Attempt>): Disk
    decreases |attempts|
  {
    if attempts == [] then d
    else Attempts(ReplaceConfig(World(d, attempts[0].power), kind, attempts[0].mode).world.disk, kind, attempts[1..])
  }

  predicate FlightKept(outcome: Outcome, kind: Kind, inode: nat, digest: nat) {
    var slot, journal := outcome.world.disk.SlotOf(kind), outcome.world.disk.manifest.JournalOf(kind);
    && InFlight(slot, journal, inode, digest)
    && (outcome.Done? ==>
          journal.desired.Some? && slot == Slot(Some(File(inode, digest, journal.desired.value.mode, 1)), None, None))
  }

  lemma PublishKeepsFlight(w: World, kind: Kind, inode: nat, digest: nat)
    requires ConfigReady(w.disk, kind) && w.disk.SlotOf(kind).publication.Some?
    requires InFlight(w.disk.SlotOf(kind), w.disk.manifest.JournalOf(kind), inode, digest)
    ensures FlightKept(Publish(w, kind), kind, inode, digest)
  {
    var single := DropSharedSource(w, kind);
    assert !single.Raised?;
  }

  lemma PublishDraftKeepsFlight(w: World, kind: Kind, mode: nat, inode: nat, digest: nat)
    requires ConfigReady(w.disk, kind) && mode in PublishedModes(kind) && HasLooseDraft(w.disk.SlotOf(kind))
    requires InFlight(w.disk.SlotOf(kind), w.disk.manifest.JournalOf(kind), inode, digest)
    ensures FlightKept(PublishDraft(w, kind, mode), kind, inode, digest)
  {
    PrepareKeeps(w, kind, mode);
    var journaled := WriteAhead(w, kind, mode);
    if journaled.Done? {
      var changed := ChangeMode(journaled.world, kind, mode);
      if changed.Done? {
        var linked := LinkPublication(changed.world, kind);
        if linked.Done? {
          PublishKeepsFlight(linked.world, kind, inode, digest);
        }
      }
    }
  }

  lemma AttemptKeepsFlight(w: World, kind: Kind, mode: nat, inode: nat, digest: nat)
    requires Validates(w.disk, false) && HistoryPhase(w.disk.manifest.phase) && ConfigReady(w.disk, kind)
    requires InFlight(w.disk.SlotOf(kind), w.disk.manifest.JournalOf(kind), inode, digest)
    ensures FlightKept(ReplaceConfig(w, kind, mode), kind, inode, digest)
  {
    ReplaceTakes(w, kind, mode);
    if TakesMode(kind, w.disk.SlotOf(kind), w.disk.manifest.JournalOf(kind), mode) {
      if w.disk.SlotOf(kind).publication.Some? {
        PublishKeepsFlight(w, kind, inode, digest);
      } else if w.disk.SlotOf(kind).source.Some? {
        PublishDraftKeepsFlight(w, kind, mode, inode, digest);
      }
    }
  }

  /** After any number of attempts with any modes, each cut anywhere, the drafted file is still on its way; and one more
      call with power enough publishes exactly its inode and bytes, and leaves no staging name, exactly when it is made
      with the journaled mode or the file is still a loose draft. */
  lemma {:induction false} InterruptedPublicationConverges(
    d: Disk, kind: Kind, inode: nat, digest: nat, attempts: seq<Attempt>, last: Attempt)
    requires Validates(d, false) && HistoryPhase(d.manifest.phase) && ConfigReady(d, kind)
    requires InFlight(d.SlotOf(kind), d.manifest.JournalOf(kind), inode, digest)
    requires last.power >= REPLACE_STEPS
    ensures var reached := Attempts(d, kind, attempts);
      var slot, journal := reached.SlotOf(kind), reached.manifest.JournalOf(kind);
      var outcome := ReplaceConfig(World(reached, last.power), kind, last.mode);
      && WriteAheadKept(kind, d.manifest.plan.Original(kind), slot, journal)
      && InFlight(slot, journal, inode, digest)
      && (outcome.Done? <==> TakesMode(kind, slot, journal, last.mode))
      && (outcome.Done? ==>
            && outcome.world.disk.SlotOf(kind) == Slot(Some(File(inode, digest, last.mode, 1)), None, None)
            && outcome.world.disk.manifest.JournalOf(kind).desired == Some(Desired(digest, last.mode, inode)))
    decreases |attempts|
  {
    var attempt := if attempts == [] then last else attempts[0];
    var w := World(d, attempt.power);
    ReplaceKeeps(w, kind, attempt.mode);
    AttemptKeepsFlight(w, kind, attempt.mode, inode, digest);
    if attempts != [] {
      InterruptedPublicationConverges(ReplaceConfig(w, kind, attempt.mode).world.disk, kind, inode, digest, attempts[1..], last);
    }
  }

  /** In particular attempts that all use one mode always converge. */
  lemma {:induction false} OneModeConverges(
    d: Disk, kind: Kind, mode: nat, inode: nat, digest: nat, attempts: seq<Attempt>, power: nat)
    requires Validates(d, false) && HistoryPhase(d.manifest.phase) && ConfigReady(d, kind)
    requires InFlight(d.SlotOf(kind), d.manifest.JournalOf(kind), inode, digest)
    requires TakesMode(kind, d.SlotOf(kind), d.manifest.JournalOf(kind), mode)
    requires power >= REPLACE_STEPS && forall i :: 0 <= i < |attempts| ==> attempts[i].mode == mode
    ensures var outcome := ReplaceConfig(World(Attempts(d, kind, attempts), power), kind, mode);
      outcome.Done? && outcome.world.disk.SlotOf(kind) == Slot(Some(File(inode, digest, mode, 1)), None, None)
    decreases |attempts|
  {
    if attempts == [] {
      InterruptedPublicationConverges(d, kind, inode, digest, attempts, Attempt(mode, power));
    } else {
      var w := World(d, attempts[0].power);
      ReplaceKeeps(w, kind, mode);
      AttemptKeepsFlight(w, kind, mode, inode, digest);
      ModeStaysTaken(w, kind, mode);
      OneModeConverges(ReplaceConfig(w, kind, mode).world.disk, kind, mode, inode, digest, attempts[1..], power);
    }
  }

  lemma ModeStaysTaken(w: World, kind: Kind, mode: nat)
    requires Validates(w.disk, false) && HistoryPhase(w.disk.manifest.phase) && ConfigReady(w.disk, kind)
    requires TakesMode(kind, w.disk.SlotOf(kind), w.disk.manifest.JournalOf(kind), mode)
    ensures var e := ReplaceConfig(w, kind, mode).world.disk; TakesMode(kind, e.SlotOf(kind), e.manifest.JournalOf(kind), mode)
  {
    ReplaceTakes(w, kind, mode);
    if w.disk.SlotOf(kind).publication.Some? {
      PublishKeeps(w, kind);
    } else if w.disk.SlotOf(kind).source.Some? {
      DraftIsJournaledWith(w, kind, mode);
    }
  }

  /** A draft written while an earlier publication is still pending is not what a successful
      call publishes: the call finishes the journaled file and leaves the draft unpublished.
      A successful call publishes the draft exactly when no publication was pending. */
  lemma DraftPublishedIffNonePending(w: World, kind: Kind, mode: nat)
    requires Validates(w.disk, false) && HistoryPhase(w.disk.manifest.phase) && ConfigReady(w.disk, kind)
    requires w.disk.SlotOf(kind).source.Some? && !SharedStaging(w.disk.SlotOf(kind))
    requires ReplaceConfig(w, kind, mode).Done?
    ensures var slot := w.disk.SlotOf(kind);
      var reached := ReplaceConfig(w, kind, mode).world.disk.SlotOf(kind);
      && reached.dest.Some?
      && (reached.dest.value.inode == slot.source.value.inode <==> slot.publication.None?)
      && (slot.publication.Some? ==> reached.source == slot.source)
  {
    ReplaceTakes(w, kind, mode);
    if w.disk.SlotOf(kind).publication.Some? {
      PendingIsPublished(w, kind);
    } else {
      PublishDraftKeepsFlight(w, kind, mode, w.disk.SlotOf(kind).source.value.inode, w.disk.SlotOf(kind).source.value.digest);
    }
  }

  lemma PendingIsPublished(w: World, kind: Kind)
    requires ConfigReady(w.disk, kind) && w.disk.SlotOf(kind).publication.Some? && !SharedStaging(w.disk.SlotOf(kind))
    requires Publish(w, kind).Done?
    ensures var reached := Publish(w, kind).world.disk.SlotOf(kind);
      reached.dest == w.disk.SlotOf(kind).publication && reached.source == w.disk.SlotOf(kind).source
  {
  }

  // ---------- cleanup during rollback ----------

  /** Cleanup never refuses a state a cut publication can leave, and removes both names. */
  lemma CleanStagingRemoves(w: World, kind: Kind)
    requires Cleanable(w.disk.SlotOf(kind), w.disk.manifest.JournalOf(kind))
    ensures var outcome := CleanStaging(w, kind);
      && !outcome.Raised?
      && (w.power >= 2 ==> outcome.Done? && outcome.world.power >= w.power - 2)
      && OnlyConfigChanged(w.disk, outcome.world.disk, kind)
      && outcome.world.disk.manifest == w.disk.manifest
      && outcome.world.disk.SlotOf(kind).dest == w.disk.SlotOf(kind).dest
      && Cleanable(outcome.world.disk.SlotOf(kind), w.disk.manifest.JournalOf(kind))
      && (outcome.Done? ==> outcome.world.disk.SlotOf(kind) == Slot(w.disk.SlotOf(kind).dest, None, None))
  {
    var cleared := CleanSource(w, kind);
    assert !cleared.Raised?;
  }

  // ---------- changing the mode between attempts ----------

  /** The call journals the loose draft, with its own mode. */
  predicate Journals(w: World, kind: Kind, mode: nat) {
    && Validates(w.disk, false) && ReplaceAccepted(w.disk.manifest.phase)
    && mode in PublishedModes(kind) && HasLooseDraft(w.disk.SlotOf(kind)) && w.power > 0
  }

  /** What a call leaves is stale exactly when it lost power right after journaling a draft that an earlier attempt had
      given another mode, or journaled nothing and found it so. */
  lemma StaleExactlyWhen(w: World, kind: Kind, mode: nat)
    requires ConfigReady(w.disk, kind)
    ensures var e := ReplaceConfig(w, kind, mode).world.disk;
      Stale(e.SlotOf(kind), e.manifest.JournalOf(kind)) <==>
        if Journals(w, kind, mode) then w.power == 1 && w.disk.SlotOf(kind).source.value.mode !in {MODE_0600, mode}
        else Stale(w.disk.SlotOf(kind), w.disk.manifest.JournalOf(kind))
  {
    if Validates(w.disk, false) && ReplaceAccepted(w.disk.manifest.phase) {
      ReplaceTakes(w, kind, mode);
    }
    if Journals(w, kind, mode) {
      DraftIsStaleExactlyWhen(w, kind, mode);
    } else if w.disk.SlotOf(kind).publication.Some? {
      PublishNeverLeavesStale(w, kind);
    }
  }

  lemma PublishNeverLeavesStale(w: World, kind: Kind)
    requires ConfigReady(w.disk, kind) && w.disk.SlotOf(kind).publication.Some?
    ensures var e := Publish(w, kind).world.disk; !Stale(e.SlotOf(kind), e.manifest.JournalOf(kind))
  {
    PublishKeeps(w, kind);
    var single := DropSharedSource(w, kind);
    assert !single.Raised?;
  }

  lemma DraftIsStaleExactlyWhen(w: World, kind: Kind, mode: nat)
    requires ConfigReady(w.disk, kind) && mode in PublishedModes(kind) && HasLooseDraft(w.disk.SlotOf(kind)) && w.power > 0
    ensures var e := PublishDraft(w, kind, mode).world.disk;
      Stale(e.SlotOf(kind), e.manifest.JournalOf(kind)) <==>
        w.power == 1 && w.disk.SlotOf(kind).source.value.mode !in {MODE_0600, mode}
  {
    PrepareKeeps(w, kind, mode);
    var journaled := WriteAhead(w, kind, mode);
    if journaled.Done? {
      var changed := ChangeMode(journaled.world, kind, mode);
      if changed.Done? {
        var linked := LinkPublication(changed.world, kind);
        if linked.Done? {
          PublishNeverLeavesStale(linked.world, kind);
        }
      }
    }
  }
}
