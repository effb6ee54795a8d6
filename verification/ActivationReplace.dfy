/** Where `replace_config` is accepted, and the exact cuts at which it leaves a state nothing validates any more. */
module ActivationReplace {
  import opened Options
  import opened ActivationModel
  import opened ActivationConfig

  /** The phases whose validation demands the begin snapshot of both files. */
  predicate SnapshotPhase(phase: Phase) {
    phase in {Prepared, Guarded, Linking, Stopping, Stopped, Fencing}
  }

  predicate NothingStaged(slot: Slot) {
    slot.source.None? && slot.publication.None?
  }

  /** What a complete call publishes: the pending publication, or else the draft. */
  function Arriving(slot: Slot): File
    requires !NothingStaged(slot)
  {
    if slot.publication.Some? then slot.publication.value else slot.source.value
  }

  /** The durable steps up to and including the rename that publishes. */
  function StepsToPublish(slot: Slot): nat {
    if slot.publication.None? then REPLACE_STEPS else if SharedStaging(slot) then 2 else 1
  }

  /** The call goes on to publish, and has something to publish. */
  predicate Publishes(d: Disk, kind: Kind, mode: nat) {
    !NothingStaged(d.SlotOf(kind)) && TakesMode(kind, d.SlotOf(kind), d.manifest.JournalOf(kind), mode)
  }

  /** The call loses its footing: before the history phases by publishing anything but the snapshot, and while
      the candidate starts by journaling a draft without getting to publish it. */
  predicate Fatal(w: World, kind: Kind, mode: nat) {
    var slot := w.disk.SlotOf(kind);
    var phase := w.disk.manifest.phase;
    && Publishes(w.disk, kind, mode)
    && (|| (&& SnapshotPhase(phase)
            && w.disk.manifest.plan.Original(kind) != Some(Content(Arriving(slot).digest, mode))
            && w.power >= StepsToPublish(slot))
        || (phase in {CandidateStarting, CandidateHealthy} && 0 < w.power < REPLACE_STEPS))
  }

  // ---------- when the file arrives ----------

  /** The file is published exactly from that many steps on. */
  predicate Lands(w: World, kind: Kind, mode: nat, outcome: Outcome) {
    var slot := w.disk.SlotOf(kind);
    && !NothingStaged(slot)
    && outcome.world.disk.SlotOf(kind).dest ==
         if w.power >= StepsToPublish(slot) then Some(File(Arriving(slot).inode, Arriving(slot).digest, mode, 1)) else slot.dest
  }

  lemma PublicationLands(w: World, kind: Kind, mode: nat)
    requires ConfigReady(w.disk, kind) && w.disk.SlotOf(kind).publication.Some?
    requires w.disk.manifest.JournalOf(kind).desired.value.mode == mode
    ensures Lands(w, kind, mode, Publish(w, kind))
  {
    var single := DropSharedSource(w, kind);
    assert !single.Raised?;
  }

  lemma DraftLands(w: World, kind: Kind, mode: nat)
    requires ConfigReady(w.disk, kind) && mode in PublishedModes(kind) && HasLooseDraft(w.disk.SlotOf(kind))
    ensures Lands(w, kind, mode, PublishDraft(w, kind, mode))
  {
    PrepareKeeps(w, kind, mode);
    var journaled := WriteAhead(w, kind, mode);
    if journaled.Done? {
      var changed := ChangeMode(journaled.world, kind, mode);
      if changed.Done? {
        var linked := LinkPublication(changed.world, kind);
        if linked.Done? {
          PublicationLands(linked.world, kind, mode);
          PublishKeeps(linked.world, kind);
        }
      }
    }
  }

  // ---------- what an accepted call does, by phase ----------

  lemma AcceptedReplace(w: World, kind: Kind, mode: nat)
    requires Validates(w.disk, false) && ReplaceAccepted(w.disk.manifest.phase) && ConfigReady(w.disk, kind)
    ensures var slot := w.disk.SlotOf(kind);
      var outcome := ReplaceConfig(w, kind, mode);
      && (!Publishes(w.disk, kind, mode) ==> outcome.world == w)
      && (Publishes(w.disk, kind, mode) ==> outcome == if slot.publication.Some? then Publish(w, kind) else PublishDraft(w, kind, mode))
  {
    ReplaceTakes(w, kind, mode);
  }

  lemma AcceptedReplaceKeeps(w: World, kind: Kind, mode: nat)
    requires Validates(w.disk, false) && ReplaceAccepted(w.disk.manifest.phase) && ConfigReady(w.disk, kind)
    ensures var e := ReplaceConfig(w, kind, mode).world.disk;
      ConfigReady(e, kind) && OnlyConfigChanged(w.disk, e, kind)
  {
    AcceptedReplace(w, kind, mode);
    if Publishes(w.disk, kind, mode) {
      if w.disk.SlotOf(kind).publication.Some? {
        PublishKeeps(w, kind);
      } else {
        PublishDraftKeeps(w, kind, mode);
      }
    }
  }

  lemma SnapshotToleratesSameContent(d: Disk, e: Disk, kind: Kind)
    requires Validates(d, false) && SnapshotPhase(d.manifest.phase) && OnlyConfigChanged(d, e, kind)
    requires e.SlotOf(kind).dest.Some? ==> SafelyReadable(e.SlotOf(kind).dest.value)
    ensures ContentOf(e.SlotOf(kind).dest) == d.manifest.plan.Original(kind) ==> Validates(e, false)
    ensures ContentOf(e.SlotOf(kind).dest) != d.manifest.plan.Original(kind) ==> !Validates(e, true)
  {
  }

  lemma CandidateDemandsJournaled(d: Disk, e: Disk, kind: Kind)
    requires Validates(d, false) && d.manifest.phase in {CandidateStarting, CandidateHealthy} && OnlyConfigChanged(d, e, kind)
    ensures Published(e.SlotOf(kind), e.manifest.JournalOf(kind).desired) ==> Validates(e, false)
    ensures !Published(e.SlotOf(kind), e.manifest.JournalOf(kind).desired) ==> !Validates(e, true)
  {
  }

  /** `e` stands for the disk the call leaves. */
  lemma SnapshotDecides(w: World, kind: Kind, mode: nat, e: Disk)
    requires Validates(w.disk, false) && SnapshotPhase(w.disk.manifest.phase) && Publishes(w.disk, kind, mode)
    requires OnlyConfigChanged(w.disk, e, kind) && ConfigReady(e, kind)
    requires w.power < StepsToPublish(w.disk.SlotOf(kind)) ==> e.SlotOf(kind).dest == w.disk.SlotOf(kind).dest
    requires w.power >= StepsToPublish(w.disk.SlotOf(kind)) ==>
               ContentOf(e.SlotOf(kind).dest) == Some(Content(Arriving(w.disk.SlotOf(kind)).digest, mode))
    ensures if Fatal(w, kind, mode) then !Validates(e, true) else Validates(e, false)
  {
    SnapshotToleratesSameContent(w.disk, w.disk, kind);
    SnapshotToleratesSameContent(w.disk, e, kind);
  }

  lemma FatalInSnapshotPhase(w: World, kind: Kind, mode: nat)
    requires Validates(w.disk, false) && SnapshotPhase(w.disk.manifest.phase) && ConfigReady(w.disk, kind)
    requires Publishes(w.disk, kind, mode)
    ensures var e := ReplaceConfig(w, kind, mode).world.disk;
      (if Fatal(w, kind, mode) then !Validates(e, true) else Validates(e, false))
  {
    AcceptedReplaceKeeps(w, kind, mode);
    ReplaceLands(w, kind, mode);
    SnapshotDecides(w, kind, mode, ReplaceConfig(w, kind, mode).world.disk);
  }

  lemma ReplaceLands(w: World, kind: Kind, mode: nat)
    requires Validates(w.disk, false) && ReplaceAccepted(w.disk.manifest.phase) && ConfigReady(w.disk, kind)
    requires Publishes(w.disk, kind, mode)
    ensures Lands(w, kind, mode, ReplaceConfig(w, kind, mode))
  {
    AcceptedReplace(w, kind, mode);
    if w.disk.SlotOf(kind).publication.Some? {
      PublicationLands(w, kind, mode);
    } else {
      DraftLands(w, kind, mode);
    }
  }

  lemma FatalWhileCandidateStarts(w: World, kind: Kind, mode: nat)
    requires Validates(w.disk, false) && w.disk.manifest.phase in {CandidateStarting, CandidateHealthy}
    requires ConfigReady(w.disk, kind) && Publishes(w.disk, kind, mode)
    ensures var e := ReplaceConfig(w, kind, mode).world.disk;
      (if Fatal(w, kind, mode) then !Validates(e, true) else Validates(e, false))
  {
    NothingPendsWhileCandidateStarts(w.disk, kind);
    AcceptedReplace(w, kind, mode);
    AcceptedReplaceKeeps(w, kind, mode);
    DraftLands(w, kind, mode);
    DraftIsJournaledWith(w, kind, mode);
    CandidateDecides(w, kind, mode, ReplaceConfig(w, kind, mode).world.disk);
  }

  lemma NothingPendsWhileCandidateStarts(d: Disk, kind: Kind)
    requires Validates(d, false) && d.manifest.phase in {CandidateStarting, CandidateHealthy} && ConfigReady(d, kind)
    ensures d.SlotOf(kind).publication.None?
  {
  }

  /** `e` stands for the disk the call leaves. */
  lemma CandidateDecides(w: World, kind: Kind, mode: nat, e: Disk)
    requires Validates(w.disk, false) && w.disk.manifest.phase in {CandidateStarting, CandidateHealthy}
    requires ConfigReady(w.disk, kind) && Publishes(w.disk, kind, mode) && HasLooseDraft(w.disk.SlotOf(kind))
    requires OnlyConfigChanged(w.disk, e, kind) && ConfigReady(e, kind)
    requires var draft := w.disk.SlotOf(kind).source.value;
      && (w.power >= REPLACE_STEPS ==> e.SlotOf(kind).dest == Some(File(draft.inode, draft.digest, mode, 1)))
      && (w.power < REPLACE_STEPS ==> e.SlotOf(kind).dest == w.disk.SlotOf(kind).dest)
      && (w.power > 0 ==> e.manifest.JournalOf(kind).desired == Some(Desired(draft.digest, mode, draft.inode)))
      && (w.power == 0 ==> e == w.disk)
    ensures if Fatal(w, kind, mode) then !Validates(e, true) else Validates(e, false)
  {
    CandidateDemandsJournaled(w.disk, e, kind);
  }

  /** In every phase, with a draft, with a pending publication or with neither, whatever mode the call has and what mode
      is journaled, and at every cut: the call leaves a valid transaction exactly when it is not fatal; a fatal one is
      not even valid for rollback. */
  lemma ReplaceIsFatalExactlyWhen(w: World, kind: Kind, mode: nat)
    requires Validates(w.disk, false) && ConfigReady(w.disk, kind)
    ensures var e := ReplaceConfig(w, kind, mode).world.disk;
      && (Validates(e, false) <==> !Fatal(w, kind, mode))
      && (Validates(e, true) <==> !Fatal(w, kind, mode))
  {
    if !ReplaceAccepted(w.disk.manifest.phase) {
      assert ReplaceConfig(w, kind, mode).world == w;
    } else if HistoryPhase(w.disk.manifest.phase) {
      ReplaceKeeps(w, kind, mode);
    } else if !Publishes(w.disk, kind, mode) {
      AcceptedReplace(w, kind, mode);
    } else if SnapshotPhase(w.disk.manifest.phase) {
      FatalInSnapshotPhase(w, kind, mode);
    } else {
      FatalWhileCandidateStarts(w, kind, mode);
    }
    ValidEitherWay(ReplaceConfig(w, kind, mode).world.disk);
  }

  lemma ValidEitherWay(d: Disk)
    ensures Validates(d, false) ==> Validates(d, true)
  {
  }

  /** So the call is safe wherever it is cut exactly when it is refused or publishes nothing, in the history phases, or
      before them when what it publishes is the very content of the snapshot. */
  lemma ReplaceIsSafeExactlyWhen(d: Disk, kind: Kind, mode: nat)
    requires Validates(d, false) && ConfigReady(d, kind)
    ensures (forall power: nat :: Validates(ReplaceConfig(World(d, power), kind, mode).world.disk, false)) <==>
              || !ReplaceAccepted(d.manifest.phase)
              || HistoryPhase(d.manifest.phase)
              || !Publishes(d, kind, mode)
              || (&& SnapshotPhase(d.manifest.phase)
                  && d.manifest.plan.Original(kind) == Some(Content(Arriving(d.SlotOf(kind)).digest, mode)))
  {
    forall power: nat
      ensures Validates(ReplaceConfig(World(d, power), kind, mode).world.disk, false) <==> !Fatal(World(d, power), kind, mode)
    {
      ReplaceIsFatalExactlyWhen(World(d, power), kind, mode);
    }
    ReplaceIsFatalExactlyWhen(World(d, 1), kind, mode);
    ReplaceIsFatalExactlyWhen(World(d, REPLACE_STEPS), kind, mode);
  }
}
