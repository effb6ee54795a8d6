/**
 The journaled release activation: the small filesystem it works on, the manifest
 that says which filesystem states are acceptable, and its four commands.

 One durable step is one atomic, fsynced operation.  A `World` carries the number of
 durable steps left before the machine loses power, so a command that is run with every
 possible `power` is cut between every two of its steps.
 */
module ActivationModel {
  import opened Options

  // ---------- release tree ----------

  /** The paths a transaction can name: the two links, the children of `releases`,
      the two places a retired candidate can be found in, and everything else. */
  datatype Path =
    | Current
    | Previous
    | InReleases(name: string)
    | RetiredCandidate
    | ParkedCandidate
    | Elsewhere(name: string)

  /** What a symbolic link holds.  Two spellings of one path are different texts. */
  datatype LinkText = LinkText(path: Path, absolute: bool)

  /** A directory is known by its inode, which stands for device, inode and VERSION digest. */
  datatype Node = Link(text: LinkText) | Dir(inode: nat)

  type Tree = map<Path, Node>

  datatype Release = Release(source: Path, target: Path, inode: nat)

  datatype LinkState = NoEntry | Symlink(text: LinkText) | Directory

  function Spelled(path: Path): LinkText {
    LinkText(path, true)
  }

  predicate Matches(tree: Tree, path: Path, release: Release) {
    path in tree && tree[path] == Dir(release.inode)
  }

  predicate PointsTo(tree: Tree, path: Path, release: Release) {
    path in tree && tree[path].Link? && Matches(tree, tree[path].text.path, release)
  }

  predicate Located(tree: Tree, release: Release, extras: set<Path>) {
    Matches(tree, release.source, release)
    || Matches(tree, release.target, release)
    || exists extra | extra in extras :: Matches(tree, extra, release)
  }

  function StateOf(tree: Tree, path: Path): LinkState {
    if path !in tree then NoEntry
    else if tree[path].Link? then Symlink(tree[path].text)
    else Directory
  }

  // ---------- configuration files ----------

  const MODE_0600: nat := 384
  const MODE_0640: nat := 416
  const MODE_0644: nat := 420

  datatype Kind = Env | Service

  datatype Content = Content(digest: nat, mode: nat)

  datatype File = File(inode: nat, digest: nat, mode: nat, nlink: nat)

  /** The three names one configuration file has: the published one and two staging names. */
  datatype Slot = Slot(dest: Option<File>, source: Option<File>, publication: Option<File>)

  datatype Desired = Desired(digest: nat, mode: nat, inode: nat)

  /** The write-ahead part of the manifest for one configuration file. */
  datatype Journal = Journal(desired: Option<Desired>, observed: set<Option<nat>>)

  predicate OthersMayWrite(mode: nat) {
    mode / 16 % 2 == 1 || mode / 2 % 2 == 1
  }

  predicate SafelyReadable(file: File) {
    file.nlink == 1 && !OthersMayWrite(file.mode)
  }

  predicate SafelyStaged(file: File) {
    file.nlink in {1, 2} && !OthersMayWrite(file.mode)
  }

  function ContentOf(file: Option<File>): Option<Content> {
    if file.None? then None else Some(Content(file.value.digest, file.value.mode))
  }

  function DigestOf(content: Option<Content>): Option<nat> {
    if content.None? then None else Some(content.value.digest)
  }

  /** The exact journaled inode with the journaled bytes and mode. */
  predicate IsDesired(file: File, desired: Desired) {
    file.inode == desired.inode && file.digest == desired.digest && file.mode == desired.mode
  }

  predicate Published(slot: Slot, desired: Option<Desired>) {
    && slot.dest.Some?
    && SafelyReadable(slot.dest.value)
    && desired.Some?
    && IsDesired(slot.dest.value, desired.value)
  }

  function AllowedModes(kind: Kind): set<nat> {
    match kind
    case Env => {MODE_0600}
    case Service => {MODE_0600, MODE_0640, MODE_0644}
  }

  function PublishedModes(kind: Kind): set<nat> {
    match kind
    case Env => {MODE_0600}
    case Service => {MODE_0600, MODE_0644}
  }

  // ---------- manifest ----------

  datatype Phase =
    | Prepared | Guarded | Linking | Linked | Stopping | Stopped | Fencing | Fenced
    | Authorizing | Authority | CandidateStarting | CandidateHealthy
    | Committing | Committed | RollingBack | RolledBack | RollbackHealthy

  function Transitions(phase: Phase): set<Phase> {
    match phase
    case Prepared => {Guarded, Linking, RollingBack}
    case Guarded => {Linking, RollingBack}
    case Linking => {Linked, RollingBack}
    case Linked => {Stopping, CandidateStarting, RollingBack}
    case Stopping => {Stopped, RollingBack}
    case Stopped => {Fencing, Fenced, Authorizing, RollingBack}
    case Fencing => {Fenced, RollingBack}
    case Fenced => {Authorizing, RollingBack}
    case Authorizing => {Authority, RollingBack}
    case Authority => {CandidateStarting, RollingBack}
    case CandidateStarting => {CandidateHealthy, RollingBack}
    case CandidateHealthy => {Committing, RollingBack}
    case Committing => {Committed}
    case Committed => {}
    case RollingBack => {RolledBack}
    case RolledBack => {RollbackHealthy}
    case RollbackHealthy => {}
  }

  /** The part of the manifest that `begin` writes and nothing changes afterwards. */
  datatype Plan = Plan(
    candidate: Release,
    oldRelease: Option<Release>,
    current: LinkState,
    previous: LinkState,
    previousRelease: Option<Release>,
    env: Option<Content>,
    service: Option<Content>)
  {
    /** `release_dir`: the path the candidate is installed at. */
    function ReleaseDir(): Path { candidate.target }

    function Original(kind: Kind): Option<Content> {
      if kind.Env? then env else service
    }

    /** The rollback release has to be moved out of the way. */
    predicate OldMoves() {
      oldRelease.Some? && oldRelease.value.source != oldRelease.value.target
    }
  }

  datatype Manifest = Manifest(
    plan: Plan,
    phase: Phase,
    rollbackFrom: Option<Phase>,
    env: Journal,
    service: Journal)
  {
    function JournalOf(kind: Kind): Journal {
      if kind.Env? then env else service
    }

    function WithJournal(kind: Kind, journal: Journal): Manifest {
      if kind.Env? then this.(env := journal) else this.(service := journal)
    }
  }

  datatype Disk = Disk(tree: Tree, env: Slot, service: Slot, manifest: Manifest) {
    function SlotOf(kind: Kind): Slot {
      if kind.Env? then env else service
    }

    function WithSlot(kind: Kind, slot: Slot): Disk {
      if kind.Env? then this.(env := slot) else this.(service := slot)
    }
  }

  // ---------- validation of a manifest against the disk ----------

  function CandidateCurrentState(plan: Plan): LinkState {
    Symlink(Spelled(plan.ReleaseDir()))
  }

  predicate PointsToOld(plan: Plan, tree: Tree) {
    && plan.oldRelease.Some?
    && StateOf(tree, Current) == plan.current
    && (|| (plan.current.Symlink? && PointsTo(tree, Current, plan.oldRelease.value))
        || (plan.current.Directory? && Matches(tree, Current, plan.oldRelease.value)))
  }

  predicate OriginalCurrentValid(plan: Plan, tree: Tree) {
    StateOf(tree, Current) == plan.current && (plan.current.NoEntry? || PointsToOld(plan, tree))
  }

  predicate CandidateTargetMissing(plan: Plan, tree: Tree) {
    StateOf(tree, Current) == CandidateCurrentState(plan) && plan.ReleaseDir() !in tree
  }

  predicate CandidateCurrentValid(plan: Plan, tree: Tree, allowMissing: bool) {
    || (StateOf(tree, Current) == CandidateCurrentState(plan) && PointsTo(tree, Current, plan.candidate))
    || (allowMissing && CandidateTargetMissing(plan, tree))
  }

  predicate CurrentValid(plan: Plan, phase: Phase, tree: Tree, allowMissing: bool) {
    match phase
    case Prepared | Guarded => OriginalCurrentValid(plan, tree)
    case Linking | RollingBack =>
      || OriginalCurrentValid(plan, tree)
      || CandidateCurrentValid(plan, tree, allowMissing)
      || Current !in tree
      || CandidateTargetMissing(plan, tree)
    case RolledBack | RollbackHealthy => OriginalCurrentValid(plan, tree)
    case _ => CandidateCurrentValid(plan, tree, allowMissing)
  }

  predicate OriginalPreviousValid(plan: Plan, tree: Tree) {
    && StateOf(tree, Previous) == plan.previous
    && (plan.previousRelease.Some? ==> PointsTo(tree, Previous, plan.previousRelease.value))
  }

  predicate CandidatePreviousValid(plan: Plan, tree: Tree) {
    if plan.oldRelease.None? then OriginalPreviousValid(plan, tree)
    else
      && StateOf(tree, Previous) == Symlink(Spelled(plan.oldRelease.value.target))
      && PointsTo(tree, Previous, plan.oldRelease.value)
  }

  predicate DanglingCandidatePrevious(plan: Plan, phase: Phase, tree: Tree) {
    && phase == RollingBack
    && plan.oldRelease.Some?
    && StateOf(tree, Previous) == Symlink(Spelled(plan.oldRelease.value.target))
    && Matches(tree, plan.oldRelease.value.source, plan.oldRelease.value)
  }

  predicate PreviousValid(plan: Plan, phase: Phase, tree: Tree) {
    && StateOf(tree, Previous) != Directory
    && match phase
       case Prepared | Guarded => OriginalPreviousValid(plan, tree)
       case Linking | RollingBack =>
         || OriginalPreviousValid(plan, tree)
         || CandidatePreviousValid(plan, tree)
         || DanglingCandidatePrevious(plan, phase, tree)
         || Previous !in tree
       case RolledBack | RollbackHealthy => OriginalPreviousValid(plan, tree)
       case _ => CandidatePreviousValid(plan, tree)
  }

  predicate Authorized(kind: Kind, slot: Slot, journal: Journal) {
    match slot.dest
    case None => None in journal.observed
    case Some(file) => Some(file.digest) in journal.observed && file.mode in AllowedModes(kind)
  }

  predicate ConfigValid(kind: Kind, phase: Phase, original: Option<Content>, slot: Slot, journal: Journal) {
    && (slot.dest.Some? ==> SafelyReadable(slot.dest.value))
    && match phase
       case Prepared | Guarded | Linking | Stopping | Stopped | Fencing => ContentOf(slot.dest) == original
       case Linked | Fenced | Authorizing | Authority | RollingBack => Authorized(kind, slot, journal)
       case RolledBack | RollbackHealthy => ContentOf(slot.dest) == original
       case CandidateStarting | CandidateHealthy | Committing | Committed => Published(slot, journal.desired)
  }

  /** `_validate_invocation`: the demand every command makes before it touches anything. */
  predicate Validates(d: Disk, allowMissing: bool) {
    var m := d.manifest;
    var plan := m.plan;
    && (plan.oldRelease.Some? ==> Located(d.tree, plan.oldRelease.value, {}))
    && (allowMissing || Located(d.tree, plan.candidate, {RetiredCandidate, ParkedCandidate}))
    && CurrentValid(plan, m.phase, d.tree, allowMissing)
    && PreviousValid(plan, m.phase, d.tree)
    && ConfigValid(Env, m.phase, plan.env, d.env, m.env)
    && ConfigValid(Service, m.phase, plan.service, d.service, m.service)
  }

  // ---------- durable steps ----------

  datatype World = World(disk: Disk, power: nat)

  /** How a command ends: completed, cut by a power loss, or refused by one of its checks. */
  datatype Outcome = Done(world: World) | Crashed(world: World) | Raised(world: World) {
    predicate IsFailure() { !Done? }

    function PropagateFailure(): Outcome
      requires IsFailure()
    {
      this
    }

    function Extract(): World
      requires !IsFailure()
    {
      world
    }
  }

  /** One durable step: it happens completely, or the machine is down before it. */
  function Durably(w: World, d: Disk): Outcome {
    if w.power == 0 then Crashed(w) else Done(World(d, w.power - 1))
  }

  function Check(condition: bool, w: World): Outcome {
    if condition then Done(w) else Raised(w)
  }

  function Moved(tree: Tree, source: Path, destination: Path): Tree
    requires source in tree
  {
    (tree - {source})[destination := tree[source]]
  }

  function MoveDirectory(w: World, source: Path, destination: Path): Outcome {
    if source !in w.disk.tree || destination in w.disk.tree then Raised(w)
    else Durably(w, w.disk.(tree := Moved(w.disk.tree, source, destination)))
  }

  /** `_replace_symlink`: the temporary link and the rename are one atomic replacement. */
  function ReplaceLink(w: World, path: Path, text: LinkText): Outcome {
    if path in w.disk.tree && w.disk.tree[path].Dir? then Raised(w)
    else Durably(w, w.disk.(tree := w.disk.tree[path := Link(text)]))
  }

  /** Removes a link; anything but a link or nothing is refused. */
  function RemoveLink(w: World, path: Path): Outcome {
    if path !in w.disk.tree then Done(w)
    else if w.disk.tree[path].Dir? then Raised(w)
    else Durably(w, w.disk.(tree := w.disk.tree - {path}))
  }

  // ---------- record ----------

  predicate RollbackPhase(phase: Phase) {
    phase in {RollingBack, RolledBack, RollbackHealthy}
  }

  function Advanced(m: Manifest, phase: Phase): Manifest {
    if phase == m.phase then m
    else if phase == RollingBack then m.(phase := phase, rollbackFrom := Some(m.phase))
    else m.(phase := phase)
  }

  function Record(w: World, phase: Phase): Outcome {
    var allowMissing := RollbackPhase(phase);
    var next := w.disk.(manifest := Advanced(w.disk.manifest, phase));
    var _ :- Check(Validates(w.disk, allowMissing), w);
    var _ :- Check(phase == w.disk.manifest.phase || phase in Transitions(w.disk.manifest.phase), w);
    var _ :- Check(Validates(next, allowMissing), w);
    Durably(w, next)
  }

  // ---------- activate_files ----------

  function QuarantineOld(w: World): Outcome {
    var plan := w.disk.manifest.plan;
    if !plan.OldMoves() then Done(w)
    else if Matches(w.disk.tree, plan.oldRelease.value.source, plan.oldRelease.value) then
      MoveDirectory(w, plan.oldRelease.value.source, plan.oldRelease.value.target)
    else Check(Matches(w.disk.tree, plan.oldRelease.value.target, plan.oldRelease.value), w)
  }

  function InstallCandidate(w: World): Outcome {
    var candidate := w.disk.manifest.plan.candidate;
    if Matches(w.disk.tree, candidate.target, candidate) then Done(w)
    else if !Matches(w.disk.tree, candidate.source, candidate) then Raised(w)
    else MoveDirectory(w, candidate.source, candidate.target)
  }

  function PointPrevious(w: World): Outcome {
    var plan := w.disk.manifest.plan;
    if plan.oldRelease.None? then Done(w)
    else ReplaceLink(w, Previous, Spelled(plan.oldRelease.value.target))
  }

  function PointCurrent(w: World): Outcome {
    ReplaceLink(w, Current, Spelled(w.disk.manifest.plan.ReleaseDir()))
  }

  function ActivationMoves(w: World): Outcome {
    var quarantined :- QuarantineOld(w);
    var installed :- InstallCandidate(quarantined);
    var taken :- PointPrevious(installed);
    PointCurrent(taken)
  }

  function ActivateFiles(w: World): Outcome {
    var _ :- Check(Validates(w.disk, false) && w.disk.manifest.phase == Linking, w);
    var linked :- ActivationMoves(w);
    Check(Matches(linked.disk.tree, linked.disk.manifest.plan.candidate.target, linked.disk.manifest.plan.candidate), linked)
  }

  // ---------- restore_files ----------

  /** Clears the path the rollback release came from. */
  function VacateOldSource(w: World): Outcome {
    var plan := w.disk.manifest.plan;
    var tree := w.disk.tree;
    if plan.oldRelease.None? then Done(w)
    else
      var source := plan.oldRelease.value.source;
      if source !in tree then Done(w)
      else if tree[source].Link? && source == Current then RemoveLink(w, source)
      else if !Matches(tree, source, plan.candidate) then Raised(w)
      else if Matches(tree, ParkedCandidate, plan.candidate) then Done(w)
      else MoveDirectory(w, source, ParkedCandidate)
  }

  function ReturnOld(w: World): Outcome {
    var plan := w.disk.manifest.plan;
    if !plan.OldMoves() || Matches(w.disk.tree, plan.oldRelease.value.source, plan.oldRelease.value) then Done(w)
    else
      var _ :- Check(Matches(w.disk.tree, plan.oldRelease.value.target, plan.oldRelease.value), w);
      var vacated :- VacateOldSource(w);
      MoveDirectory(vacated, plan.oldRelease.value.target, plan.oldRelease.value.source)
  }

  function RestoreCurrent(w: World): Outcome {
    var plan := w.disk.manifest.plan;
    match plan.current
    case Symlink(text) => ReplaceLink(w, Current, text)
    case NoEntry => RemoveLink(w, Current)
    case Directory =>
      if Current in w.disk.tree && w.disk.tree[Current].Dir? then Done(w)
      else
        var removed :- RemoveLink(w, Current);
        if plan.oldRelease.None? then Raised(removed) else MoveDirectory(removed, plan.oldRelease.value.target, Current)
  }

  function RestorePrevious(w: World): Outcome {
    match w.disk.manifest.plan.previous
    case Symlink(text) => ReplaceLink(w, Previous, text)
    case _ => RemoveLink(w, Previous)
  }

  /** Unlinks the staging source; the publication name loses a link when it shares the inode. */
  function WithoutSource(slot: Slot): Slot
    requires slot.source.Some?
  {
    var shared := slot.publication.Some? && slot.publication.value.inode == slot.source.value.inode
                  && slot.publication.value.nlink > 0;
    Slot(slot.dest, None,
         if shared then Some(slot.publication.value.(nlink := slot.publication.value.nlink - 1)) else slot.publication)
  }

  /** What `_cleanup_config_staging` accepts at the source name before it unlinks it. */
  predicate SourceDisposable(slot: Slot, desired: Option<Desired>)
    requires slot.source.Some?
  {
    var file := slot.source.value;
    if desired.None? then file.nlink == 1 && file.mode == MODE_0600
    else
      || IsDesired(file, desired.value)
      || (&& file.nlink == 1
          && file.mode == MODE_0600
          && (slot.publication.Some? ==> IsDesired(slot.publication.value, desired.value)))
  }

  function CleanSource(w: World, kind: Kind): Outcome {
    var slot := w.disk.SlotOf(kind);
    var desired := w.disk.manifest.JournalOf(kind).desired;
    if slot.publication.Some? && !SafelyStaged(slot.publication.value) then Raised(w)
    else if slot.source.None? then Done(w)
    else if !SafelyStaged(slot.source.value) || !SourceDisposable(slot, desired) then Raised(w)
    else Durably(w, w.disk.WithSlot(kind, WithoutSource(slot)))
  }

  function CleanPublication(w: World, kind: Kind): Outcome {
    var slot := w.disk.SlotOf(kind);
    var desired := w.disk.manifest.JournalOf(kind).desired;
    if slot.publication.None? then Done(w)
    else if desired.None? || !IsDesired(slot.publication.value, desired.value) then Raised(w)
    else Durably(w, w.disk.WithSlot(kind, slot.(publication := None)))
  }

  function CleanStaging(w: World, kind: Kind): Outcome {
    var cleared :- CleanSource(w, kind);
    CleanPublication(cleared, kind)
  }

  /** Puts the snapshot of one configuration file back as a file with a new inode. */
  function RestoreConfiguration(w: World, kind: Kind, inode: nat): Outcome {
    var slot := w.disk.SlotOf(kind);
    match w.disk.manifest.plan.Original(kind)
    case None =>
      if slot.dest.None? then Done(w) else Durably(w, w.disk.WithSlot(kind, slot.(dest := None)))
    case Some(content) =>
      Durably(w, w.disk.WithSlot(kind, slot.(dest := Some(File(inode, content.digest, content.mode, 1)))))
  }

  function RestoreMoves(w: World): Outcome {
    var returned :- ReturnOld(w);
    var current :- RestoreCurrent(returned);
    RestorePrevious(current)
  }

  function RestoreConfigs(w: World, envInode: nat, serviceInode: nat): Outcome {
    var envClean :- CleanStaging(w, Env);
    var clean :- CleanStaging(envClean, Service);
    var envBack :- RestoreConfiguration(clean, Env, envInode);
    RestoreConfiguration(envBack, Service, serviceInode)
  }

  function RestoreFiles(w: World, envInode: nat, serviceInode: nat): Outcome {
    var _ :- Check(Validates(w.disk, true) && w.disk.manifest.phase == RollingBack, w);
    var moved :- RestoreMoves(w);
    RestoreConfigs(moved, envInode, serviceInode)
  }

  // ---------- replace_config ----------

  /** The installer creates a draft exclusively: the name is free and the inode is unused. */
  predicate CanDraft(slot: Slot, inode: nat) {
    && slot.source.None?
    && (slot.dest.Some? ==> slot.dest.value.inode != inode)
    && (slot.publication.Some? ==> slot.publication.value.inode != inode)
  }

  function Drafted(d: Disk, kind: Kind, inode: nat, digest: nat): Disk {
    d.WithSlot(kind, d.SlotOf(kind).(source := Some(File(inode, digest, MODE_0600, 1))))
  }

  function DropSharedSource(w: World, kind: Kind): Outcome {
    var slot := w.disk.SlotOf(kind);
    if slot.source.Some? && slot.publication.Some? && slot.source.value.inode == slot.publication.value.inode then
      Durably(w, w.disk.WithSlot(kind, WithoutSource(slot)))
    else Done(w)
  }

  /** `_publish_staged_config`. */
  function Publish(w: World, kind: Kind): Outcome {
    var slot := w.disk.SlotOf(kind);
    var desired := w.disk.manifest.JournalOf(kind).desired;
    if slot.publication.None? || desired.None?
       || !SafelyStaged(slot.publication.value) || !IsDesired(slot.publication.value, desired.value)
    then Raised(w)
    else
      var single :- DropSharedSource(w, kind);
      var staged := single.disk.SlotOf(kind);
      var renamed :- Durably(single, single.disk.WithSlot(kind, Slot(staged.publication, staged.source, None)));
      Check(Published(renamed.disk.SlotOf(kind), desired), renamed)
  }

  function Journaled(journal: Journal, file: File, mode: nat): Journal {
    Journal(Some(Desired(file.digest, mode, file.inode)), journal.observed + {Some(file.digest)})
  }

  function WriteAhead(w: World, kind: Kind, mode: nat): Outcome {
    var slot := w.disk.SlotOf(kind);
    var m := w.disk.manifest;
    if slot.source.None? || !SafelyReadable(slot.source.value) then Raised(w)
    else Durably(w, w.disk.(manifest := m.WithJournal(kind, Journaled(m.JournalOf(kind), slot.source.value, mode))))
  }

  function ChangeMode(w: World, kind: Kind, mode: nat): Outcome {
    var slot := w.disk.SlotOf(kind);
    if slot.source.None? then Raised(w)
    else Durably(w, w.disk.WithSlot(kind, slot.(source := Some(slot.source.value.(mode := mode)))))
  }

  function LinkPublication(w: World, kind: Kind): Outcome {
    var slot := w.disk.SlotOf(kind);
    if slot.source.None? || slot.publication.Some? then Raised(w)
    else
      var shared := Some(slot.source.value.(nlink := slot.source.value.nlink + 1));
      Durably(w, w.disk.WithSlot(kind, Slot(slot.dest, shared, shared)))
  }

  /** Journals the draft, gives it its mode, links it to the publication name and publishes it. */
  function PublishDraft(w: World, kind: Kind, mode: nat): Outcome {
    var journaled :- WriteAhead(w, kind, mode);
    var changed :- ChangeMode(journaled, kind, mode);
    var linked :- LinkPublication(changed, kind);
    Publish(linked, kind)
  }

  function ReplaceConfig(w: World, kind: Kind, mode: nat): Outcome {
    var phase := w.disk.manifest.phase;
    var _ :- Check(Validates(w.disk, false), w);
    var _ :- Check(phase !in {Committing, Committed, RollingBack, RolledBack, RollbackHealthy}, w);
    var _ :- Check(mode in PublishedModes(kind), w);
    var slot := w.disk.SlotOf(kind);
    var desired := w.disk.manifest.JournalOf(kind).desired;
    if slot.source.None? then
      var _ :- Check(desired.Some? && desired.value.mode == mode, w);
      if slot.publication.None? then Check(Published(slot, desired), w) else Publish(w, kind)
    else if slot.publication.Some? then
      var _ :- Check(desired.Some? && desired.value.mode == mode, w);
      Publish(w, kind)
    else PublishDraft(w, kind, mode)
  }
}
