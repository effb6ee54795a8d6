/** Imported Claude history: what an event window and a transcript say about an import batch. */
module HistoryRepairModel {
  import opened Options

  const MAX_TARGETS: nat := 4000
  const MAX_KEYS: nat := 20000

  /** Texts and digests enter only through equality, so a number stands for each. */
  type Text = nat

  /** Runs created by an import carry a name prefix of their own. */
  datatype Run = NoRun | Import(name: Text) | Native(name: Text)

  /** The event id, session id and timestamp text a provider origin carries, and the time the text reads as. */
  datatype Identity = Identity(event: Text, session: Text, stamp: Text, time: Option<int>)

  datatype Target = Target(number: int, run: Run, key: Text)

  datatype Replay = Replay(kind: Kind, number: int, run: Run, key: Text, identity: Identity)

  /** An imported output and the phase it was recorded with. */
  datatype Imported = Imported(replay: Replay, phase: Phase)

  datatype Companion = Companion(kind: Kind, number: int, run: Run)

  datatype Kind =
    | TurnStarted | TurnFinished | HistoryImported | AssistantText | ReasoningSummary
    | ProviderSession | ConversationStarted | OtherKind

  datatype Phase = NoPhase | Commentary | FinalAnswer | OtherPhase

  datatype Stamp = Stamp(dev: int, ino: int, size: int, mtime: int)

  /** `sound` says that the recorded digests are well formed for this pair of offsets. */
  datatype Checkpoint = Checkpoint(start: int, end: int, sound: bool, path: Text, dev: int, ino: int)

  /** What a delivery is said to carry, and what a transcript wrapper is found to carry. */
  datatype Wrapper = Wrapper(title: Text, body: Text, length: int)

  /** What a native row says of the work it belongs to.  `delivery` and `wake` are present when the row carries a
      complete identity of that kind; `receipt` when it grants a configured route, is running, and names its body. */
  datatype Work = Work(
    scheduled: bool, jobId: Option<Text>, handoff: bool, delivery: Option<Text>, wake: Option<Text>,
    queued: Text, receipt: Option<Wrapper>, target: Run, completed: bool, result: Option<Text>)

  /** One line of the event log.  A missing or malformed number is 0.  `provider`: no other provider session is named;
      `named`: this one is.  `key` is the digest of the prompt, or of the stripped text of an output; `display` that of
      the displayed text; `originFits`: the origin's kind is absent or the one the row calls for; `job` that of a scheduled prompt with its blanks normalised.  `identity` is present when the
      origin names this provider session with a readable timestamp, `checkpoint` when the import names it too. */
  datatype Row = Row(
    number: int, ours: bool, run: Run, kind: Kind, claude: bool, imported: bool, provider: bool, named: bool,
    key: Option<Text>, display: Option<Text>, identity: Option<Identity>, authored: bool, originFits: bool,
    job: Option<Text>, time: Option<int>, fractional: bool, phase: Phase, message: Option<Text>,
    checkpoint: Option<Checkpoint>, work: Work)

  /** One transcript record, `user` when it is a user record of this provider session.  `full` and `raw` are digests
      of its full text, with and without its blanks normalised. */
  datatype Record = Record(
    user: bool, identity: Option<Identity>, display: Option<Text>, full: Option<Text>, raw: Option<Text>,
    wrapper: Option<Wrapper>, meta: bool, labelled: bool, authored: bool, offset: int)

  /** One assistant record; `key` is the digest of its public text, when it has any, and `display` that of the
      displayed form. */
  datatype Output = Output(identity: Identity, key: Option<Text>, display: Option<Text>, offset: int)

  /** What the bounded read of a transcript gives. */
  datatype File = File(stamp: Stamp, records: seq<Record>, outputs: seq<Output>)

  datatype Candidate = Candidate(target: Target, identity: Identity)

  /** A transcript record, by its place, attributed to one native run. */
  datatype Credit = Credit(run: Run, place: nat, identity: Identity, key: Text, offset: int)

  datatype Marked = Marked(number: int, checkpoint: Checkpoint)

  datatype Batch = Batch(first: int, last: int, checkpoint: Checkpoint)

  function InputTarget(row: Row): Option<Target> {
    if row.kind.TurnStarted? && row.imported && row.claude && row.number > 0 && row.run.Import? && row.key.Some?
    then Some(Target(row.number, row.run, row.key.value))
    else None
  }

  function AssistantTarget(row: Row): Option<Replay> {
    if && (row.kind.AssistantText? || row.kind.ReasoningSummary?) && row.imported && row.claude && row.number > 0
       && row.run.Import? && row.key.Some? && row.identity.Some? && row.identity.value.time.Some? && row.originFits && !row.authored
    then Some(Replay(row.kind, row.number, row.run, row.key.value, row.identity.value))
    else None
  }

  // ---------- what a window holds ----------

  ghost predicate Increasing(window: seq<Row>, n: nat)
    requires n <= |window|
  {
    && (forall i :: 0 <= i < n ==> window[i].number > 0)
    && (forall i, j :: 0 <= i < j < n ==> window[i].number < window[j].number)
  }

  predicate InRun(row: Row, run: Run) {
    row.ours && row.run.Import? && row.run == run
  }

  /** The numbers of a batch's rows among the first `n` of the window. */
  ghost function RowsOf(window: seq<Row>, n: nat, run: Run): set<int>
    requires n <= |window|
  {
    set i | 0 <= i < n && InRun(window[i], run) :: window[i].number
  }

  function MarkIn(row: Row, run: Run): seq<Marked> {
    if InRun(row, run) && row.kind.HistoryImported? && row.claude && row.checkpoint.Some?
    then [Marked(row.number, row.checkpoint.value)] else []
  }

  function MarksOf(window: seq<Row>, n: nat, run: Run): seq<Marked>
    requires n <= |window|
  {
    if n == 0 then [] else MarksOf(window, n - 1, run) + MarkIn(window[n - 1], run)
  }

  function FinishIn(row: Row, run: Run): seq<int> {
    if InRun(row, run) && row.kind.TurnFinished? && row.imported && row.claude then [row.number] else []
  }

  function FinishesOf(window: seq<Row>, n: nat, run: Run): seq<int>
    requires n <= |window|
  {
    if n == 0 then [] else FinishesOf(window, n - 1, run) + FinishIn(window[n - 1], run)
  }

  function CandidateIn(row: Row): seq<Candidate> {
    if row.ours && InputTarget(row).Some? && row.identity.Some?
    then [Candidate(InputTarget(row).value, row.identity.value)] else []
  }

  function CandidatesOf(window: seq<Row>, n: nat): seq<Candidate>
    requires n <= |window|
  {
    if n == 0 then [] else CandidatesOf(window, n - 1) + CandidateIn(window[n - 1])
  }

  /** The candidates of the delivery and wake proofs bear no sign of a user's own authorship. */
  function DeliveryIn(row: Row): seq<Candidate> {
    if row.originFits && !row.authored then CandidateIn(row) else []
  }

  function DeliveriesOf(window: seq<Row>, n: nat): seq<Candidate>
    requires n <= |window|
  {
    if n == 0 then [] else DeliveriesOf(window, n - 1) + DeliveryIn(window[n - 1])
  }

  function ReplayIn(row: Row): seq<Imported> {
    if row.ours && AssistantTarget(row).Some? then [Imported(AssistantTarget(row).value, row.phase)] else []
  }

  function ReplaysOf(window: seq<Row>, n: nat): seq<Imported>
    requires n <= |window|
  {
    if n == 0 then [] else ReplaysOf(window, n - 1) + ReplayIn(window[n - 1])
  }

  /** Exactly one checkpoint before exactly one finish, over a readable stretch of the current transcript. */
  function BatchFrom(marks: seq<Marked>, finishes: seq<int>): Option<Batch> {
    if && |marks| == 1 && |finishes| == 1 && marks[0].checkpoint.sound
       && 0 <= marks[0].checkpoint.start < marks[0].checkpoint.end && marks[0].number < finishes[0]
    then Some(Batch(marks[0].number, finishes[0], marks[0].checkpoint))
    else None
  }

  function BatchOf(window: seq<Row>, run: Run): Option<Batch> {
    BatchFrom(MarksOf(window, |window|, run), FinishesOf(window, |window|, run))
  }

  predicate Readable(batch: Batch, source: Stamp) {
    && batch.checkpoint.dev == source.dev && batch.checkpoint.ino == source.ino
    && batch.checkpoint.end <= source.size
  }

  predicate Covers(batch: Batch, number: int, offset: int) {
    batch.first < number < batch.last && batch.checkpoint.start < offset <= batch.checkpoint.end
  }

  // ---------- native scheduled runs ----------

  predicate IsNative(row: Row) {
    row.ours && row.run.Native? && row.claude && !row.imported && row.provider
  }

  function StartIn(row: Row, run: Run): seq<Row> {
    if IsNative(row) && row.run == run && row.kind.TurnStarted? && row.job.Some? then [row] else []
  }

  function StartsOf(window: seq<Row>, n: nat, run: Run): seq<Row>
    requires n <= |window|
  {
    if n == 0 then [] else StartsOf(window, n - 1, run) + StartIn(window[n - 1], run)
  }

  function EndIn(row: Row, run: Run): seq<Row> {
    if IsNative(row) && row.run == run && row.kind.TurnFinished? then [row] else []
  }

  function EndsOf(window: seq<Row>, n: nat, run: Run): seq<Row>
    requires n <= |window|
  {
    if n == 0 then [] else EndsOf(window, n - 1, run) + EndIn(window[n - 1], run)
  }

  /** The run started once and finished once, and lasted over this moment. */
  predicate Lasted(starts: seq<Row>, ends: seq<Row>, key: Text, time: int) {
    && |starts| == 1 && |ends| == 1 && starts[0].job == Some(key) && starts[0].time.Some? && ends[0].time.Some?
    && starts[0].time.value <= time <= ends[0].time.value
  }

  ghost predicate IsOccurrence(window: seq<Row>, run: Run, key: Text, time: int) {
    Lasted(StartsOf(window, |window|, run), EndsOf(window, |window|, run), key, time)
  }

  /** The record is the full prompt of exactly one scheduled run, at a moment inside it. */
  ghost predicate Attributed(window: seq<Row>, record: Record, run: Run) {
    && Displayed(record) && !record.meta && record.full.Some?
    && IsOccurrence(window, run, record.full.value, TimeOf(record))
    && (forall other :: IsOccurrence(window, other, record.full.value, TimeOf(record)) ==> other == run)
  }

  predicate Displayed(record: Record) {
    record.user && record.identity.Some? && record.display.Some? && record.identity.value.time.Some?
  }

  function TimeOf(record: Record): int
    requires Displayed(record)
  {
    record.identity.value.time.value
  }

  // ---------- native rows of any provider session ----------

  /** The whole second a time in microseconds falls into. */
  function Second(time: int): int {
    time / 1_000_000
  }

  predicate Speaks(row: Row) {
    row.ours && row.run.Native? && row.claude && !row.imported
  }

  function OpenIn(row: Row, run: Run): seq<Row> {
    if Speaks(row) && row.run == run && row.kind.TurnStarted? then [row] else []
  }

  function OpensOf(window: seq<Row>, n: nat, run: Run): seq<Row>
    requires n <= |window|
  {
    if n == 0 then [] else OpensOf(window, n - 1, run) + OpenIn(window[n - 1], run)
  }

  function CloseIn(row: Row, run: Run): seq<Row> {
    if Speaks(row) && row.run == run && row.kind.TurnFinished? then [row] else []
  }

  function ClosesOf(window: seq<Row>, n: nat, run: Run): seq<Row>
    requires n <= |window|
  {
    if n == 0 then [] else ClosesOf(window, n - 1, run) + CloseIn(window[n - 1], run)
  }

  function OwnerIn(row: Row, run: Run): seq<Row> {
    if Speaks(row) && row.run == run && row.kind.ProviderSession? then [row] else []
  }

  function OwnersOf(window: seq<Row>, n: nat, run: Run): seq<Row>
    requires n <= |window|
  {
    if n == 0 then [] else OwnersOf(window, n - 1, run) + OwnerIn(window[n - 1], run)
  }

  function ReceiptIn(row: Row, run: Run): seq<Row> {
    if row.ours && row.kind.ConversationStarted? && row.work.delivery.Some? && run.Native? && row.work.target == run then [row] else []
  }

  function ReceiptsOf(window: seq<Row>, n: nat, run: Run): seq<Row>
    requires n <= |window|
  {
    if n == 0 then [] else ReceiptsOf(window, n - 1, run) + ReceiptIn(window[n - 1], run)
  }

  /** A public output of a native run. */
  function VoiceIn(row: Row): seq<Row> {
    if && Speaks(row) && row.key.Some? && (row.kind.AssistantText? || row.kind.ReasoningSummary?)
       && (row.phase.Commentary? || row.phase.FinalAnswer? || (row.kind.AssistantText? && row.phase.NoPhase?))
    then [row] else []
  }

  function VoicesOf(window: seq<Row>, n: nat): seq<Row>
    requires n <= |window|
  {
    if n == 0 then [] else VoicesOf(window, n - 1) + VoiceIn(window[n - 1])
  }

  /** This provider session is named, and no other is. */
  predicate OneProvider(rows: seq<Row>) {
    (forall i | 0 <= i < |rows| :: rows[i].provider) && exists i | 0 <= i < |rows| :: rows[i].named
  }

  predicate OwnersWithin(owners: seq<Row>, start: Row, end: Row) {
    forall i | 0 <= i < |owners| :: start.number <= owners[i].number <= end.number
  }

  // ---------- when an input is proven ----------

  predicate Claims(candidate: Candidate, run: Run, identity: Identity) {
    candidate.target.run == run && candidate.identity == identity
  }

  predicate OnlyCandidate(candidates: seq<Candidate>, run: Run, identity: Identity) {
    forall i, j | 0 <= i < |candidates| && 0 <= j < |candidates| ::
      Claims(candidates[i], run, identity) && Claims(candidates[j], run, identity) ==> i == j
  }

  /** Record `k` is the only user record with its identity, and carries the candidate's display digest. */
  ghost predicate SourceIs(records: seq<Record>, candidate: Candidate, k: nat) {
    && k < |records| && Displayed(records[k]) && records[k].identity == Some(candidate.identity)
    && records[k].display == Some(candidate.target.key)
    && (forall j :: 0 <= j < |records| && records[j].user && records[j].identity == Some(candidate.identity) ==> j == k)
  }

  /** Record `k` alone is attributed to a scheduled run. */
  ghost predicate Scheduled(window: seq<Row>, records: seq<Record>, k: nat)
    requires k < |records|
  {
    exists run ::
      && Attributed(window, records[k], run)
      && (forall j :: 0 <= j < |records| && Attributed(window, records[j], run) ==> j == k)
  }

  ghost predicate ProvenBy(window: seq<Row>, records: seq<Record>, candidate: Candidate, batch: Batch, k: nat) {
    && SourceIs(records, candidate, k)
    && Covers(batch, candidate.target.number, records[k].offset)
    && (records[k].meta || Scheduled(window, records, k))
  }

  // ---------- what a proof holds ----------

  datatype Proof = Proof(provider: Text, events: Stamp, source: Option<Text>, sourceStamp: Option<Stamp>,
                         targets: set<Target>, interruptions: map<Target, Text>,
                         companions: set<Companion>, replays: set<Replay>)

  function EmptyProof(provider: Text, events: Stamp): Proof {
    Proof(provider, events, None, None, {}, map[], {}, {})
  }

  /** The row repeats what is recorded elsewhere, and is hidden or blanked. */
  predicate Repeated(targets: set<Target>, replays: set<Replay>, row: Row) {
    || (InputTarget(row).Some? && InputTarget(row).value in targets)
    || (AssistantTarget(row).Some? && AssistantTarget(row).value in replays)
  }

  /** The row marks an import's beginning or end and is shown as metadata only. */
  predicate Accompanies(companions: set<Companion>, row: Row) {
    && row.ours && row.claude && row.provider
    && (row.kind.HistoryImported? || (row.kind.TurnFinished? && row.imported))
    && Companion(row.kind, row.number, row.run) in companions
  }

  predicate Neutralised(proof: Proof, row: Row) {
    (row.ours && Repeated(proof.targets, proof.replays, row)) || Accompanies(proof.companions, row)
  }
}
