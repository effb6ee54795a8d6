/** Proving, inside one bounded window, which imported rows repeat what is already recorded. */
module HistoryRepair {
  import opened Options
  import opened HistoryRepairModel

  datatype Tables = Tables(
    starts: map<Run, seq<Row>>, ends: map<Run, seq<Row>>,
    marks: map<Run, seq<Marked>>, finishes: map<Run, seq<int>>, rows: multiset<Run>,
    candidates: seq<Candidate>, origins: multiset<(Run, Identity)>,
    deliveries: seq<Candidate>, replays: seq<Imported>, work: Natives)

  /** What the collectors of replays, deliveries and wakes keep of native rows. */
  datatype Natives = Natives(
    opens: map<Run, seq<Row>>, closes: map<Run, seq<Row>>, owners: map<Run, seq<Row>>,
    receipts: map<Run, seq<Row>>, voices: seq<Row>)

  function Found<K, T>(table: map<K, seq<T>>, key: K): seq<T> {
    if key in table then table[key] else []
  }

  function Appended<K, T>(table: map<K, seq<T>>, key: K, value: T): map<K, seq<T>> {
    table[key := Found(table, key) + [value]]
  }

  lemma FoundAfter<K, T>(table: map<K, seq<T>>, place: K, value: T, key: K)
    ensures Found(Appended(table, place, value), key) == Found(table, key) + if key == place then [value] else []
  {
  }

  ghost function OriginsOf(candidates: seq<Candidate>, run: Run, identity: Identity): set<int> {
    set i | 0 <= i < |candidates| && candidates[i].target.run == run && candidates[i].identity == identity
  }

  // ---------- what the tables say of the first rows ----------

  ghost predicate Scheduling(window: seq<Row>, n: nat, t: Tables)
    requires n <= |window|
  {
    && (forall run :: Found(t.starts, run) == StartsOf(window, n, run))
    && (forall run :: Found(t.ends, run) == EndsOf(window, n, run))
  }

  ghost predicate Batches(window: seq<Row>, n: nat, t: Tables)
    requires n <= |window|
  {
    && (forall run :: Found(t.marks, run) == MarksOf(window, n, run))
    && (forall run :: Found(t.finishes, run) == FinishesOf(window, n, run))
  }

  ghost predicate Counted(window: seq<Row>, n: nat, t: Tables)
    requires n <= |window|
  {
    forall run :: t.rows[run] == |RowsOf(window, n, run)|
  }

  ghost predicate Listed(window: seq<Row>, n: nat, t: Tables)
    requires n <= |window|
  {
    && t.candidates == CandidatesOf(window, n) && t.deliveries == DeliveriesOf(window, n) && t.replays == ReplaysOf(window, n)
    && (forall run, identity :: t.origins[(run, identity)] == |OriginsOf(t.candidates, run, identity)|)
  }

  ghost predicate Working(window: seq<Row>, n: nat, w: Natives)
    requires n <= |window|
  {
    && (forall run :: Found(w.opens, run) == OpensOf(window, n, run))
    && (forall run :: Found(w.closes, run) == ClosesOf(window, n, run))
    && (forall run :: Found(w.owners, run) == OwnersOf(window, n, run))
    && (forall run :: Found(w.receipts, run) == ReceiptsOf(window, n, run))
    && w.voices == VoicesOf(window, n)
  }

  ghost predicate Reflects(window: seq<Row>, n: nat, t: Tables)
    requires n <= |window|
  {
    Working(window, n, t.work) && Scheduling(window, n, t) && Batches(window, n, t) && Counted(window, n, t) && Listed(window, n, t)
  }

  /** One more row went into every table it belongs to, and into no other. */
  ghost predicate NotesNatives(t: Tables, row: Row, after: Tables) {
    && (forall run :: Found(after.starts, run) == Found(t.starts, run) + StartIn(row, run))
    && (forall run :: Found(after.ends, run) == Found(t.ends, run) + EndIn(row, run))
  }

  ghost predicate NotesWork(w: Natives, row: Row, after: Natives) {
    && (forall run :: Found(after.opens, run) == Found(w.opens, run) + OpenIn(row, run))
    && (forall run :: Found(after.closes, run) == Found(w.closes, run) + CloseIn(row, run))
    && (forall run :: Found(after.owners, run) == Found(w.owners, run) + OwnerIn(row, run))
    && (forall run :: Found(after.receipts, run) == Found(w.receipts, run) + ReceiptIn(row, run))
    && after.voices == w.voices + VoiceIn(row)
  }

  ghost predicate NotesBatches(t: Tables, row: Row, after: Tables) {
    && (forall run :: Found(after.marks, run) == Found(t.marks, run) + MarkIn(row, run))
    && (forall run :: Found(after.finishes, run) == Found(t.finishes, run) + FinishIn(row, run))
    && (forall run :: after.rows[run] == t.rows[run] + if InRun(row, run) then 1 else 0)
  }

  function OriginIn(row: Row): multiset<(Run, Identity)> {
    if CandidateIn(row) == [] then multiset{} else multiset{(row.run, CandidateIn(row)[0].identity)}
  }

  ghost predicate NotesLists(t: Tables, row: Row, after: Tables) {
    && after.candidates == t.candidates + CandidateIn(row) && after.deliveries == t.deliveries + DeliveryIn(row)
    && after.replays == t.replays + ReplayIn(row)
    && after.origins == t.origins + OriginIn(row)
  }

  ghost predicate Notes(t: Tables, row: Row, after: Tables) {
    && NotesNatives(t, row, after) && NotesBatches(t, row, after) && NotesLists(t, row, after)
    && NotesWork(t.work, row, after.work)
  }

  lemma NotedNatives(window: seq<Row>, n: nat, t: Tables, after: Tables)
    requires n < |window| && Scheduling(window, n, t) && NotesNatives(t, window[n], after)
    ensures Scheduling(window, n + 1, after)
  {
  }

  lemma NotedWork(window: seq<Row>, n: nat, w: Natives, after: Natives)
    requires n < |window| && Working(window, n, w) && NotesWork(w, window[n], after)
    ensures Working(window, n + 1, after)
  {
  }

  lemma NotedBatches(window: seq<Row>, n: nat, t: Tables, after: Tables)
    requires n < |window| && Batches(window, n, t) && NotesBatches(t, window[n], after)
    ensures Batches(window, n + 1, after)
  {
  }

  lemma NotedRows(window: seq<Row>, n: nat, t: Tables, after: Tables)
    requires n < |window| && Increasing(window, n + 1) && Counted(window, n, t) && NotesBatches(t, window[n], after)
    ensures Counted(window, n + 1, after)
  {
    forall run ensures after.rows[run] == |RowsOf(window, n + 1, run)| {
      var number := window[n].number;
      var one := if InRun(window[n], run) then {number} else {};
      assert RowsOf(window, n + 1, run) == RowsOf(window, n, run) + one;
    }
  }

  lemma OriginsGrow(candidates: seq<Candidate>, more: seq<Candidate>, run: Run, identity: Identity)
    requires |more| <= 1
    ensures |OriginsOf(candidates + more, run, identity)|
         == |OriginsOf(candidates, run, identity)| + if |more| == 1 && Claims(more[0], run, identity) then 1 else 0
  {
    var one: set<int> := if |more| == 1 && Claims(more[0], run, identity) then {|candidates|} else {};
    assert OriginsOf(candidates + more, run, identity) == OriginsOf(candidates, run, identity) + one;
  }

  lemma NotedLists(window: seq<Row>, n: nat, t: Tables, after: Tables)
    requires n < |window| && Listed(window, n, t) && NotesLists(t, window[n], after)
    ensures Listed(window, n + 1, after)
  {
    forall run, identity ensures after.origins[(run, identity)] == |OriginsOf(after.candidates, run, identity)| {
      OriginsGrow(t.candidates, CandidateIn(window[n]), run, identity);
    }
  }

  lemma NotedAll(window: seq<Row>, n: nat, t: Tables, after: Tables)
    requires n < |window| && Increasing(window, n + 1) && Reflects(window, n, t)
    requires Notes(t, window[n], after)
    ensures Reflects(window, n + 1, after)
  {
    NotedWork(window, n, t.work, after.work);
    NotedNatives(window, n, t, after);
    NotedBatches(window, n, t, after);
    NotedRows(window, n, t, after);
    NotedLists(window, n, t, after);
  }

  // ---------- reading the window ----------

  function Names(counts: multiset<Run>): set<Run> {
    set run | run in counts
  }

  predicate Overfull(t: Tables) {
    || |t.starts| + |t.ends| + |t.marks| + |t.finishes| + |Names(t.rows)| > MAX_TARGETS
    || |t.candidates| > MAX_TARGETS
    || |t.work.opens| + |t.work.closes| + |t.work.owners| + |t.work.voices| + |t.replays| > MAX_TARGETS
    || |t.work.receipts| + |t.deliveries| > MAX_TARGETS
  }

  method NoteNative(t: Tables, row: Row) returns (after: Tables)
    ensures NotesNatives(t, row, after)
    ensures after == t.(starts := after.starts, ends := after.ends)
  {
    after := t;
    if row.ours && row.run.Native? && row.claude && !row.imported && row.provider {
      if row.kind.TurnStarted? && row.job.Some? {
        after := after.(starts := Appended(t.starts, row.run, row));
      } else if row.kind.TurnFinished? {
        after := after.(ends := Appended(t.ends, row.run, row));
      }
    }
  }

  method NoteBatch(t: Tables, row: Row) returns (after: Tables)
    ensures NotesBatches(t, row, after)
    ensures after == t.(rows := after.rows, marks := after.marks, finishes := after.finishes)
  {
    after := t;
    if row.ours && row.run.Import? {
      after := t.(rows := t.rows + multiset{row.run});
      if row.kind.HistoryImported? {
        if row.claude && row.checkpoint.Some? {
          after := after.(marks := Appended(t.marks, row.run, Marked(row.number, row.checkpoint.value)));
        }
      } else if row.kind.TurnFinished? && row.imported && row.claude {
        after := after.(finishes := Appended(t.finishes, row.run, row.number));
      }
    }
  }

  method NoteLists(t: Tables, row: Row) returns (after: Tables)
    ensures NotesLists(t, row, after)
    ensures after == t.(candidates := after.candidates, origins := after.origins, deliveries := after.deliveries, replays := after.replays)
  {
    after := t;
    if row.ours && AssistantTarget(row).Some? {
      after := after.(replays := t.replays + [Imported(AssistantTarget(row).value, row.phase)]);
    }
    if row.ours && InputTarget(row).Some? && row.identity.Some? {
      var candidate := Candidate(InputTarget(row).value, row.identity.value);
      if row.originFits && !row.authored {
        after := after.(deliveries := t.deliveries + [candidate]);
      }
      after := after.(candidates := t.candidates + [candidate], origins := t.origins + multiset{(row.run, candidate.identity)});
    }
  }

  /** A row of a native run, for the collectors that look at any provider session. */
  method NoteSpoken(w: Natives, row: Row) returns (after: Natives)
    requires Speaks(row)
    ensures after == w.(opens := after.opens, closes := after.closes, owners := after.owners, voices := after.voices)
    ensures forall run :: Found(after.opens, run) == Found(w.opens, run) + OpenIn(row, run)
    ensures forall run :: Found(after.closes, run) == Found(w.closes, run) + CloseIn(row, run)
    ensures forall run :: Found(after.owners, run) == Found(w.owners, run) + OwnerIn(row, run)
    ensures after.voices == w.voices + VoiceIn(row)
  {
    after := w;
    if row.kind.TurnStarted? {
      after := w.(opens := Appended(w.opens, row.run, row));
    } else if row.kind.TurnFinished? {
      after := w.(closes := Appended(w.closes, row.run, row));
    } else if row.kind.ProviderSession? {
      after := w.(owners := Appended(w.owners, row.run, row));
    } else if VoiceIn(row) != [] {
      after := w.(voices := w.voices + [row]);
    }
  }

  method NoteWork(w: Natives, row: Row) returns (after: Natives)
    ensures NotesWork(w, row, after)
  {
    after := w;
    if Speaks(row) {
      after := NoteSpoken(w, row);
    }
    if row.ours && row.kind.ConversationStarted? && row.work.delivery.Some? && row.work.target.Native? {
      after := after.(receipts := Appended(after.receipts, row.work.target, row));
    }
  }

  method Note(t: Tables, row: Row) returns (after: Tables)
    ensures Notes(t, row, after)
  {
    var natives := NoteNative(t, row);
    var batches := NoteBatch(t, row);
    var lists := NoteLists(t, row);
    var work := NoteWork(t.work, row);
    after := Tables(natives.starts, natives.ends, batches.marks, batches.finishes, batches.rows,
                    lists.candidates, lists.origins, lists.deliveries, lists.replays, work);
  }

  /** One more row; nothing when its number does not rise, or when there is now too much to hold. */
  method NoteNext(t: Tables, window: seq<Row>, n: nat, previous: int) returns (next: Option<Tables>)
    requires n < |window| && Gathered(window, n, t) && previous == PreviousNumber(window, n)
    ensures next.Some? ==> Gathered(window, n + 1, next.value)
  {
    var row := window[n];
    if row.number <= previous {
      return None;
    }
    OneMoreRises(window, n);
    var after := Note(t, row);
    NotedAll(window, n, t, after);
    next := if Overfull(after) then None else Some(after);
  }

  function PreviousNumber(window: seq<Row>, n: nat): int
    requires n <= |window|
  {
    if n == 0 then 0 else window[n - 1].number
  }

  ghost predicate Gathered(window: seq<Row>, n: nat, t: Tables)
    requires n <= |window|
  {
    Increasing(window, n) && Reflects(window, n, t) && !Overfull(t)
  }

  const NO_TABLES: Tables :=
    Tables(map[], map[], map[], map[], multiset{}, [], multiset{}, [], [], Natives(map[], map[], map[], map[], []))

  lemma NothingYet(window: seq<Row>)
    ensures Reflects(window, 0, NO_TABLES) && !Overfull(NO_TABLES)
  {
    assert Names(NO_TABLES.rows) == {};
  }

  lemma OneMoreRises(window: seq<Row>, n: nat)
    requires n < |window| && Increasing(window, n)
    requires window[n].number > PreviousNumber(window, n)
    ensures Increasing(window, n + 1)
  {
  }

  /** The rows of one window, or nothing when their numbers do not rise or there are too many of them. */
  method Gather(window: seq<Row>) returns (tables: Option<Tables>)
    ensures tables.Some? ==> Increasing(window, |window|) && Reflects(window, |window|, tables.value) && !Overfull(tables.value)
    ensures !Increasing(window, |window|) ==> tables.None?
  {
    tables := Some(NO_TABLES);
    NothingYet(window);
    var previous := 0;
    var n := 0;
    while n < |window| && tables.Some?
      invariant n <= |window| && previous == PreviousNumber(window, n)
      invariant tables.Some? ==> Gathered(window, n, tables.value)
    {
      tables := NoteNext(tables.value, window, n, previous);
      previous := window[n].number;
      n := n + 1;
    }
  }
}
