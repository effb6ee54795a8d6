/** A run of two requests that leaves a batch with one mark: two windows of one log, each of 1001 batches with one
    repair each, in which all beginnings precede all repairs and all repairs precede all ends. */
module HistoryRepairParted {
  import opened Options
  import opened HistoryRepairModel
  import opened HistoryRepairCache
  import opened HistoryRepairRuns
  import opened HistoryRepairPairs
  import B = HistoryRepairBatches
  import P = HistoryRepairProof

  const EACH: nat := 1001
  const MARKS: nat := 4 * EACH

  // ---------- the log and the transcript ----------

  const NO_WORK: Work := Work(false, None, false, None, None, 0, None, NoRun, false, None)
  const CURSOR: Checkpoint := Checkpoint(0, 9, true, 0, 0, 1)

  function Name(k: nat): Identity {
    Identity(k, 0, 0, Some(0))
  }

  /** Row `i` of the first or of the second window, whose batches are numbered from `base`. */
  function RowAt(base: nat, i: nat): Row
    requires i < 3 * EACH
  {
    var blank := Row(3 * base + i + 1, true, NoRun, OtherKind, true, true, true, true, None, None, None, true, false,
                     None, None, false, NoPhase, None, None, NO_WORK);
    if i < EACH then blank.(run := Import(base + i), kind := HistoryImported, checkpoint := Some(CURSOR))
    else if i < 2 * EACH then
      blank.(run := Import(base + i - EACH), kind := TurnStarted, key := Some(base + i - EACH), identity := Some(Name(base + i - EACH)))
    else blank.(run := Import(base + i - 2 * EACH), kind := TurnFinished)
  }

  function Window(base: nat): seq<Row> {
    seq(3 * EACH, i requires 0 <= i < 3 * EACH => RowAt(base, i))
  }

  function RecordAt(k: nat): Record {
    Record(true, Some(Name(k)), Some(k), None, None, None, true, false, false, 1)
  }

  function Transcript(): File {
    File(Stamp(0, 1, 9, 0), seq(2 * EACH, k requires 0 <= k < 2 * EACH => RecordAt(k)), [])
  }

  // ---------- what each window holds ----------

  predicate Ours(base: nat, run: Run) {
    run.Import? && base <= run.name < base + EACH
  }

  lemma OnlyBeginningMarks(base: nat, i: nat, run: Run)
    requires i < 3 * EACH
    ensures MarkIn(Window(base)[i], run)
         == if i < EACH && run == Import(base + i) then [Marked(3 * base + i + 1, CURSOR)] else []
  {
    assert Window(base)[i] == RowAt(base, i);
  }

  lemma OnlyEndFinishes(base: nat, i: nat, run: Run)
    requires i < 3 * EACH
    ensures FinishIn(Window(base)[i], run)
         == if 2 * EACH <= i && run == Import(base + i - 2 * EACH) then [3 * base + i + 1] else []
  {
    assert Window(base)[i] == RowAt(base, i);
  }

  lemma OnlyRepairIsCandidate(base: nat, i: nat)
    requires i < 3 * EACH
    ensures CandidateIn(Window(base)[i]) == if EACH <= i < 2 * EACH then [CandidateAt(base, base + i - EACH)] else []
  {
    assert Window(base)[i] == RowAt(base, i);
  }

  lemma MarksGrow(window: seq<Row>, n: nat, run: Run)
    requires 0 < n <= |window|
    ensures MarksOf(window, n, run) == MarksOf(window, n - 1, run) + MarkIn(window[n - 1], run)
  {
  }

  lemma FinishesGrow(window: seq<Row>, n: nat, run: Run)
    requires 0 < n <= |window|
    ensures FinishesOf(window, n, run) == FinishesOf(window, n - 1, run) + FinishIn(window[n - 1], run)
  {
  }

  lemma {:induction false} MarksAre(base: nat, n: nat, run: Run)
    requires n <= 3 * EACH
    ensures MarksOf(Window(base), n, run)
         == if Ours(base, run) && run.name < base + n then [Marked(3 * base + run.name - base + 1, CURSOR)] else []
  {
    if n > 0 {
      MarksAre(base, n - 1, run);
      OnlyBeginningMarks(base, n - 1, run);
      MarksGrow(Window(base), n, run);
    }
  }

  lemma {:induction false} FinishesAre(base: nat, n: nat, run: Run)
    requires n <= 3 * EACH
    ensures FinishesOf(Window(base), n, run)
         == if Ours(base, run) && run.name + 2 * EACH < base + n then [3 * base + 2 * EACH + run.name - base + 1] else []
  {
    if n > 0 {
      FinishesAre(base, n - 1, run);
      OnlyEndFinishes(base, n - 1, run);
      FinishesGrow(Window(base), n, run);
    }
  }

  function BatchAt(base: nat, k: nat): Batch
    requires base <= k < base + EACH
  {
    Batch(3 * base + k - base + 1, 3 * base + 2 * EACH + k - base + 1, CURSOR)
  }

  lemma BatchesAre(base: nat, run: Run)
    ensures BatchOf(Window(base), run) == if Ours(base, run) then Some(BatchAt(base, run.name)) else None
  {
    MarksAre(base, 3 * EACH, run);
    FinishesAre(base, 3 * EACH, run);
  }

  function RepairAt(base: nat, k: nat): Target {
    Target(3 * base + EACH + k - base + 1, Import(k), k)
  }

  function CandidateAt(base: nat, k: nat): Candidate {
    Candidate(RepairAt(base, k), Name(k))
  }

  function Clamp(n: nat): nat {
    if n <= EACH then 0 else if n <= 2 * EACH then n - EACH else EACH
  }

  lemma {:induction false} CandidatesAre(base: nat, n: nat)
    requires n <= 3 * EACH
    ensures |CandidatesOf(Window(base), n)| == Clamp(n)
    ensures forall j :: 0 <= j < Clamp(n) ==> CandidatesOf(Window(base), n)[j] == CandidateAt(base, base + j)
  {
    if n > 0 {
      CandidatesAre(base, n - 1);
      OnlyRepairIsCandidate(base, n - 1);
    }
  }

  lemma {:induction false} NothingElse(base: nat, n: nat)
    requires n <= 3 * EACH
    ensures DeliveriesOf(Window(base), n) == [] && ReplaysOf(Window(base), n) == []
  {
    if n > 0 {
      NothingElse(base, n - 1);
    }
  }

  // ---------- what is proven over it ----------

  ghost function Repairs(base: nat): set<Target> {
    set k: nat | base <= k < base + EACH :: RepairAt(base, k)
  }

  ghost function Beginnings(base: nat): set<Companion> {
    set k: nat | base <= k < base + EACH :: Companion(HistoryImported, BatchAt(base, k).first, Import(k))
  }

  ghost function Ends(base: nat): set<Companion> {
    set k: nat | base <= k < base + EACH :: Companion(TurnFinished, BatchAt(base, k).last, Import(k))
  }

  lemma EachIsProven(base: nat, k: nat)
    requires base <= EACH && base <= k < base + EACH
    ensures P.TargetProven(Window(base), Transcript(), RepairAt(base, k))
  {
    var window, file, c, batch := Window(base), Transcript(), CandidateAt(base, k), BatchAt(base, k);
    BatchesAre(base, Import(k));
    CandidatesAre(base, 3 * EACH);
    assert CandidatesOf(window, |window|)[k - base] == c;
    assert OnlyCandidate(CandidatesOf(window, |window|), c.target.run, c.identity);
    assert file.records[k] == RecordAt(k);
    assert SourceIs(file.records, c, k);
    assert ProvenBy(window, file.records, c, batch, k);
    assert P.InputProven(window, file, batch, c);
  }

  lemma ProvenIsListed(window: seq<Row>, file: File, batch: Batch, c: Candidate)
    requires P.InputProven(window, file, batch, c) && DeliveriesOf(window, |window|) == []
    ensures c in CandidatesOf(window, |window|)
  {
  }

  lemma NothingElseIsProven(base: nat, target: Target)
    requires P.TargetProven(Window(base), Transcript(), target)
    ensures target in Repairs(base)
  {
    var window := Window(base);
    CandidatesAre(base, 3 * EACH);
    NothingElse(base, 3 * EACH);
    var c: Candidate :| c.target == target && P.InputProven(window, Transcript(), BatchOf(window, target.run).value, c);
    ProvenIsListed(window, Transcript(), BatchOf(window, target.run).value, c);
    var j :| 0 <= j < |CandidatesOf(window, |window|)| && CandidatesOf(window, |window|)[j] == c;
    assert c == CandidateAt(base, base + j);
  }

  lemma EachIsWhole(base: nat, run: Run)
    requires Ours(base, run)
    ensures P.Marks(Window(base), Repairs(base), {}, run)
  {
    var window, k := Window(base), run.name;
    BatchesAre(base, run);
    assert RepairAt(base, k) in B.TargetsIn(Repairs(base), run);
    forall i | 0 <= i < |window| && InRun(window[i], run)
      && window[i].number != BatchOf(window, run).value.first && window[i].number != BatchOf(window, run).value.last
      ensures Repeated(Repairs(base), {}, window[i])
    {
      assert window[i] == RowAt(base, i);
      assert InputTarget(window[i]) == Some(RepairAt(base, k));
    }
  }

  ghost function Marks(base: nat): set<Companion> {
    Beginnings(base) + Ends(base)
  }

  ghost function ProofOf(size: int, repairs: set<Target>, marks: set<Companion>): Proof {
    Proof(0, Stamp(0, 0, size, 0), Some(0), Some(Stamp(0, 1, 9, 0)), repairs, map[], marks, {})
  }

  lemma WindowEstablishes(base: nat, size: int)
    requires base <= EACH
    ensures P.Establishes(Window(base), Transcript(), ProofOf(size, Repairs(base), Marks(base)))
  {
    var window, file := Window(base), Transcript();
    forall target ensures target in Repairs(base) <==> P.TargetProven(window, file, target) {
      if target in Repairs(base) {
        var k: nat :| base <= k < base + EACH && target == RepairAt(base, k);
        EachIsProven(base, k);
      } else if P.TargetProven(window, file, target) {
        NothingElseIsProven(base, target);
      }
    }
    NothingElse(base, 3 * EACH);
    forall c: Companion ensures c in Marks(base) <==> P.IsEndOf(window, c) && P.Marks(window, Repairs(base), {}, c.run) {
      MarkedExactlyWhen(base, c);
    }
  }

  lemma MarkedExactlyWhen(base: nat, c: Companion)
    ensures c in Marks(base) <==> P.IsEndOf(Window(base), c) && P.Marks(Window(base), Repairs(base), {}, c.run)
  {
    BatchesAre(base, c.run);
    if Ours(base, c.run) {
      EachIsWhole(base, c.run);
      var k := c.run.name;
      assert c == Companion(HistoryImported, BatchAt(base, k).first, Import(k)) ==> c in Beginnings(base);
      assert c == Companion(TurnFinished, BatchAt(base, k).last, Import(k)) ==> c in Ends(base);
    }
  }

  // ---------- sizes ----------

  /** The marks in the order of the log. */
  function MarkAt(k: nat): Companion
    requires k < MARKS
  {
    if k < EACH then Companion(HistoryImported, k + 1, Import(k))
    else if k < 2 * EACH then Companion(TurnFinished, EACH + k + 1, Import(k - EACH))
    else if k < 3 * EACH then Companion(HistoryImported, EACH + k + 1, Import(k - EACH))
    else Companion(TurnFinished, 2 * EACH + k + 1, Import(k - 2 * EACH))
  }

  ghost function MarksFrom(low: nat): set<Companion>
    requires low <= MARKS
  {
    set k: nat | low <= k < MARKS :: MarkAt(k)
  }

  lemma {:induction false} MarksSize(low: nat)
    requires low <= MARKS
    ensures |MarksFrom(low)| == MARKS - low
    decreases MARKS - low
  {
    if low == MARKS {
      assert MarksFrom(low) == {};
    } else {
      MarksSize(low + 1);
      assert MarksFrom(low) == MarksFrom(low + 1) + {MarkAt(low)};
    }
  }

  lemma MarkListed(c: Companion)
    ensures c in Marks(0) + Marks(EACH) <==> c in MarksFrom(0)
  {
    if c in Beginnings(0) {
      assert c == MarkAt(c.run.name);
    } else if c in Ends(0) {
      assert c == MarkAt(c.run.name + EACH);
    } else if c in Beginnings(EACH) {
      assert c == MarkAt(c.run.name + EACH);
    } else if c in Ends(EACH) {
      assert c == MarkAt(c.run.name + 2 * EACH);
    }
    if c in MarksFrom(0) {
      var k: nat :| k < MARKS && c == MarkAt(k);
      ListedMark(k);
    }
  }

  lemma ListedMark(k: nat)
    requires k < MARKS
    ensures MarkAt(k) in Marks(0) + Marks(EACH)
  {
    var c := MarkAt(k);
    var name := c.run.name;
    if k < EACH {
      assert c == Companion(HistoryImported, BatchAt(0, name).first, Import(name));
    } else if k < 2 * EACH {
      assert c == Companion(TurnFinished, BatchAt(0, name).last, Import(name));
    } else if k < 3 * EACH {
      assert c == Companion(HistoryImported, BatchAt(EACH, name).first, Import(name));
    } else {
      assert c == Companion(TurnFinished, BatchAt(EACH, name).last, Import(name));
    }
  }

  lemma {:induction false} AsManyEntries(repairs: set<Target>)
    ensures |set t | t in repairs :: Input(t)| == |repairs|
  {
    if repairs == {} {
      assert (set t | t in repairs :: Input(t)) == {};
    } else {
      var t :| t in repairs;
      AsManyEntries(repairs - {t});
      assert (set u | u in repairs :: Input(u)) == (set u | u in repairs - {t} :: Input(u)) + {Input(t)};
    }
  }

  lemma EntriesAre(size: int, repairs: set<Target>, marks: set<Companion>)
    ensures Entries(ProofOf(size, repairs, marks)) == set t | t in repairs :: Input(t)
    ensures |Entries(ProofOf(size, repairs, marks))| == |repairs|
  {
    AsManyEntries(repairs);
  }

  lemma {:induction false} FewRepairs(base: nat, n: nat)
    requires n <= EACH
    ensures |set k: nat | base <= k < base + n :: RepairAt(base, k)| <= n
  {
    var all := set k: nat | base <= k < base + n :: RepairAt(base, k);
    if n == 0 {
      assert all == {};
    } else {
      FewRepairs(base, n - 1);
      assert all == (set k: nat | base <= k < base + (n - 1) :: RepairAt(base, k)) + {RepairAt(base, base + n - 1)};
    }
  }

  // ---------- the merge ----------

  lemma LowestMarksGo()
    ensures Top(MarksFrom(0), MarksFrom(4), MAX_TARGETS, Position)
  {
    MarksSize(0);
    MarksSize(4);
  }

  lemma NoRepairGoes(repairs: set<Target>)
    requires repairs == Repairs(0) + Repairs(EACH)
    ensures |repairs| <= MAX_TARGETS
  {
    FewRepairs(0, EACH);
    FewRepairs(EACH, EACH);
    assert |repairs| <= |Repairs(0)| + |Repairs(EACH)|;
  }

  /** When no repair has to go, the marks alone are cut. */
  lemma OnlyMarksGo(mine: set<Target>, theirs: set<Target>, early: set<Companion>, late: set<Companion>, kept: set<Companion>)
    requires |mine + theirs| <= MAX_TARGETS && Top(early + late, kept, MAX_TARGETS, Position)
    ensures var previous, latest, merged := ProofOf(1, mine, early), ProofOf(2, theirs, late), ProofOf(2, mine + theirs, kept);
      Merges(previous, latest, merged) && Entries(merged) == Entries(previous) + Entries(latest)
  {
    var previous, latest, merged := ProofOf(1, mine, early), ProofOf(2, theirs, late), ProofOf(2, mine + theirs, kept);
    var joined := Joined(previous, latest);
    assert joined == ProofOf(2, mine + theirs, early + late);
    EntriesAre(2, mine + theirs, early + late);
    EntriesAre(2, mine + theirs, kept);
    JoinedEntries(previous, latest);
    assert Evicted(Entries(joined), Entries(merged)) == {};
    assert Complete(joined, Entries(merged)) == early + late;
  }

  lemma BothMerge(previous: Proof, latest: Proof, merged: Proof)
    requires previous == ProofOf(1, Repairs(0), Marks(0)) && latest == ProofOf(2, Repairs(EACH), Marks(EACH))
    requires merged == ProofOf(2, Repairs(0) + Repairs(EACH), MarksFrom(4))
    ensures Merges(previous, latest, merged) && Entries(merged) == Entries(previous) + Entries(latest)
  {
    forall c ensures c in Marks(0) + Marks(EACH) <==> c in MarksFrom(0) {
      MarkListed(c);
    }
    assert Marks(0) + Marks(EACH) == MarksFrom(0);
    NoRepairGoes(Repairs(0) + Repairs(EACH));
    LowestMarksGo();
    OnlyMarksGo(Repairs(0), Repairs(EACH), Marks(0), Marks(EACH), MarksFrom(4));
  }

  lemma LogIncreases()
    ensures Increasing(Window(0) + Window(EACH), 6 * EACH)
  {
    var log := Window(0) + Window(EACH);
    assert forall i :: 0 <= i < |log| ==> log[i].number == i + 1;
  }

  lemma FirstPairIsParted()
    ensures Partners(MarkAt(0), MarkAt(EACH)) && MarkAt(0) in Marks(0) && MarkAt(EACH) in Marks(0)
    ensures MarkAt(0) !in MarksFrom(4) && MarkAt(EACH) in MarksFrom(4)
  {
    assert MarkAt(0) == Companion(HistoryImported, BatchAt(0, 0).first, Import(0));
    assert MarkAt(EACH) == Companion(TurnFinished, BatchAt(0, 0).last, Import(0));
  }

  /** Two requests whose proofs were established over two stretches of one log: the refresh keeps every repair, and
      drops the beginning of the first batch while its end stays marked. */
  lemma ARefreshCanPartAPair() returns (log: seq<Row>, previous: Proof, latest: Proof, merged: Proof)
    ensures Increasing(log, |log|) && ReadFrom(log, previous) && ReadFrom(log, latest)
    ensures IsRun([Request.Prepare(0, Some(previous), false, false), Request.Prepare(0, Some(latest), true, false)],
                  [None, Some(previous), Some(merged)])
    ensures Entries(merged) == Entries(previous) + Entries(latest)
    ensures Partners(MarkAt(0), MarkAt(EACH)) && MarkAt(0) in previous.companions && MarkAt(EACH) in previous.companions
    ensures MarkAt(0) !in merged.companions && MarkAt(EACH) in merged.companions
  {
    log := Window(0) + Window(EACH);
    previous := ProofOf(1, Repairs(0), Marks(0));
    latest := ProofOf(2, Repairs(EACH), Marks(EACH));
    merged := ProofOf(2, Repairs(0) + Repairs(EACH), MarksFrom(4));
    LogIncreases();
    BothAreRead(log, previous, latest);
    BothMerge(previous, latest, merged);
    FirstPairIsParted();
    BothAreTaken(previous, latest, merged);
  }

  lemma BothAreTaken(previous: Proof, latest: Proof, merged: Proof)
    requires previous.provider == 0 && latest.provider == 0 && Extends(previous, latest) && Merges(previous, latest, merged)
    ensures IsRun([Request.Prepare(0, Some(previous), false, false), Request.Prepare(0, Some(latest), true, false)],
                  [None, Some(previous), Some(merged)])
  {
    var first, second := Request.Prepare(0, Some(previous), false, false), Request.Prepare(0, Some(latest), true, false);
    assert Attempt(first) == previous && Attempt(second) == latest;
    assert Steps(None, first, Some(previous));
    assert Steps(Some(previous), second, Some(merged));
  }

  lemma BothAreRead(log: seq<Row>, previous: Proof, latest: Proof)
    requires log == Window(0) + Window(EACH)
    requires previous == ProofOf(1, Repairs(0), Marks(0)) && latest == ProofOf(2, Repairs(EACH), Marks(EACH))
    ensures ReadFrom(log, previous) && ReadFrom(log, latest)
  {
    WindowEstablishes(0, 1);
    WindowEstablishes(EACH, 2);
    assert log[0..3 * EACH] == Window(0) && log[3 * EACH..6 * EACH] == Window(EACH);
    assert Established(log, 0, 3 * EACH, Transcript(), previous);
    assert Established(log, 3 * EACH, 6 * EACH, Transcript(), latest);
  }
}
