/** The proof over one recent window, and what its companion marks mean. */
module HistoryRepairProof {
  import opened Options
  import opened HistoryRepairModel
  import opened HistoryRepair
  import opened HistoryRepairScan
  import opened HistoryRepairBatches
  import D = HistoryRepairDeliveries
  import O = HistoryRepairReplays

  // ---------- when something is proven ----------

  /** In one of the three ways a batch's input can be shown to repeat a native one. */
  ghost predicate InputProven(window: seq<Row>, file: File, batch: Batch, candidate: Candidate) {
    || (&& candidate in CandidatesOf(window, |window|)
        && OnlyCandidate(CandidatesOf(window, |window|), candidate.target.run, candidate.identity)
        && exists k: nat :: ProvenBy(window, file.records, candidate, batch, k))
    || (&& candidate in DeliveriesOf(window, |window|)
        && (|| D.InputDelivered(window, file.records, D.Deliveries, candidate, batch)
            || D.InputDelivered(window, file.records, D.Wakes, candidate, batch)))
  }

  ghost predicate Admitted(window: seq<Row>, file: File, run: Run) {
    BatchOf(window, run).Some? && Readable(BatchOf(window, run).value, file.stamp)
  }

  ghost predicate TargetProven(window: seq<Row>, file: File, target: Target) {
    && Admitted(window, file, target.run)
    && exists candidate: Candidate ::
         candidate.target == target && InputProven(window, file, BatchOf(window, target.run).value, candidate)
  }

  ghost predicate ReplayProven(window: seq<Row>, file: File, replay: Replay) {
    && Admitted(window, file, replay.run)
    && exists imported: Imported :: imported in ReplaysOf(window, |window|) && imported.replay == replay
         && O.Replayed(window, file.outputs, imported, BatchOf(window, replay.run).value)
  }

  lemma ProvenIsGrounded(window: seq<Row>, file: File, targets: set<Target>, replays: set<Replay>)
    requires forall target :: target in targets ==> TargetProven(window, file, target)
    requires forall replay :: replay in replays ==> ReplayProven(window, file, replay)
    ensures Grounded(window, targets, replays)
  {
    forall target | target in targets ensures InputGrounded(window, target) {
      var batch := BatchOf(window, target.run).value;
      var candidate: Candidate :| candidate.target == target && InputProven(window, file, batch, candidate);
      if candidate in CandidatesOf(window, |window|) {
        var i := CandidateIsARow(window, |window|, candidate);
        assert InputAt(window, i, target);
      } else {
        var i := DeliveryIsARow(window, |window|, candidate);
        assert InputAt(window, i, target);
      }
    }
    forall replay | replay in replays ensures ReplayGrounded(window, replay) {
      var imported: Imported :| imported in ReplaysOf(window, |window|) && imported.replay == replay;
      var i := ReplayIsARow(window, |window|, imported);
      assert ReplayAt(window, i, replay);
    }
  }

  // ---------- the batches that can be proven at all ----------

  ghost predicate HoldsBatches(window: seq<Row>, eligible: map<Run, Batch>) {
    && (forall run :: run in eligible <==> BatchOf(window, run).Some?)
    && (forall run :: run in eligible ==> BatchOf(window, run) == Some(eligible[run]))
  }

  ghost predicate HoldsAdmitted(window: seq<Row>, file: File, eligible: map<Run, Batch>) {
    && (forall run :: run in eligible <==> Admitted(window, file, run))
    && (forall run :: run in eligible ==> BatchOf(window, run) == Some(eligible[run]))
  }

  method EligibleBatches(t: Tables, ghost window: seq<Row>) returns (eligible: map<Run, Batch>)
    requires Batches(window, |window|, t)
    ensures HoldsBatches(window, eligible)
  {
    eligible := map[];
    var todo := t.marks.Keys;
    while todo != {}
      invariant todo <= t.marks.Keys
      invariant forall run :: run in eligible <==> run in t.marks && run !in todo && BatchOf(window, run).Some?
      invariant forall run :: run in eligible ==> BatchOf(window, run) == Some(eligible[run])
      decreases todo
    {
      var run :| run in todo;
      todo := todo - {run};
      var batch := BatchFrom(t.marks[run], Found(t.finishes, run));
      assert Found(t.marks, run) == MarksOf(window, |window|, run);
      if batch.Some? {
        eligible := eligible[run := batch.value];
      }
    }
    forall run | BatchOf(window, run).Some? ensures run in t.marks {
      assert Found(t.marks, run) == MarksOf(window, |window|, run);
    }
  }

  // ---------- proving inputs and outputs ----------

  method ProveInputs(t: Tables, s: Transcript, eligible: map<Run, Batch>, ghost window: seq<Row>, ghost file: File)
    returns (targets: set<Target>)
    requires Sees(window, file.records, |file.records|, s) && Listed(window, |window|, t)
    requires HoldsAdmitted(window, file, eligible)
    ensures forall target :: target in targets <==>
              exists c: Candidate :: c in t.candidates && c.target == target && target.run in eligible
                && OnlyCandidate(t.candidates, target.run, c.identity)
                && exists k: nat :: ProvenBy(window, file.records, c, eligible[target.run], k)
  {
    targets := {};
    for n := 0 to |t.candidates|
      invariant forall target :: target in targets <==>
                  exists i :: 0 <= i < n && t.candidates[i].target == target && target.run in eligible
                    && OnlyCandidate(t.candidates, target.run, t.candidates[i].identity)
                    && exists k: nat :: ProvenBy(window, file.records, t.candidates[i], eligible[target.run], k)
    {
      var candidate := t.candidates[n];
      if candidate.target.run in eligible {
        var proven := DecideInput(s, t, candidate, eligible[candidate.target.run], window, file.records);
        if proven {
          targets := targets + {candidate.target};
        }
      }
    }
  }

  // ---------- counting and marking ----------

  lemma TargetsGrow(done: set<Target>, target: Target, run: Run)
    requires target !in done
    ensures |TargetsIn(done + {target}, run)| == |TargetsIn(done, run)| + if target.run == run then 1 else 0
  {
    assert TargetsIn(done + {target}, run) == TargetsIn(done, run) + if target.run == run then {target} else {};
  }

  lemma ReplaysGrow(done: set<Replay>, replay: Replay, run: Run)
    requires replay !in done
    ensures |ReplaysIn(done + {replay}, run)| == |ReplaysIn(done, run)| + if replay.run == run then 1 else 0
  {
    assert ReplaysIn(done + {replay}, run) == ReplaysIn(done, run) + if replay.run == run then {replay} else {};
  }

  method CountTargets(targets: set<Target>) returns (counts: multiset<Run>)
    ensures forall run :: counts[run] == |TargetsIn(targets, run)|
  {
    counts := multiset{};
    var todo := targets;
    while todo != {}
      invariant todo <= targets
      invariant forall run :: counts[run] == |TargetsIn(targets - todo, run)|
      decreases todo
    {
      var target :| target in todo;
      ghost var done := targets - todo;
      todo := todo - {target};
      assert targets - todo == done + {target};
      counts := counts + multiset{target.run};
      forall run ensures counts[run] == |TargetsIn(done + {target}, run)| {
        TargetsGrow(done, target, run);
      }
    }
    assert targets - todo == targets;
  }

  method CountReplays(replays: set<Replay>, start: multiset<Run>) returns (counts: multiset<Run>)
    ensures forall run :: counts[run] == start[run] + |ReplaysIn(replays, run)|
  {
    counts := start;
    var todo := replays;
    while todo != {}
      invariant todo <= replays
      invariant forall run :: counts[run] == start[run] + |ReplaysIn(replays - todo, run)|
      decreases todo
    {
      var replay :| replay in todo;
      ghost var done := replays - todo;
      todo := todo - {replay};
      assert replays - todo == done + {replay};
      counts := counts + multiset{replay.run};
      forall run ensures counts[run] == start[run] + |ReplaysIn(done + {replay}, run)| {
        ReplaysGrow(done, replay, run);
      }
    }
    assert replays - todo == replays;
  }

  /** A batch is marked when something of it is proven and nothing but its two ends is not. */
  ghost predicate Marks(window: seq<Row>, targets: set<Target>, replays: set<Replay>, run: Run) {
    Whole(window, targets, replays, run) && (TargetsIn(targets, run) != {} || ReplaysIn(replays, run) != {})
  }

  ghost predicate IsEndOf(window: seq<Row>, companion: Companion) {
    && BatchOf(window, companion.run).Some?
    && (|| (companion.kind.HistoryImported? && companion.number == BatchOf(window, companion.run).value.first)
        || (companion.kind.TurnFinished? && companion.number == BatchOf(window, companion.run).value.last))
  }

  method MarkBatches(t: Tables, targets: set<Target>, replays: set<Replay>, eligible: map<Run, Batch>, ghost window: seq<Row>)
    returns (companions: set<Companion>)
    requires Increasing(window, |window|) && Counted(window, |window|, t) && Grounded(window, targets, replays)
    requires forall run :: run in eligible ==> BatchOf(window, run) == Some(eligible[run])
    requires forall target :: target in targets ==> target.run in eligible
    requires forall replay :: replay in replays ==> replay.run in eligible
    ensures forall c: Companion :: c in companions <==> IsEndOf(window, c) && Marks(window, targets, replays, c.run)
  {
    var counts := CountTargets(targets);
    counts := CountReplays(replays, counts);
    companions := {};
    var todo := Names(counts);
    while todo != {}
      invariant todo <= Names(counts)
      invariant forall c: Companion :: c in companions <==>
                  IsEndOf(window, c) && Marks(window, targets, replays, c.run) && c.run !in todo
      decreases todo
    {
      var run :| run in todo;
      todo := todo - {run};
      SomethingProven(targets, replays, run);
      CountedExactlyWhenMarked(window, targets, replays, run);
      if t.rows[run] == counts[run] + 2 {
        companions := companions + {Companion(HistoryImported, eligible[run].first, run),
                                    Companion(TurnFinished, eligible[run].last, run)};
      }
    }
  }

  lemma CountedExactlyWhenMarked(window: seq<Row>, targets: set<Target>, replays: set<Replay>, run: Run)
    requires Increasing(window, |window|) && Grounded(window, targets, replays) && BatchOf(window, run).Some?
    requires |TargetsIn(targets, run)| + |ReplaysIn(replays, run)| > 0
    ensures |RowsOf(window, |window|, run)| == |TargetsIn(targets, run)| + |ReplaysIn(replays, run)| + 2
       <==> Marks(window, targets, replays, run)
  {
    CountedExactlyWhenWhole(window, targets, replays, run);
  }

  lemma SomethingProven(targets: set<Target>, replays: set<Replay>, run: Run)
    requires |TargetsIn(targets, run)| + |ReplaysIn(replays, run)| > 0
    ensures (exists target :: target in TargetsIn(targets, run)) || (exists replay :: replay in ReplaysIn(replays, run))
  {
    if |TargetsIn(targets, run)| > 0 {
      var target :| target in TargetsIn(targets, run);
    } else {
      var replay :| replay in ReplaysIn(replays, run);
    }
  }

  // ---------- the proof ----------

  /** The inputs and outputs proven are exactly the provable ones, and exactly their whole batches are marked. */
  ghost predicate Establishes(window: seq<Row>, file: File, proof: Proof) {
    && (forall target :: target in proof.targets <==> TargetProven(window, file, target))
    && (forall replay :: replay in proof.replays <==> ReplayProven(window, file, replay))
    && (forall c: Companion :: c in proof.companions <==>
          IsEndOf(window, c) && Marks(window, proof.targets, proof.replays, c.run))
  }

  lemma BothWaysAreCovered(window: seq<Row>, file: File, t: Tables, eligible: map<Run, Batch>,
                           inputs: set<Target>, deliveries: set<Target>, wakes: set<Target>)
    requires Listed(window, |window|, t) && HoldsAdmitted(window, file, eligible)
    requires forall target :: target in inputs <==>
               exists c: Candidate :: c in t.candidates && c.target == target && target.run in eligible
                 && OnlyCandidate(t.candidates, target.run, c.identity)
                 && exists k: nat :: ProvenBy(window, file.records, c, eligible[target.run], k)
    requires forall target :: target in deliveries <==>
               exists c: Candidate :: c in t.deliveries && c.target == target && target.run in eligible
                 && D.InputDelivered(window, file.records, D.Deliveries, c, eligible[target.run])
    requires forall target :: target in wakes <==>
               exists c: Candidate :: c in t.deliveries && c.target == target && target.run in eligible
                 && D.InputDelivered(window, file.records, D.Wakes, c, eligible[target.run])
    ensures forall target :: target in inputs + deliveries + wakes <==> TargetProven(window, file, target)
  {
    forall target | target in inputs + deliveries + wakes ensures TargetProven(window, file, target) {
      var batch := eligible[target.run];
      var c: Candidate :| c.target == target && InputProven(window, file, batch, c);
    }
    forall target | TargetProven(window, file, target) ensures target in inputs + deliveries + wakes {
      var c: Candidate :| c.target == target && InputProven(window, file, BatchOf(window, target.run).value, c);
    }
  }

  /** The one transcript every batch names, when it can be read. */
  method PickSource(eligible: map<Run, Batch>, files: map<Text, File>) returns (source: Option<Text>)
    requires eligible != map[]
    ensures source.Some? ==> source.value in files
    ensures source.Some? ==> forall run :: run in eligible ==> eligible[run].checkpoint.path == source.value
    ensures source.None? ==> forall path :: path in files ==> exists run :: run in eligible && eligible[run].checkpoint.path != path
  {
    var some :| some in eligible;
    var path := eligible[some].checkpoint.path;
    if path !in files || exists run :: run in eligible && eligible[run].checkpoint.path != path {
      return None;
    }
    return Some(path);
  }

  /** Nothing when one of the collectors has too many keys to hold. */
  method ProveEveryWay(t: Tables, s: Transcript, eligible: map<Run, Batch>, ghost window: seq<Row>, file: File)
    returns (targets: Option<set<Target>>)
    requires Sees(window, file.records, |file.records|, s) && Reflects(window, |window|, t)
    requires HoldsAdmitted(window, file, eligible)
    ensures targets.Some? ==> forall target :: target in targets.value <==> TargetProven(window, file, target)
  {
    var inputs := ProveInputs(t, s, eligible, window, file);
    var deliveries := D.ProveCollected(D.Deliveries, t, file.records, eligible, window);
    var wakes := D.ProveCollected(D.Wakes, t, file.records, eligible, window);
    if deliveries.None? || wakes.None? {
      return None;
    }
    BothWaysAreCovered(window, file, t, eligible, inputs, deliveries.value, wakes.value);
    targets := Some(inputs + deliveries.value + wakes.value);
  }

  lemma ReplaysAreCovered(window: seq<Row>, file: File, t: Tables, eligible: map<Run, Batch>, replays: set<Replay>)
    requires Listed(window, |window|, t) && HoldsAdmitted(window, file, eligible)
    requires forall replay :: replay in replays <==>
               exists r: Imported :: r in t.replays && r.replay == replay && replay.run in eligible
                 && O.Replayed(window, file.outputs, r, eligible[replay.run])
    ensures forall replay :: replay in replays <==> ReplayProven(window, file, replay)
  {
  }

  /** Nothing when the transcript has too many keys to hold. */
  method ProveAgainst(t: Tables, eligible: map<Run, Batch>, window: seq<Row>, file: File, empty: Proof, path: Text)
    returns (proof: Option<Proof>)
    requires Increasing(window, |window|) && Reflects(window, |window|, t) && HoldsAdmitted(window, file, eligible)
    ensures proof.Some? ==> Establishes(window, file, proof.value)
    ensures proof.Some? ==> proof.value == empty.(source := Some(path), sourceStamp := Some(file.stamp), targets := proof.value.targets,
                                                  companions := proof.value.companions, replays := proof.value.replays)
  {
    var scanned := Scan(file.records, t, window);
    if scanned.None? {
      return None;
    }
    var targets := ProveEveryWay(t, scanned.value, eligible, window, file);
    var replays := O.ProveReplays(t, file.outputs, eligible, window);
    if targets.None? || replays.None? {
      return None;
    }
    ReplaysAreCovered(window, file, t, eligible, replays.value);
    ProvenIsGrounded(window, file, targets.value, replays.value);
    var companions := MarkBatches(t, targets.value, replays.value, eligible, window);
    return Some(empty.(source := Some(path), sourceStamp := Some(file.stamp), targets := targets.value,
                       companions := companions, replays := replays.value));
  }

  ghost predicate NothingToProve(window: seq<Row>, files: map<Text, File>) {
    || (CandidatesOf(window, |window|) == [] && ReplaysOf(window, |window|) == [])
    || (forall run, path :: path in files && NamesSource(window, run, path) ==> !Admitted(window, files[path], run))
  }

  predicate NamesSource(window: seq<Row>, run: Run, path: Text) {
    BatchOf(window, run).Some? && BatchOf(window, run).value.checkpoint.path == path
  }

  /** The proof over one window of the event log; nothing when the window or the transcript cannot be trusted. */
  method ProveRecent(provider: Text, events: Stamp, window: seq<Row>, files: map<Text, File>) returns (proof: Option<Proof>)
    ensures !Increasing(window, |window|) ==> proof.None?
    ensures proof.Some? ==> proof.value.provider == provider && proof.value.events == events && proof.value.interruptions == map[]
    ensures proof.Some? && proof.value.source.None? ==> proof.value == EmptyProof(provider, events) && NothingToProve(window, files)
    ensures (proof.Some? && proof.value.source.Some? ==>
               && proof.value.source.value in files && Establishes(window, files[proof.value.source.value], proof.value)
               && proof.value.sourceStamp == Some(files[proof.value.source.value].stamp)
               && (forall run :: BatchOf(window, run).Some? ==> NamesSource(window, run, proof.value.source.value)))
  {
    var empty := EmptyProof(provider, events);
    var gathered := Gather(window);
    if gathered.None? {
      return None;
    }
    var t := gathered.value;
    var eligible := EligibleBatches(t, window);
    if (t.candidates == [] && t.replays == []) || eligible == map[] {
      return Some(empty);
    }
    var source := PickSource(eligible, files);
    if source.None? {
      return None;
    }
    var file := files[source.value];
    var admitted := map run | run in eligible && Readable(eligible[run], file.stamp) :: eligible[run];
    if admitted == map[] {
      forall run, path | path in files && NamesSource(window, run, path) ensures !Admitted(window, files[path], run) {
        assert run in eligible && run !in admitted;
      }
      return Some(empty);
    }
    proof := ProveAgainst(t, admitted, window, file, empty, source.value);
  }

  // ---------- what a mark means ----------

  /** Once either end of a batch is marked, every row of the batch in the window is neutralised, save that a
      closing row naming another provider session keeps its own form. */
  lemma MarkedBatchIsNeutral(window: seq<Row>, file: File, proof: Proof, mark: Companion, i: nat)
    requires Increasing(window, |window|) && Establishes(window, file, proof) && mark in proof.companions
    requires i < |window| && InRun(window[i], mark.run)
    requires forall j :: 0 <= j < |window| && window[j].checkpoint.Some? ==> window[j].provider
    ensures Neutralised(proof, window[i])
       <==> (window[i].number == BatchOf(window, mark.run).value.last ==> window[i].provider)
  {
    var b := BatchOf(window, mark.run).value;
    var f, l := EndsAreRows(window, mark.run);
    assert Companion(HistoryImported, b.first, mark.run) in proof.companions by {
      assert IsEndOf(window, Companion(HistoryImported, b.first, mark.run));
    }
    assert Companion(TurnFinished, b.last, mark.run) in proof.companions by {
      assert IsEndOf(window, Companion(TurnFinished, b.last, mark.run));
    }
    if window[i].number == b.first {
      assert i == f;
    } else if window[i].number == b.last {
      assert i == l;
    }
  }
}
