/** Counting what is proven of an import batch, and what the count says of every one of its rows. */
module HistoryRepairBatches {
  import opened Options
  import opened HistoryRepairModel
  import opened HistoryRepair
  import opened HistoryRepairScan

  // ---------- rows behind the lists ----------

  lemma {:induction false} MarkIsARow(window: seq<Row>, n: nat, run: Run, mark: Marked) returns (i: nat)
    requires n <= |window| && mark in MarksOf(window, n, run)
    ensures i < n && MarkIn(window[i], run) == [mark]
  {
    if mark in MarkIn(window[n - 1], run) {
      i := n - 1;
    } else {
      i := MarkIsARow(window, n - 1, run, mark);
    }
  }

  lemma {:induction false} FinishIsARow(window: seq<Row>, n: nat, run: Run, number: int) returns (i: nat)
    requires n <= |window| && number in FinishesOf(window, n, run)
    ensures i < n && FinishIn(window[i], run) == [number]
  {
    if number in FinishIn(window[n - 1], run) {
      i := n - 1;
    } else {
      i := FinishIsARow(window, n - 1, run, number);
    }
  }

  lemma {:induction false} CandidateIsARow(window: seq<Row>, n: nat, candidate: Candidate) returns (i: nat)
    requires n <= |window| && candidate in CandidatesOf(window, n)
    ensures i < n && CandidateIn(window[i]) == [candidate]
  {
    if candidate in CandidateIn(window[n - 1]) {
      i := n - 1;
    } else {
      i := CandidateIsARow(window, n - 1, candidate);
    }
  }

  lemma {:induction false} DeliveryIsARow(window: seq<Row>, n: nat, candidate: Candidate) returns (i: nat)
    requires n <= |window| && candidate in DeliveriesOf(window, n)
    ensures i < n && DeliveryIn(window[i]) == [candidate]
  {
    if candidate in DeliveryIn(window[n - 1]) {
      i := n - 1;
    } else {
      i := DeliveryIsARow(window, n - 1, candidate);
    }
  }

  lemma {:induction false} ReplayIsARow(window: seq<Row>, n: nat, replay: Imported) returns (i: nat)
    requires n <= |window| && replay in ReplaysOf(window, n)
    ensures i < n && ReplayIn(window[i]) == [replay]
  {
    if replay in ReplayIn(window[n - 1]) {
      i := n - 1;
    } else {
      i := ReplayIsARow(window, n - 1, replay);
    }
  }

  // ---------- the count of a batch ----------

  ghost predicate InputAt(window: seq<Row>, i: int, target: Target) {
    0 <= i < |window| && window[i].ours && InputTarget(window[i]) == Some(target)
  }

  ghost predicate ReplayAt(window: seq<Row>, i: int, replay: Replay) {
    0 <= i < |window| && window[i].ours && AssistantTarget(window[i]) == Some(replay)
  }

  ghost predicate Between(window: seq<Row>, run: Run, number: int) {
    BatchOf(window, run).Some? && BatchOf(window, run).value.first < number < BatchOf(window, run).value.last
  }

  ghost predicate InputGrounded(window: seq<Row>, target: Target) {
    Between(window, target.run, target.number) && exists i :: InputAt(window, i, target)
  }

  ghost predicate ReplayGrounded(window: seq<Row>, replay: Replay) {
    Between(window, replay.run, replay.number) && exists i :: ReplayAt(window, i, replay)
  }

  /** Everything proven is a row of the window, inside its own batch. */
  ghost predicate Grounded(window: seq<Row>, targets: set<Target>, replays: set<Replay>) {
    && (forall target :: target in targets ==> InputGrounded(window, target))
    && (forall replay :: replay in replays ==> ReplayGrounded(window, replay))
  }

  function TargetsIn(targets: set<Target>, run: Run): set<Target> {
    set target | target in targets && target.run == run
  }

  function ReplaysIn(replays: set<Replay>, run: Run): set<Replay> {
    set replay | replay in replays && replay.run == run
  }

  /** Every row of the batch in the window repeats something, but for the two that mark its ends. */
  ghost predicate Whole(window: seq<Row>, targets: set<Target>, replays: set<Replay>, run: Run) {
    && BatchOf(window, run).Some?
    && (forall i :: 0 <= i < |window| && InRun(window[i], run)
          && window[i].number != BatchOf(window, run).value.first && window[i].number != BatchOf(window, run).value.last
          ==> Repeated(targets, replays, window[i]))
  }

  lemma {:induction false} ImageHasTheSize<T>(source: set<T>, image: set<int>, number: T -> int)
    requires forall x, y :: x in source && y in source && number(x) == number(y) ==> x == y
    requires image == set x | x in source :: number(x)
    ensures |image| == |source|
  {
    if source == {} {
    } else {
      var x :| x in source;
      var rest := set y | y in source - {x} :: number(y);
      assert rest == image - {number(x)};
      ImageHasTheSize(source - {x}, rest, number);
    }
  }

  lemma SubsetHasNoMore(small: set<int>, large: set<int>)
    requires small <= large
    ensures |small| <= |large| && (|small| == |large| <==> small == large)
  {
    assert large == small + (large - small);
    assert |large| == |small| + |large - small|;
  }

  lemma OneRowOneInput(window: seq<Row>, x: Target, y: Target)
    requires Increasing(window, |window|) && InputGrounded(window, x) && InputGrounded(window, y)
    requires x.number == y.number
    ensures x == y
  {
    var i, j :| InputAt(window, i, x) && InputAt(window, j, y);
    assert i == j;
  }

  lemma OneRowOneReplay(window: seq<Row>, x: Replay, y: Replay)
    requires Increasing(window, |window|) && ReplayGrounded(window, x) && ReplayGrounded(window, y)
    requires x.number == y.number
    ensures x == y
  {
    var i, j :| ReplayAt(window, i, x) && ReplayAt(window, j, y);
    assert i == j;
  }

  lemma NeverBoth(window: seq<Row>, target: Target, replay: Replay)
    requires Increasing(window, |window|) && InputGrounded(window, target) && ReplayGrounded(window, replay)
    ensures target.number != replay.number
  {
    var i, j :| InputAt(window, i, target) && ReplayAt(window, j, replay);
    assert i != j;
  }

  lemma EndsAreRows(window: seq<Row>, run: Run) returns (i: nat, j: nat)
    requires BatchOf(window, run).Some?
    ensures i < |window| && InRun(window[i], run) && window[i].number == BatchOf(window, run).value.first
    ensures window[i].kind.HistoryImported? && window[i].claude && window[i].checkpoint.Some?
    ensures j < |window| && InRun(window[j], run) && window[j].number == BatchOf(window, run).value.last
    ensures window[j].kind.TurnFinished? && window[j].claude && window[j].imported
  {
    i := MarkIsARow(window, |window|, run, MarksOf(window, |window|, run)[0]);
    j := FinishIsARow(window, |window|, run, FinishesOf(window, |window|, run)[0]);
  }

  /** The numbers of a batch's proven rows. */
  ghost function ProvenNumbers(targets: set<Target>, replays: set<Replay>, run: Run): set<int> {
    (set t | t in TargetsIn(targets, run) :: t.number) + (set r | r in ReplaysIn(replays, run) :: r.number)
  }

  lemma ProvenNumbersCount(window: seq<Row>, targets: set<Target>, replays: set<Replay>, run: Run)
    requires Increasing(window, |window|) && Grounded(window, targets, replays)
    ensures |ProvenNumbers(targets, replays, run)| == |TargetsIn(targets, run)| + |ReplaysIn(replays, run)|
  {
    var ts, rs := TargetsIn(targets, run), ReplaysIn(replays, run);
    var a, b := set t | t in ts :: t.number, set r | r in rs :: r.number;
    forall x, y | x in ts && y in ts && x.number == y.number ensures x == y {
      OneRowOneInput(window, x, y);
    }
    forall x, y | x in rs && y in rs && x.number == y.number ensures x == y {
      OneRowOneReplay(window, x, y);
    }
    ImageHasTheSize(ts, a, (t: Target) => t.number);
    ImageHasTheSize(rs, b, (r: Replay) => r.number);
    forall t, r | t in ts && r in rs ensures t.number != r.number {
      NeverBoth(window, t, r);
    }
    assert a !! b;
  }

  /** In a batch, a row's number is proven exactly when the row itself is. */
  lemma ProvenByNumber(window: seq<Row>, targets: set<Target>, replays: set<Replay>, run: Run, i: nat)
    requires Increasing(window, |window|) && Grounded(window, targets, replays) && i < |window| && InRun(window[i], run)
    ensures window[i].number in ProvenNumbers(targets, replays, run) <==> Repeated(targets, replays, window[i])
  {
    if t :| t in TargetsIn(targets, run) && t.number == window[i].number {
      var j :| InputAt(window, j, t);
      assert i == j;
    }
    if r :| r in ReplaysIn(replays, run) && r.number == window[i].number {
      var j :| ReplayAt(window, j, r);
      assert i == j;
    }
    if Repeated(targets, replays, window[i]) {
      if InputTarget(window[i]).Some? && InputTarget(window[i]).value in targets {
        assert InputTarget(window[i]).value in TargetsIn(targets, run);
      } else {
        assert AssistantTarget(window[i]).value in ReplaysIn(replays, run);
      }
    }
  }

  lemma ProvenNumbersAreRows(window: seq<Row>, targets: set<Target>, replays: set<Replay>, run: Run)
    requires Grounded(window, targets, replays)
    ensures ProvenNumbers(targets, replays, run) <= RowsOf(window, |window|, run)
  {
    forall number | number in ProvenNumbers(targets, replays, run) ensures number in RowsOf(window, |window|, run) {
      if t :| t in TargetsIn(targets, run) && t.number == number {
        var j :| InputAt(window, j, t);
        assert InRun(window[j], run);
      } else {
        var r :| r in ReplaysIn(replays, run) && r.number == number;
        var j :| ReplayAt(window, j, r);
        assert InRun(window[j], run);
      }
    }
  }

  /** The rows of a batch are its proven ones and its two ends exactly when nothing else is in it. */
  lemma RowsWhenWhole(window: seq<Row>, targets: set<Target>, replays: set<Replay>, run: Run, ends: set<int>)
    requires Increasing(window, |window|) && Grounded(window, targets, replays) && BatchOf(window, run).Some?
    requires ends == {BatchOf(window, run).value.first, BatchOf(window, run).value.last}
    ensures RowsOf(window, |window|, run) == ProvenNumbers(targets, replays, run) + ends
       <==> Whole(window, targets, replays, run)
  {
    var rows, proven := RowsOf(window, |window|, run), ProvenNumbers(targets, replays, run);
    var i, j := EndsAreRows(window, run);
    ProvenNumbersAreRows(window, targets, replays, run);
    assert proven + ends <= rows;
    if rows == proven + ends {
      forall k | 0 <= k < |window| && InRun(window[k], run) && window[k].number !in ends
        ensures Repeated(targets, replays, window[k])
      {
        assert window[k].number in rows;
        ProvenByNumber(window, targets, replays, run, k);
      }
    }
    if Whole(window, targets, replays, run) {
      forall number | number in rows ensures number in proven + ends {
        var k :| 0 <= k < |window| && InRun(window[k], run) && window[k].number == number;
        ProvenByNumber(window, targets, replays, run, k);
      }
    }
  }

  lemma EndsAreUnproven(window: seq<Row>, targets: set<Target>, replays: set<Replay>, run: Run)
    requires Grounded(window, targets, replays) && BatchOf(window, run).Some?
    ensures BatchOf(window, run).value.first !in ProvenNumbers(targets, replays, run)
    ensures BatchOf(window, run).value.last !in ProvenNumbers(targets, replays, run)
  {
    forall number | number in ProvenNumbers(targets, replays, run) ensures Between(window, run, number) {
      if t :| t in TargetsIn(targets, run) && t.number == number {
        assert InputGrounded(window, t);
      } else {
        var r :| r in ReplaysIn(replays, run) && r.number == number;
        assert ReplayGrounded(window, r);
      }
    }
  }

  /** A batch has two rows more than are proven of it exactly when nothing but its two ends is unproven. */
  lemma CountedExactlyWhenWhole(window: seq<Row>, targets: set<Target>, replays: set<Replay>, run: Run)
    requires Increasing(window, |window|) && Grounded(window, targets, replays) && BatchOf(window, run).Some?
    ensures |RowsOf(window, |window|, run)| == |TargetsIn(targets, run)| + |ReplaysIn(replays, run)| + 2
       <==> Whole(window, targets, replays, run)
  {
    var ends := {BatchOf(window, run).value.first, BatchOf(window, run).value.last};
    var proven := ProvenNumbers(targets, replays, run);
    ProvenNumbersCount(window, targets, replays, run);
    EndsAreUnproven(window, targets, replays, run);
    assert |proven + ends| == |proven| + 2;
    SubsetOfRows(window, targets, replays, run, ends);
    SubsetHasNoMore(proven + ends, RowsOf(window, |window|, run));
    RowsWhenWhole(window, targets, replays, run, ends);
  }

  lemma SubsetOfRows(window: seq<Row>, targets: set<Target>, replays: set<Replay>, run: Run, ends: set<int>)
    requires Grounded(window, targets, replays) && BatchOf(window, run).Some?
    requires ends == {BatchOf(window, run).value.first, BatchOf(window, run).value.last}
    ensures ProvenNumbers(targets, replays, run) + ends <= RowsOf(window, |window|, run)
  {
    var i, j := EndsAreRows(window, run);
    ProvenNumbersAreRows(window, targets, replays, run);
  }
}
