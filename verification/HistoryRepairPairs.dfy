/** The two marks of a batch under the cap: exactly when a refresh keeps only one of them. */
module HistoryRepairPairs {
  import opened Options
  import opened HistoryRepairModel
  import opened HistoryRepairCache
  import opened HistoryRepairRuns
  import B = HistoryRepairBatches
  import P = HistoryRepairProof

  predicate Partners(a: Companion, b: Companion) {
    a.run == b.run && a.kind.HistoryImported? && b.kind.TurnFinished?
  }

  ghost function Above(marks: set<Companion>, number: int): set<Companion> {
    set e | e in marks && e.number > number
  }

  /** No two marks stand at the same place of the log. */
  ghost predicate DistinctPlaces(marks: set<Companion>) {
    forall a, b :: a in marks && b in marks && a.number == b.number ==> a == b
  }

  // ---------- what the cap keeps ----------

  lemma SubsetIsNoLarger(small: set<Companion>, large: set<Companion>)
    requires small <= large
    ensures |small| <= |large|
    ensures small != large ==> |small| < |large|
  {
    assert large == small + (large - small);
    assert |large| == |small| + |large - small|;
    if small != large {
      var extra :| extra in large - small;
    }
  }

  /** A mark is kept exactly when fewer marks than the cap lie above it. */
  lemma KeptExactlyWhen(marks: set<Companion>, kept: set<Companion>, limit: nat, mark: Companion)
    requires DistinctPlaces(marks) && Top(marks, kept, limit, Position) && mark in marks
    ensures mark in kept <==> |Above(marks, mark.number)| < limit
  {
    var above, place := Above(marks, mark.number), Position(mark);
    if mark in kept {
      forall e | e in above ensures e in kept {
        var other := Position(e);
      }
      SubsetIsNoLarger(above, kept);
    } else {
      forall e | e in kept ensures e in above {
        assert Position(e) >= Position(mark);
      }
      SubsetIsNoLarger(kept, above);
      SubsetIsNoLarger(kept, marks);
    }
  }

  /** The cap parts two marks exactly when it falls between them. */
  lemma PartedExactlyWhen(marks: set<Companion>, kept: set<Companion>, limit: nat, a: Companion, b: Companion)
    requires DistinctPlaces(marks) && Top(marks, kept, limit, Position)
    requires a in marks && b in marks && a.number < b.number
    ensures (a in kept) != (b in kept) <==> |Above(marks, b.number)| < limit <= |Above(marks, a.number)|
    ensures a in kept ==> b in kept
  {
    KeptExactlyWhen(marks, kept, limit, a);
    KeptExactlyWhen(marks, kept, limit, b);
    SubsetIsNoLarger(Above(marks, b.number), Above(marks, a.number));
  }

  // ---------- marks are rows of the log ----------

  /** The mark names a row of the log by its kind, number and run. */
  ghost predicate Logged(log: seq<Row>, mark: Companion) {
    exists i :: 0 <= i < |log| && log[i].kind == mark.kind && log[i].number == mark.number && log[i].run == mark.run
  }

  ghost predicate AllLogged(log: seq<Row>, marks: set<Companion>) {
    forall mark :: mark in marks ==> Logged(log, mark)
  }

  lemma LoggedIsDistinct(log: seq<Row>, marks: set<Companion>)
    requires Increasing(log, |log|) && AllLogged(log, marks)
    ensures DistinctPlaces(marks)
  {
    forall a, b | a in marks && b in marks && a.number == b.number ensures a == b {
      assert Logged(log, a) && Logged(log, b);
      var i :| 0 <= i < |log| && log[i].kind == a.kind && log[i].number == a.number && log[i].run == a.run;
      var j :| 0 <= j < |log| && log[j].kind == b.kind && log[j].number == b.number && log[j].run == b.run;
      assert i == j;
    }
  }

  /** Either the proof marks nothing, or it was established over some stretch of the log. */
  ghost predicate ReadFrom(log: seq<Row>, proof: Proof) {
    proof.companions == {} || exists low, high, file :: Established(log, low, high, file, proof)
  }

  ghost predicate Established(log: seq<Row>, low: int, high: int, file: File, proof: Proof) {
    0 <= low <= high <= |log| && P.Establishes(log[low..high], file, proof)
  }

  lemma MarksAreLogged(log: seq<Row>, proof: Proof)
    requires ReadFrom(log, proof)
    ensures AllLogged(log, proof.companions)
  {
    forall mark | mark in proof.companions ensures Logged(log, mark) {
      var low, high, file :| Established(log, low, high, file, proof);
      var window := log[low..high];
      assert P.IsEndOf(window, mark);
      var i, j := B.EndsAreRows(window, mark.run);
      assert window[i] == log[low + i] && window[j] == log[low + j];
    }
  }

  /** A proof marks both ends of a batch, the beginning before the end. */
  lemma MarksComeInPairs(log: seq<Row>, proof: Proof, mark: Companion) returns (a: Companion, b: Companion)
    requires ReadFrom(log, proof) && mark in proof.companions
    ensures a in proof.companions && b in proof.companions && Partners(a, b) && a.number < b.number && mark in {a, b}
  {
    var low, high, file :| Established(log, low, high, file, proof);
    var window := log[low..high];
    assert P.IsEndOf(window, mark);
    var batch := BatchOf(window, mark.run).value;
    a, b := Companion(HistoryImported, batch.first, mark.run), Companion(TurnFinished, batch.last, mark.run);
    assert P.IsEndOf(window, a) && P.IsEndOf(window, b);
  }

  lemma CachedMarksAreLogged(log: seq<Row>, history: seq<Proof>, cached: Proof)
    requires Accounted(history, Some(cached)) && forall origin :: origin in history ==> ReadFrom(log, origin)
    ensures AllLogged(log, cached.companions)
  {
    forall mark | mark in cached.companions ensures Logged(log, mark) {
      var origin :| origin in history && BacksMark(origin, cached, mark);
      MarksAreLogged(log, origin);
    }
  }

  // ---------- the marks of a refresh ----------

  /** Over any run of requests whose proofs read one log: when a refresh merges, the two marks of a batch that lost
      no repair are parted exactly when the cap falls between them; the one lost is then the beginning. */
  lemma RefreshPartsExactlyWhen(log: seq<Row>, requests: seq<Request>, states: seq<Option<Proof>>,
                                latest: Proof, merged: Proof, a: Companion, b: Companion)
    requires Increasing(log, |log|) && IsRun(requests, states) && states[|requests|].Some?
    requires forall origin :: origin in Attempts(requests) ==> ReadFrom(log, origin)
    requires ReadFrom(log, latest) && Merges(states[|requests|].value, latest, merged)
    requires var complete := Complete(Joined(states[|requests|].value, latest), Entries(merged));
      a in complete && b in complete && Partners(a, b) && a.number < b.number
    ensures var complete := Complete(Joined(states[|requests|].value, latest), Entries(merged));
      && ((a in merged.companions) != (b in merged.companions) <==>
            |Above(complete, b.number)| < MAX_TARGETS <= |Above(complete, a.number)|)
      && (a in merged.companions ==> b in merged.companions)
  {
    var previous := states[|requests|].value;
    EveryRunIsAccounted(requests, states);
    CachedMarksAreLogged(log, Attempts(requests), previous);
    MarksAreLogged(log, latest);
    var complete := Complete(Joined(previous, latest), Entries(merged));
    assert AllLogged(log, complete);
    LoggedIsDistinct(log, complete);
    PartedExactlyWhen(complete, merged.companions, MAX_TARGETS, a, b);
  }

  /** The beginning and end of every batch a refresh has just proven, and of which it loses nothing, are both up for
      the cap, which is the hypothesis of the statement above. */
  lemma LatestPairIsComplete(log: seq<Row>, previous: Proof, latest: Proof, merged: Proof, mark: Companion)
    returns (a: Companion, b: Companion)
    requires ReadFrom(log, latest) && mark in latest.companions
    requires mark.run !in Evicted(Entries(Joined(previous, latest)), Entries(merged))
    ensures var complete := Complete(Joined(previous, latest), Entries(merged));
      a in complete && b in complete && Partners(a, b) && a.number < b.number && mark in {a, b}
  {
    a, b := MarksComeInPairs(log, latest, mark);
  }

  /** So no pair is parted while the marks that are up for the cap are within it: they are all kept. */
  lemma FewMarksStayTogether(previous: Proof, latest: Proof, merged: Proof)
    requires Merges(previous, latest, merged)
    requires |Complete(Joined(previous, latest), Entries(merged))| <= MAX_TARGETS
    ensures merged.companions == Complete(Joined(previous, latest), Entries(merged))
  {
    SubsetIsNoLarger(merged.companions, Complete(Joined(previous, latest), Entries(merged)));
  }
}
