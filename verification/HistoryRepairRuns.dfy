/** The cached proof of one session over any run of refreshes, failures and cancellations. */
module HistoryRepairRuns {
  import opened Options
  import opened HistoryRepairModel
  import opened HistoryRepairCache
  import P = HistoryRepairProof

  /** `latest` is what the proof attempt of this request comes to, none when it fails. */
  datatype Request = Prepare(provider: Text, latest: Option<Proof>, refresh: bool, cancelled: bool) | Forget

  datatype Signature = Signature(targets: set<Target>, interruptions: map<Target, Text>,
                                 companions: set<Companion>, replays: set<Replay>)

  function SignatureOf(proof: Option<Proof>): Signature {
    if proof.None? then Signature({}, map[], {}, {})
    else Signature(proof.value.targets, proof.value.interruptions, proof.value.companions, proof.value.replays)
  }

  predicate Reuses(before: Option<Proof>, request: Request) {
    request.Prepare? && before.Some? && before.value.provider == request.provider && !request.refresh
  }

  function Attempt(request: Request): Proof {
    if request.Prepare? && request.latest.Some? then request.latest.value.(provider := request.provider)
    else EmptyProof(if request.Prepare? then request.provider else 0, Stamp(0, 0, 0, 0))
  }

  ghost predicate Steps(before: Option<Proof>, request: Request, after: Option<Proof>) {
    if Reuses(before, request) then after == before
    else if request.Forget? || request.cancelled then after == None
    else
      && after.Some?
      && if request.refresh && before.Some? && Extends(before.value, Attempt(request))
         then Merges(before.value, Attempt(request), after.value)
         else after == Some(Attempt(request))
  }

  class Session {
    var proof: Option<Proof>

    constructor ()
      ensures proof == None
    {
      proof := None;
    }

    /** Says whether what is hidden or marked has changed. */
    method Prepare(provider: Text, latest: Option<Proof>, refresh: bool, cancelled: bool) returns (changed: bool)
      modifies this
      ensures Steps(old(proof), Request.Prepare(provider, latest, refresh, cancelled), proof)
      ensures changed <==> SignatureOf(old(proof)) != SignatureOf(proof)
    {
      var previous := proof;
      if previous.Some? && previous.value.provider == provider && !refresh {
        return false;
      }
      if !refresh {
        proof := None;
      }
      var attempt := if latest.Some? then latest.value.(provider := provider) else EmptyProof(provider, Stamp(0, 0, 0, 0));
      if refresh && previous.Some? && Extends(previous.value, attempt) {
        attempt := Merge(previous.value, attempt);
      }
      if cancelled {
        proof := None;
        return SignatureOf(previous) != SignatureOf(None);
      }
      proof := Some(attempt);
      return SignatureOf(previous) != SignatureOf(proof);
    }

    method Forget()
      modifies this
      ensures Steps(old(proof), Request.Forget, proof)
    {
      proof := None;
    }
  }

  // ---------- where a cached repair comes from ----------

  predicate SameFiles(origin: Proof, cached: Proof) {
    || origin == cached
    || (&& origin.provider == cached.provider && origin.source == cached.source && Grows(origin.events, cached.events)
        && origin.sourceStamp.Some? && cached.sourceStamp.Some? && Grows(origin.sourceStamp.value, cached.sourceStamp.value))
  }

  /** The proof that established the mark, with all it proved of the batch still cached. */
  ghost predicate BacksMark(origin: Proof, cached: Proof, mark: Companion) {
    && SameFiles(origin, cached) && mark in origin.companions
    && (forall entry :: entry in Entries(origin) && RunOf(entry) == mark.run ==> entry in Entries(cached))
  }

  ghost predicate BacksEntry(origin: Proof, cached: Proof, entry: Entry) {
    SameFiles(origin, cached) && entry in Entries(origin)
  }

  ghost predicate Accounted(history: seq<Proof>, cached: Option<Proof>) {
    cached.Some? ==>
      && (forall mark :: mark in cached.value.companions ==> exists origin :: origin in history && BacksMark(origin, cached.value, mark))
      && (forall entry :: entry in Entries(cached.value) ==> exists origin :: origin in history && BacksEntry(origin, cached.value, entry))
  }

  lemma FilesStaySame(origin: Proof, previous: Proof, latest: Proof, merged: Proof)
    requires SameFiles(origin, previous) && Extends(previous, latest)
    requires merged.provider == latest.provider && merged.source == latest.source
    requires merged.events == latest.events && merged.sourceStamp == latest.sourceStamp
    ensures SameFiles(origin, merged)
  {
  }

  lemma MergeIsAccounted(history: seq<Proof>, previous: Proof, latest: Proof, merged: Proof)
    requires Accounted(history, Some(previous)) && Extends(previous, latest) && Merges(previous, latest, merged)
    ensures Accounted(history + [latest], Some(merged))
  {
    NoPartialBatch(previous, latest, merged);
    var longer := history + [latest];
    assert latest == longer[|history|];
    forall mark | mark in merged.companions ensures exists origin :: origin in longer && BacksMark(origin, merged, mark) {
      if mark in latest.companions {
        assert BacksMark(latest, merged, mark);
      } else {
        var origin :| origin in history && BacksMark(origin, previous, mark);
        FilesStaySame(origin, previous, latest, merged);
        assert BacksMark(origin, merged, mark);
      }
    }
    forall entry | entry in Entries(merged) ensures exists origin :: origin in longer && BacksEntry(origin, merged, entry) {
      if entry in Entries(latest) {
        assert BacksEntry(latest, merged, entry);
      } else {
        var origin :| origin in history && BacksEntry(origin, previous, entry);
        FilesStaySame(origin, previous, latest, merged);
        assert BacksEntry(origin, merged, entry);
      }
    }
  }

  lemma StepIsAccounted(history: seq<Proof>, before: Option<Proof>, request: Request, after: Option<Proof>)
    requires Accounted(history, before) && Steps(before, request, after)
    ensures Accounted(history + [Attempt(request)], after)
  {
    var longer := history + [Attempt(request)];
    assert Attempt(request) == longer[|history|];
    if Reuses(before, request) {
      forall mark | mark in after.value.companions ensures exists origin :: origin in longer && BacksMark(origin, after.value, mark) {
        var origin :| origin in history && BacksMark(origin, before.value, mark);
        assert origin in longer;
      }
      forall entry | entry in Entries(after.value) ensures exists origin :: origin in longer && BacksEntry(origin, after.value, entry) {
        var origin :| origin in history && BacksEntry(origin, before.value, entry);
        assert origin in longer;
      }
    } else if request.Prepare? && !request.cancelled {
      if request.refresh && before.Some? && Extends(before.value, Attempt(request)) {
        MergeIsAccounted(history, before.value, Attempt(request), after.value);
      } else {
        forall mark | mark in after.value.companions ensures BacksMark(Attempt(request), after.value, mark) {
        }
        forall entry | entry in Entries(after.value) ensures BacksEntry(Attempt(request), after.value, entry) {
        }
      }
    }
  }

  ghost predicate IsRun(requests: seq<Request>, states: seq<Option<Proof>>) {
    && |states| == |requests| + 1 && states[0] == None
    && (forall i :: 0 <= i < |requests| ==> Steps(states[i], requests[i], states[i + 1]))
  }

  function Attempts(requests: seq<Request>): seq<Proof> {
    if requests == [] then [] else Attempts(requests[..|requests| - 1]) + [Attempt(requests[|requests| - 1])]
  }

  /** After any run, every cached repair and mark was established by a proof over the same, only grown, files, and
      a mark never outlives a repair that the proof establishing it held of its batch. */
  lemma {:induction false} EveryRunIsAccounted(requests: seq<Request>, states: seq<Option<Proof>>)
    requires IsRun(requests, states)
    ensures Accounted(Attempts(requests), states[|requests|])
    decreases |requests|
  {
    if requests == [] {
    } else {
      var n := |requests| - 1;
      EveryRunIsAccounted(requests[..n], states[..n + 1]);
      assert Steps(states[n], requests[n], states[n + 1]);
      StepIsAccounted(Attempts(requests[..n]), states[n], requests[n], states[n + 1]);
    }
  }

  lemma MarkedRowRepeats(window: seq<Row>, file: File, origin: Proof, mark: Companion, i: nat)
    requires P.Establishes(window, file, origin) && mark in origin.companions
    requires i < |window| && InRun(window[i], mark.run)
    requires window[i].number != BatchOf(window, mark.run).value.first
    requires window[i].number != BatchOf(window, mark.run).value.last
    ensures Repeated(origin.targets, origin.replays, window[i])
  {
    assert P.Marks(window, origin.targets, origin.replays, mark.run);
  }

  lemma RepeatsStay(origin: Proof, cached: Proof, mark: Companion, row: Row)
    requires BacksMark(origin, cached, mark) && Repeated(origin.targets, origin.replays, row) && InRun(row, mark.run)
    ensures Repeated(cached.targets, cached.replays, row)
  {
    if InputTarget(row).Some? && InputTarget(row).value in origin.targets {
      assert Input(InputTarget(row).value) in Entries(origin);
      assert Input(InputTarget(row).value) in Entries(cached);
    } else {
      assert Entry.Output(AssistantTarget(row).value) in Entries(origin);
      assert Entry.Output(AssistantTarget(row).value) in Entries(cached);
    }
  }

  /** Whatever was refreshed since, a batch marked by a proof over a window stays repeated row by row. */
  lemma RefreshedBatchStaysNeutral(window: seq<Row>, file: File, origin: Proof, cached: Proof, mark: Companion, i: nat)
    requires Increasing(window, |window|) && P.Establishes(window, file, origin) && BacksMark(origin, cached, mark)
    requires i < |window| && InRun(window[i], mark.run)
    requires window[i].number != BatchOf(window, mark.run).value.first
    requires window[i].number != BatchOf(window, mark.run).value.last
    ensures Neutralised(cached, window[i])
  {
    MarkedRowRepeats(window, file, origin, mark, i);
    RepeatsStay(origin, cached, mark, window[i]);
  }
}
