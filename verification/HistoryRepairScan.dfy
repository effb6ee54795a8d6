/** Reading the transcript: which record is the one source of an imported input. */
module HistoryRepairScan {
  import opened Options
  import opened HistoryRepairModel
  import opened HistoryRepair

  datatype Transcript = Transcript(
    identities: multiset<Identity>, metadata: map<(Identity, Text), seq<int>>,
    matches: map<(Identity, Text), seq<(int, Run)>>, credits: multiset<Run>)

  // ---------- which records count for what ----------

  predicate Named(record: Record, identity: Identity) {
    record.user && record.identity == Some(identity)
  }

  predicate Reads(record: Record, identity: Identity, key: Text) {
    Displayed(record) && record.identity == Some(identity) && record.display == Some(key)
  }

  ghost function NamedAt(records: seq<Record>, n: nat, identity: Identity): set<int>
    requires n <= |records|
  {
    set k | 0 <= k < n && Named(records[k], identity)
  }

  ghost function MetaAt(records: seq<Record>, n: nat, identity: Identity, key: Text): set<int>
    requires n <= |records|
  {
    set k | 0 <= k < n && Reads(records[k], identity, key) && records[k].meta
  }

  ghost predicate IsCredited(window: seq<Row>, record: Record) {
    exists run :: Attributed(window, record, run)
  }

  ghost function MatchedAt(window: seq<Row>, records: seq<Record>, n: nat, identity: Identity, key: Text): set<int>
    requires n <= |records|
  {
    set k | 0 <= k < n && Reads(records[k], identity, key) && IsCredited(window, records[k])
  }

  ghost function CreditedTo(window: seq<Row>, records: seq<Record>, n: nat, run: Run): set<int>
    requires n <= |records|
  {
    set k | 0 <= k < n && Attributed(window, records[k], run)
  }

  ghost predicate SeesNames(records: seq<Record>, n: nat, s: Transcript)
    requires n <= |records|
  {
    forall identity :: s.identities[identity] == |NamedAt(records, n, identity)|
  }

  ghost predicate MetaSeen(records: seq<Record>, n: nat, s: Transcript, identity: Identity, key: Text)
    requires n <= |records|
  {
    var found := Found(s.metadata, (identity, key));
    && |found| == |MetaAt(records, n, identity, key)|
    && (forall k :: k in MetaAt(records, n, identity, key) ==> records[k].offset in found)
  }

  ghost predicate SeesMeta(records: seq<Record>, n: nat, s: Transcript)
    requires n <= |records|
  {
    forall identity, key :: MetaSeen(records, n, s, identity, key)
  }

  ghost predicate MatchSeen(window: seq<Row>, records: seq<Record>, n: nat, s: Transcript, identity: Identity, key: Text)
    requires n <= |records|
  {
    var found := Found(s.matches, (identity, key));
    && |found| == |MatchedAt(window, records, n, identity, key)|
    && (forall k, run :: k in MatchedAt(window, records, n, identity, key) && Attributed(window, records[k], run)
          ==> (records[k].offset, run) in found)
  }

  ghost predicate SeesMatches(window: seq<Row>, records: seq<Record>, n: nat, s: Transcript)
    requires n <= |records|
  {
    forall identity, key :: MatchSeen(window, records, n, s, identity, key)
  }

  ghost predicate SeesCredits(window: seq<Row>, records: seq<Record>, n: nat, s: Transcript)
    requires n <= |records|
  {
    forall run :: s.credits[run] == |CreditedTo(window, records, n, run)|
  }

  ghost predicate Sees(window: seq<Row>, records: seq<Record>, n: nat, s: Transcript)
    requires n <= |records|
  {
    && SeesNames(records, n, s) && SeesMeta(records, n, s)
    && SeesMatches(window, records, n, s) && SeesCredits(window, records, n, s)
  }

  // ---------- reading one record ----------

  /** The scheduled run whose prompt and span the record fits, when there is exactly one. */
  method Attribute(t: Tables, key: Text, time: int, ghost window: seq<Row>) returns (run: Option<Run>)
    requires Scheduling(window, |window|, t)
    ensures run.Some? ==> IsOccurrence(window, run.value, key, time)
    ensures run.Some? ==> forall other :: IsOccurrence(window, other, key, time) ==> other == run.value
    ensures run.None? ==> forall r :: IsOccurrence(window, r, key, time) ==> exists other :: other != r && IsOccurrence(window, other, key, time)
  {
    var matches := set r | r in t.starts && Lasted(Found(t.starts, r), Found(t.ends, r), key, time);
    forall r ensures r in matches <==> IsOccurrence(window, r, key, time) {
      TablesShowOccurrence(t, window, r, key, time);
    }
    if |matches| == 1 {
      var only :| only in matches;
      OnlyOne(matches, only);
      return Some(only);
    }
    forall r | IsOccurrence(window, r, key, time) ensures exists other :: other != r && IsOccurrence(window, other, key, time) {
      var other := AnotherOne(matches, r);
      assert IsOccurrence(window, other, key, time);
    }
    return None;
  }

  lemma TablesShowOccurrence(t: Tables, window: seq<Row>, run: Run, key: Text, time: int)
    requires Scheduling(window, |window|, t)
    ensures (run in t.starts && Lasted(Found(t.starts, run), Found(t.ends, run), key, time)) <==> IsOccurrence(window, run, key, time)
  {
    assert Found(t.starts, run) == StartsOf(window, |window|, run);
    assert Found(t.ends, run) == EndsOf(window, |window|, run);
  }

  lemma AnotherOne<T>(s: set<T>, x: T) returns (y: T)
    requires |s| != 1 && x in s
    ensures y in s && y != x
  {
    assert s != {x};
    y :| y in s && y != x;
  }

  lemma OnlyOne<T>(s: set<T>, x: T)
    requires |s| == 1 && x in s
    ensures s == {x}
  {
    assert |s - {x}| == 0;
  }

  /** The transcript tables after record `n`; nothing when there are too many keys to hold. */
  method ReadRecord(s: Transcript, t: Tables, record: Record, ghost window: seq<Row>)
    returns (after: Transcript, credit: Option<Run>, within: bool)
    requires Scheduling(window, |window|, t)
    ensures forall run :: Attributed(window, record, run) <==> credit == Some(run)
    ensures credit.Some? ==> Displayed(record) && !record.meta
    ensures after.identities == s.identities + if record.user && record.identity.Some? then multiset{record.identity.value} else multiset{}
    ensures after.metadata == if Displayed(record) && record.meta
                              then Appended(s.metadata, (record.identity.value, record.display.value), record.offset) else s.metadata
    ensures after.matches == if credit.Some?
                             then Appended(s.matches, (record.identity.value, record.display.value), (record.offset, credit.value)) else s.matches
    ensures after.credits == s.credits + if credit.Some? then multiset{credit.value} else multiset{}
  {
    after, credit, within := s, None, true;
    if !record.user || record.identity.None? {
      return;
    }
    after := after.(identities := s.identities + multiset{record.identity.value});
    if record.display.None? || record.identity.value.time.None? {
      return;
    }
    var place := (record.identity.value, record.display.value);
    if record.meta {
      after := after.(metadata := Appended(s.metadata, place, record.offset));
      within := |after.identities| + |after.metadata| <= MAX_KEYS;
      return;
    }
    if record.full.None? {
      return;
    }
    credit := Attribute(t, record.full.value, TimeOf(record), window);
    if credit.Some? {
      after := after.(credits := s.credits + multiset{credit.value},
                      matches := Appended(s.matches, place, (record.offset, credit.value)));
    }
    within := |after.identities| + |after.matches| <= MAX_KEYS;
  }

  lemma NamesGrow(records: seq<Record>, n: nat, identity: Identity)
    requires n < |records|
    ensures |NamedAt(records, n + 1, identity)| == |NamedAt(records, n, identity)| + if Named(records[n], identity) then 1 else 0
  {
    var one: set<int> := if Named(records[n], identity) then {n} else {};
    assert NamedAt(records, n + 1, identity) == NamedAt(records, n, identity) + one;
  }

  lemma OneMoreName(records: seq<Record>, n: nat, s: Transcript, after: Transcript)
    requires n < |records| && SeesNames(records, n, s)
    requires after.identities == s.identities + if records[n].user && records[n].identity.Some? then multiset{records[n].identity.value} else multiset{}
    ensures SeesNames(records, n + 1, after)
  {
    forall identity ensures after.identities[identity] == |NamedAt(records, n + 1, identity)| {
      NamesGrow(records, n, identity);
    }
  }

  lemma MetaGrows(records: seq<Record>, n: nat, identity: Identity, key: Text)
    requires n < |records|
    ensures MetaAt(records, n + 1, identity, key)
         == MetaAt(records, n, identity, key) + if Reads(records[n], identity, key) && records[n].meta then {n as int} else {}
  {
  }

  lemma OneMoreMeta(records: seq<Record>, n: nat, s: Transcript, after: Transcript, identity: Identity, key: Text)
    requires n < |records| && MetaSeen(records, n, s, identity, key)
    requires after.metadata == if Displayed(records[n]) && records[n].meta
                               then Appended(s.metadata, (records[n].identity.value, records[n].display.value), records[n].offset) else s.metadata
    ensures MetaSeen(records, n + 1, after, identity, key)
  {
    var before, found := Found(s.metadata, (identity, key)), Found(after.metadata, (identity, key));
    var metas := MetaAt(records, n, identity, key);
    MetaGrows(records, n, identity, key);
    if Reads(records[n], identity, key) && records[n].meta {
      assert found == before + [records[n].offset];
      assert |metas + {n as int}| == |metas| + 1;
      forall k | k in metas + {n as int} ensures records[k].offset in found {
        if k == n {
          assert found[|before|] == records[k].offset;
        } else {
          assert records[k].offset in before;
        }
      }
    } else {
      assert found == before by {
        if Displayed(records[n]) && records[n].meta {
          FoundAfter(s.metadata, (records[n].identity.value, records[n].display.value), records[n].offset, (identity, key));
        }
      }
    }
  }

  lemma MatchGrows(window: seq<Row>, records: seq<Record>, n: nat, identity: Identity, key: Text)
    requires n < |records|
    ensures MatchedAt(window, records, n + 1, identity, key)
         == MatchedAt(window, records, n, identity, key)
            + if Reads(records[n], identity, key) && IsCredited(window, records[n]) then {n as int} else {}
  {
  }

  lemma OneMoreMatch(window: seq<Row>, records: seq<Record>, n: nat, s: Transcript, after: Transcript, credit: Option<Run>,
                     identity: Identity, key: Text)
    requires n < |records| && MatchSeen(window, records, n, s, identity, key)
    requires forall run :: Attributed(window, records[n], run) <==> credit == Some(run)
    requires credit.Some? ==> Displayed(records[n])
    requires after.matches == if credit.Some?
                              then Appended(s.matches, (records[n].identity.value, records[n].display.value), (records[n].offset, credit.value)) else s.matches
    ensures MatchSeen(window, records, n + 1, after, identity, key)
  {
    var before, found := Found(s.matches, (identity, key)), Found(after.matches, (identity, key));
    var places := MatchedAt(window, records, n, identity, key);
    MatchGrows(window, records, n, identity, key);
    assert IsCredited(window, records[n]) <==> credit.Some? by {
      assert credit.Some? ==> Attributed(window, records[n], credit.value);
    }
    if credit.Some? {
      FoundAfter(s.matches, (records[n].identity.value, records[n].display.value), (records[n].offset, credit.value), (identity, key));
    }
    if Reads(records[n], identity, key) && credit.Some? {
      assert found == before + [(records[n].offset, credit.value)];
      assert |places + {n as int}| == |places| + 1;
      forall k, run | k in places + {n as int} && Attributed(window, records[k], run)
        ensures (records[k].offset, run) in found
      {
        if k == n {
          assert found[|before|] == (records[k].offset, run);
        } else {
          assert (records[k].offset, run) in before;
        }
      }
    } else {
      assert found == before;
    }
  }

  lemma CreditsGrow(window: seq<Row>, records: seq<Record>, n: nat, run: Run)
    requires n < |records|
    ensures |CreditedTo(window, records, n + 1, run)|
         == |CreditedTo(window, records, n, run)| + if Attributed(window, records[n], run) then 1 else 0
  {
    var one: set<int> := if Attributed(window, records[n], run) then {n} else {};
    assert CreditedTo(window, records, n + 1, run) == CreditedTo(window, records, n, run) + one;
  }

  lemma OneMoreCredit(window: seq<Row>, records: seq<Record>, n: nat, s: Transcript, after: Transcript, credit: Option<Run>)
    requires n < |records| && SeesCredits(window, records, n, s)
    requires forall run :: Attributed(window, records[n], run) <==> credit == Some(run)
    requires after.credits == s.credits + if credit.Some? then multiset{credit.value} else multiset{}
    ensures SeesCredits(window, records, n + 1, after)
  {
    forall run ensures after.credits[run] == |CreditedTo(window, records, n + 1, run)| {
      CreditsGrow(window, records, n, run);
    }
  }

  method Scan(records: seq<Record>, t: Tables, ghost window: seq<Row>) returns (transcript: Option<Transcript>)
    requires Scheduling(window, |window|, t)
    ensures transcript.Some? ==> Sees(window, records, |records|, transcript.value)
  {
    var s := Transcript(multiset{}, map[], map[], multiset{});
    var n := 0;
    while n < |records|
      invariant n <= |records| && Sees(window, records, n, s)
    {
      var after, credit, within := ReadRecord(s, t, records[n], window);
      OneMoreName(records, n, s, after);
      OneMoreCredit(window, records, n, s, after, credit);
      ghost var before, m := s, n;
      s, n := after, n + 1;
      forall identity, key ensures MetaSeen(records, n, s, identity, key) {
        OneMoreMeta(records, m, before, s, identity, key);
      }
      forall identity, key ensures MatchSeen(window, records, n, s, identity, key) {
        OneMoreMatch(window, records, m, before, s, credit, identity, key);
      }
      if !within {
        return None;
      }
    }
    return Some(s);
  }

  // ---------- deciding one input ----------

  predicate Inside(batch: Batch, offset: int) {
    batch.checkpoint.start < offset <= batch.checkpoint.end
  }

  lemma ClaimedOnce(window: seq<Row>, t: Tables, candidate: Candidate)
    requires Listed(window, |window|, t) && candidate in t.candidates
    ensures t.origins[(candidate.target.run, candidate.identity)] == 1
       <==> OnlyCandidate(t.candidates, candidate.target.run, candidate.identity)
  {
    var run, identity := candidate.target.run, candidate.identity;
    var places := OriginsOf(t.candidates, run, identity);
    var i :| 0 <= i < |t.candidates| && t.candidates[i] == candidate;
    assert i in places;
    if |places| == 1 {
      OnlyOne(places, i);
      forall a, b | 0 <= a < |t.candidates| && 0 <= b < |t.candidates|
        ensures Claims(t.candidates[a], run, identity) && Claims(t.candidates[b], run, identity) ==> a == b
      {
        assert Claims(t.candidates[a], run, identity) <==> a in places;
        assert Claims(t.candidates[b], run, identity) <==> b in places;
      }
    }
    if OnlyCandidate(t.candidates, run, identity) {
      assert places == {i} by {
        forall j | j in places ensures j == i {
          assert Claims(t.candidates[j], run, identity) && Claims(t.candidates[i], run, identity);
        }
      }
    }
  }

  /** What the four counts say together. */
  predicate Decided(s: Transcript, candidate: Candidate, batch: Batch) {
    var place := (candidate.identity, candidate.target.key);
    var metadata, matched := Found(s.metadata, place), Found(s.matches, place);
    && s.identities[candidate.identity] == 1 && batch.first < candidate.target.number < batch.last
    && (|| (|metadata| == 1 && Inside(batch, metadata[0]))
        || (|matched| == 1 && s.credits[matched[0].1] == 1 && Inside(batch, matched[0].0)))
  }

  lemma TheOnlyName(window: seq<Row>, records: seq<Record>, s: Transcript, identity: Identity, k: int)
    requires Sees(window, records, |records|, s) && s.identities[identity] == 1
    requires 0 <= k < |records| && Named(records[k], identity)
    ensures forall j :: 0 <= j < |records| && Named(records[j], identity) ==> j == k
  {
    var names := NamedAt(records, |records|, identity);
    assert k in names;
    OnlyOne(names, k);
    forall j | 0 <= j < |records| && Named(records[j], identity) ensures j == k {
      assert j in names;
    }
  }

  lemma NamedSource(window: seq<Row>, records: seq<Record>, s: Transcript, candidate: Candidate, k: int)
    requires Sees(window, records, |records|, s) && s.identities[candidate.identity] == 1
    requires 0 <= k < |records| && Reads(records[k], candidate.identity, candidate.target.key)
    ensures SourceIs(records, candidate, k)
  {
    TheOnlyName(window, records, s, candidate.identity, k);
    forall j | 0 <= j < |records| && records[j].user && records[j].identity == Some(candidate.identity) ensures j == k {
      assert Named(records[j], candidate.identity);
    }
  }

  lemma FlaggedSource(window: seq<Row>, records: seq<Record>, s: Transcript, candidate: Candidate, batch: Batch) returns (k: nat)
    requires Sees(window, records, |records|, s) && s.identities[candidate.identity] == 1
    requires batch.first < candidate.target.number < batch.last
    requires var metadata := Found(s.metadata, (candidate.identity, candidate.target.key));
             |metadata| == 1 && Inside(batch, metadata[0])
    ensures ProvenBy(window, records, candidate, batch, k)
  {
    assert MetaSeen(records, |records|, s, candidate.identity, candidate.target.key);
    var metas := MetaAt(records, |records|, candidate.identity, candidate.target.key);
    assert |metas| == 1;
    var m :| m in metas;
    k := m;
    assert records[k].offset in Found(s.metadata, (candidate.identity, candidate.target.key));
    NamedSource(window, records, s, candidate, k);
  }

  lemma ScheduledSource(window: seq<Row>, records: seq<Record>, s: Transcript, candidate: Candidate, batch: Batch) returns (k: nat)
    requires Sees(window, records, |records|, s) && s.identities[candidate.identity] == 1
    requires batch.first < candidate.target.number < batch.last
    requires var matched := Found(s.matches, (candidate.identity, candidate.target.key));
             |matched| == 1 && s.credits[matched[0].1] == 1 && Inside(batch, matched[0].0)
    ensures ProvenBy(window, records, candidate, batch, k)
  {
    var matched := Found(s.matches, (candidate.identity, candidate.target.key));
    assert MatchSeen(window, records, |records|, s, candidate.identity, candidate.target.key);
    var places := MatchedAt(window, records, |records|, candidate.identity, candidate.target.key);
    assert |places| == 1;
    var m :| m in places;
    k := m;
    var run :| Attributed(window, records[k], run);
    assert (records[k].offset, run) in matched;
    assert matched[0] == (records[k].offset, run);
    var credited := CreditedTo(window, records, |records|, run);
    assert k in credited && |credited| == 1;
    OnlyOne(credited, k);
    assert forall j :: 0 <= j < |records| && Attributed(window, records[j], run) ==> j in credited;
    NamedSource(window, records, s, candidate, k);
    assert Scheduled(window, records, k);
  }

  lemma SourceDecides(window: seq<Row>, records: seq<Record>, s: Transcript, candidate: Candidate, batch: Batch, k: nat)
    requires Sees(window, records, |records|, s) && ProvenBy(window, records, candidate, batch, k)
    ensures Decided(s, candidate, batch)
  {
    var identity, key := candidate.identity, candidate.target.key;
    assert NamedAt(records, |records|, identity) == {k} by {
      assert Named(records[k], identity);
    }
    if records[k].meta {
      assert MetaSeen(records, |records|, s, identity, key);
      assert MetaAt(records, |records|, identity, key) == {k};
      assert records[k].offset in Found(s.metadata, (identity, key));
    } else {
      var run :| Attributed(window, records[k], run)
        && (forall j :: 0 <= j < |records| && Attributed(window, records[j], run) ==> j == k);
      assert IsCredited(window, records[k]);
      assert MatchSeen(window, records, |records|, s, identity, key);
      assert MatchedAt(window, records, |records|, identity, key) == {k};
      assert CreditedTo(window, records, |records|, run) == {k};
      assert (records[k].offset, run) in Found(s.matches, (identity, key));
    }
  }

  /** The counts decide exactly whether the input has one source that proves it. */
  lemma DecidedExactlyWhenProven(window: seq<Row>, records: seq<Record>, s: Transcript, candidate: Candidate, batch: Batch)
    requires Sees(window, records, |records|, s)
    ensures Decided(s, candidate, batch) <==> exists k: nat :: ProvenBy(window, records, candidate, batch, k)
  {
    if Decided(s, candidate, batch) {
      var metadata := Found(s.metadata, (candidate.identity, candidate.target.key));
      if |metadata| == 1 && Inside(batch, metadata[0]) {
        var k := FlaggedSource(window, records, s, candidate, batch);
      } else {
        var k := ScheduledSource(window, records, s, candidate, batch);
      }
    }
    if k: nat :| ProvenBy(window, records, candidate, batch, k) {
      SourceDecides(window, records, s, candidate, batch, k);
    }
  }

  method DecideInput(s: Transcript, t: Tables, candidate: Candidate, batch: Batch, ghost window: seq<Row>, ghost records: seq<Record>)
    returns (proven: bool)
    requires Sees(window, records, |records|, s) && Listed(window, |window|, t) && candidate in t.candidates
    ensures proven <==> (&& OnlyCandidate(t.candidates, candidate.target.run, candidate.identity)
                         && exists k: nat :: ProvenBy(window, records, candidate, batch, k))
  {
    ClaimedOnce(window, t, candidate);
    DecidedExactlyWhenProven(window, records, s, candidate, batch);
    if t.origins[(candidate.target.run, candidate.identity)] != 1 || s.identities[candidate.identity] != 1 {
      return false;
    }
    var place := (candidate.identity, candidate.target.key);
    var metadata, matched := Found(s.metadata, place), Found(s.matches, place);
    var flagged := |metadata| == 1 && Inside(batch, metadata[0]);
    var scheduled := |matched| == 1 && s.credits[matched[0].1] == 1 && Inside(batch, matched[0].0);
    proven := batch.first < candidate.target.number < batch.last && (flagged || scheduled);
  }

  // ---------- one occurrence proves one input ----------

  /** Two inputs proven by the same scheduled run come from one record; in one batch, or in batches that read
      different stretches of the transcript, they are the same input. */
  lemma OneOccurrenceOneInput(window: seq<Row>, records: seq<Record>, candidates: seq<Candidate>,
                              c: Candidate, cb: Batch, ck: nat, d: Candidate, db: Batch, dk: nat, run: Run)
    requires c in candidates && OnlyCandidate(candidates, c.target.run, c.identity) && ProvenBy(window, records, c, cb, ck)
    requires d in candidates && OnlyCandidate(candidates, d.target.run, d.identity) && ProvenBy(window, records, d, db, dk)
    requires !records[ck].meta && !records[dk].meta
    requires Attributed(window, records[ck], run) && Attributed(window, records[dk], run)
    ensures ck == dk && c.identity == d.identity && c.target.key == d.target.key
    ensures c != d ==> c.target.run != d.target.run
                       && Inside(cb, records[ck].offset) && Inside(db, records[ck].offset)
  {
    var other :| Attributed(window, records[ck], other)
      && (forall j :: 0 <= j < |records| && Attributed(window, records[j], other) ==> j == ck);
    assert other == run;
    if c.target.run == d.target.run {
      var i :| 0 <= i < |candidates| && candidates[i] == c;
      var j :| 0 <= j < |candidates| && candidates[j] == d;
      assert Claims(candidates[i], c.target.run, c.identity) && Claims(candidates[j], c.target.run, c.identity);
    }
  }
}
