/** Keeping proofs over refreshes, within one budget and without leaving a batch half neutralised. */
module HistoryRepairCache {
  import opened Options
  import opened HistoryRepairModel

  datatype Entry = Input(target: Target) | Interruption(target: Target) | Output(replay: Replay)

  function Number(entry: Entry): int {
    match entry
    case Output(replay) => replay.number
    case Input(target) => target.number
    case Interruption(target) => target.number
  }

  function RunOf(entry: Entry): Run {
    match entry
    case Output(replay) => replay.run
    case Input(target) => target.run
    case Interruption(target) => target.run
  }

  /** Everything a proof repairs. */
  function Entries(proof: Proof): set<Entry> {
    (set t | t in proof.targets :: Input(t)) + (set t | t in proof.interruptions.Keys :: Interruption(t))
    + (set r | r in proof.replays :: Entry.Output(r))
  }

  // ---------- the highest-ranked of a set ----------

  function Elements<T>(s: seq<T>): set<T> {
    set x | x in s
  }

  function Least(a: nat, b: nat): nat {
    if a <= b then a else b
  }

  ghost predicate Top<T(!new)>(all: set<T>, kept: set<T>, limit: nat, rank: T -> int) {
    && kept <= all
    && |kept| == Least(|all|, limit)
    && (forall k, e :: k in kept && e in all && e !in kept ==> rank(k) >= rank(e))
  }

  ghost predicate Descending<T>(sorted: seq<T>, rank: T -> int) {
    forall i, j :: 0 <= i < j < |sorted| ==> rank(sorted[i]) >= rank(sorted[j])
  }

  ghost predicate Lists<T(!new)>(sorted: seq<T>, all: set<T>) {
    && (forall x :: x in sorted <==> x in all)
    && (forall i, j :: 0 <= i < j < |sorted| ==> sorted[i] != sorted[j])
  }

  lemma InsertedDescends<T(!new)>(sorted: seq<T>, x: T, rank: T -> int, i: nat)
    requires Descending(sorted, rank) && i <= |sorted|
    requires forall j :: 0 <= j < i ==> rank(sorted[j]) >= rank(x)
    requires i < |sorted| ==> rank(sorted[i]) < rank(x)
    ensures Descending(sorted[..i] + [x] + sorted[i..], rank)
  {
    var longer := sorted[..i] + [x] + sorted[i..];
    forall a, b | 0 <= a < b < |longer| ensures rank(longer[a]) >= rank(longer[b]) {
      var p, q := if a < i then a else a - 1, if b < i then b else b - 1;
      assert a != i ==> longer[a] == sorted[p];
      assert b != i ==> longer[b] == sorted[q];
    }
  }

  lemma InsertedLists<T(!new)>(sorted: seq<T>, x: T, i: nat, all: set<T>)
    requires Lists(sorted, all) && x !in all && i <= |sorted|
    ensures Lists(sorted[..i] + [x] + sorted[i..], all + {x})
  {
    var longer := sorted[..i] + [x] + sorted[i..];
    assert sorted == sorted[..i] + sorted[i..];
    forall y ensures y in longer <==> y in all + {x} {
      assert y in longer <==> y in sorted[..i] || y == x || y in sorted[i..];
      assert y in sorted <==> y in sorted[..i] || y in sorted[i..];
    }
    forall a, b | 0 <= a < b < |longer| ensures longer[a] != longer[b] {
      var p, q := if a < i then a else a - 1, if b < i then b else b - 1;
      assert a != i ==> longer[a] == sorted[p] && sorted[p] in sorted;
      assert b != i ==> longer[b] == sorted[q] && sorted[q] in sorted;
    }
  }

  method Insert<T(==, !new)>(sorted: seq<T>, x: T, rank: T -> int, ghost all: set<T>) returns (longer: seq<T>)
    requires Descending(sorted, rank) && Lists(sorted, all) && x !in all
    ensures Descending(longer, rank) && Lists(longer, all + {x})
  {
    var i := 0;
    while i < |sorted| && rank(sorted[i]) >= rank(x)
      invariant i <= |sorted|
      invariant forall j :: 0 <= j < i ==> rank(sorted[j]) >= rank(x)
    {
      i := i + 1;
    }
    InsertedDescends(sorted, x, rank, i);
    InsertedLists(sorted, x, i, all);
    longer := sorted[..i] + [x] + sorted[i..];
  }

  method Sorted<T(==, !new)>(all: set<T>, rank: T -> int) returns (sorted: seq<T>)
    ensures Descending(sorted, rank) && Lists(sorted, all)
  {
    sorted := [];
    var todo := all;
    while todo != {}
      invariant todo <= all && Descending(sorted, rank) && Lists(sorted, all - todo)
      decreases todo
    {
      var x :| x in todo;
      ghost var done := all - todo;
      todo := todo - {x};
      assert all - todo == done + {x};
      sorted := Insert(sorted, x, rank, done);
    }
    assert all - todo == all;
  }

  lemma {:induction false} ListSize<T(!new)>(sorted: seq<T>, all: set<T>)
    requires Lists(sorted, all)
    ensures |sorted| == |all|
  {
    if sorted == [] {
      assert all == {};
    } else {
      var x := sorted[|sorted| - 1];
      var rest := sorted[..|sorted| - 1];
      assert x in sorted;
      forall y ensures y in rest <==> y in all - {x} {
        assert sorted == rest + [x];
        assert y in sorted <==> y in all;
      }
      ListSize(rest, all - {x});
    }
  }

  /** The first entries of the sorted list are the highest-ranked ones. */
  lemma PrefixIsTop<T(!new)>(sorted: seq<T>, all: set<T>, limit: nat, rank: T -> int, kept: set<T>)
    requires Descending(sorted, rank) && Lists(sorted, all)
    requires kept == Elements(sorted[..Least(|sorted|, limit)])
    ensures Top(all, kept, limit, rank)
  {
    var n := Least(|sorted|, limit);
    ListSize(sorted, all);
    assert Lists(sorted[..n], kept);
    ListSize(sorted[..n], kept);
    forall x | x in kept ensures x in all {
      assert x in sorted;
    }
    forall k, e | k in kept && e in all && e !in kept ensures rank(k) >= rank(e) {
      var i :| 0 <= i < n && sorted[i] == k;
      assert e in sorted;
      var j :| 0 <= j < |sorted| && sorted[j] == e;
      forall a | 0 <= a < n ensures sorted[a] != e {
        assert sorted[..n][a] == sorted[a];
      }
    }
  }

  // ---------- merging two proofs ----------

  /** Both proofs read the same transcript and the same log, neither of them replaced or cut short in between. */
  predicate Extends(previous: Proof, latest: Proof) {
    && previous.provider == latest.provider && previous.source.Some? && previous.source == latest.source
    && previous.sourceStamp.Some? && latest.sourceStamp.Some?
    && Grows(previous.events, latest.events) && Grows(previous.sourceStamp.value, latest.sourceStamp.value)
  }

  predicate Grows(before: Stamp, after: Stamp) {
    before.dev == after.dev && before.ino == after.ino && (before.size < after.size || before == after)
  }

  function Joined(previous: Proof, latest: Proof): Proof {
    latest.(targets := previous.targets + latest.targets, interruptions := previous.interruptions + latest.interruptions,
           companions := previous.companions + latest.companions, replays := previous.replays + latest.replays)
  }

  ghost function Evicted(all: set<Entry>, kept: set<Entry>): set<Run> {
    set entry | entry in all && entry !in kept :: RunOf(entry)
  }

  function Position(companion: Companion): int {
    companion.number
  }

  /** The marks of batches that lost nothing. */
  ghost function Complete(joined: Proof, kept: set<Entry>): set<Companion> {
    set c | c in joined.companions && c.run !in Evicted(Entries(joined), kept)
  }

  ghost predicate Merges(previous: Proof, latest: Proof, merged: Proof) {
    var joined := Joined(previous, latest);
    && Top(Entries(joined), Entries(merged), MAX_TARGETS, Number)
    && Top(Complete(joined, Entries(merged)), merged.companions, MAX_TARGETS, Position)
    && (forall t :: t in merged.interruptions && t in joined.interruptions ==> merged.interruptions[t] == joined.interruptions[t])
    && merged == latest.(targets := merged.targets, interruptions := merged.interruptions,
                        companions := merged.companions, replays := merged.replays)
  }

  /** What is left of a proof after its entries and marks have been cut down. */
  function Trimmed(joined: Proof, kept: set<Entry>, marks: set<Companion>): Proof {
    joined.(targets := set entry | entry in kept && entry.Input? :: entry.target,
            interruptions := map t | t in joined.interruptions && Interruption(t) in kept :: joined.interruptions[t],
            companions := marks,
            replays := set entry | entry in kept && entry.Output? :: entry.replay)
  }

  method Merge(previous: Proof, latest: Proof) returns (merged: Proof)
    ensures Merges(previous, latest, merged)
  {
    var joined := Joined(previous, latest);
    var entries := Sorted(Entries(joined), Number);
    var n := Least(|entries|, MAX_TARGETS);
    var evicted := set entry | entry in entries[n..] :: RunOf(entry);
    var kept := Elements(entries[..n]);
    PrefixIsTop(entries, Entries(joined), MAX_TARGETS, Number, kept);
    SplitEntries(entries, n, Entries(joined), kept);
    assert evicted == Evicted(Entries(joined), kept);
    var complete := set c | c in joined.companions && c.run !in evicted;
    var companions := Sorted(complete, Position);
    var marks := Elements(companions[..Least(|companions|, MAX_TARGETS)]);
    PrefixIsTop(companions, complete, MAX_TARGETS, Position, marks);
    merged := Trimmed(joined, kept, marks);
    KeptEntries(joined, kept, merged);
    TrimmedMerges(previous, latest, kept, marks);
  }

  lemma TrimmedMerges(previous: Proof, latest: Proof, kept: set<Entry>, marks: set<Companion>)
    requires var joined := Joined(previous, latest);
             Top(Entries(joined), kept, MAX_TARGETS, Number) && Top(Complete(joined, kept), marks, MAX_TARGETS, Position)
    requires Entries(Trimmed(Joined(previous, latest), kept, marks)) == kept
    ensures Merges(previous, latest, Trimmed(Joined(previous, latest), kept, marks))
  {
  }

  lemma KeptEntries(joined: Proof, kept: set<Entry>, merged: Proof)
    requires kept <= Entries(joined)
    requires merged.targets == set entry | entry in kept && entry.Input? :: entry.target
    requires merged.replays == set entry | entry in kept && entry.Output? :: entry.replay
    requires merged.interruptions.Keys == set t | t in joined.interruptions && Interruption(t) in kept
    ensures Entries(merged) == kept
  {
    forall entry ensures entry in Entries(merged) <==> entry in kept {
      match entry
      case Input(t) => assert entry in kept ==> t in merged.targets;
      case Interruption(t) => assert entry in kept ==> t in joined.interruptions;
      case Output(r) => assert entry in kept ==> r in merged.replays;
    }
  }

  lemma SplitEntries(entries: seq<Entry>, n: nat, all: set<Entry>, kept: set<Entry>)
    requires n <= |entries| && Lists(entries, all) && kept == Elements(entries[..n])
    ensures forall entry :: entry in entries[n..] <==> entry in all && entry !in kept
  {
    forall entry ensures entry in entries[n..] <==> entry in all && entry !in kept {
      assert entries == entries[..n] + entries[n..];
      assert entry in entries <==> entry in all;
      assert forall i, j :: 0 <= i < n && n <= j < |entries| ==> entries[i] != entries[j];
    }
  }

  lemma JoinedEntries(previous: Proof, latest: Proof)
    ensures Entries(Joined(previous, latest)) == Entries(previous) + Entries(latest)
  {
    var joined := Joined(previous, latest);
    assert joined.interruptions.Keys == previous.interruptions.Keys + latest.interruptions.Keys;
    forall entry ensures entry in Entries(joined) <==> entry in Entries(previous) + Entries(latest) {
      match entry
      case Input(t) => assert t in joined.targets <==> t in previous.targets || t in latest.targets;
      case Interruption(t) => assert t in joined.interruptions.Keys <==> t in previous.interruptions.Keys || t in latest.interruptions.Keys;
      case Output(r) => assert r in joined.replays <==> r in previous.replays || r in latest.replays;
    }
  }

  /** At most the budget is kept, and a mark is kept only beside every repair of its batch. */
  lemma NoPartialBatch(previous: Proof, latest: Proof, merged: Proof)
    requires Merges(previous, latest, merged)
    ensures |Entries(merged)| <= MAX_TARGETS && |merged.companions| <= MAX_TARGETS
    ensures merged.companions <= previous.companions + latest.companions
    ensures forall c, entry :: c in merged.companions && entry in Entries(previous) + Entries(latest) && RunOf(entry) == c.run
              ==> entry in Entries(merged)
    ensures forall entry :: entry in Entries(merged) ==> entry in Entries(previous) + Entries(latest)
  {
    JoinedEntries(previous, latest);
    forall c, entry | c in merged.companions && entry in Entries(Joined(previous, latest)) && RunOf(entry) == c.run
      ensures entry in Entries(merged)
    {
      assert c in Complete(Joined(previous, latest), Entries(merged));
    }
  }
}
