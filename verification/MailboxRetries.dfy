/** Asking for a page again: nothing but an edit of its messages can make the retry conflict. */
module MailboxRetries {
  import opened Options
  import opened MailboxModel
  import opened MailboxReads
  import opened MailboxRuns

  // ---------- a claimed page fits, and goes on fitting ----------

  /** A page that a read has just claimed fits as it stands, with its receipts. */
  lemma ClaimedPageFits(l: Ledger, read: nat, r: Request)
    requires Fresh(l, read, r) && FreshPage(l, read, r).Paged?
    ensures var next := ReadBatch(l, read, r).0;
      var key := PageKey(read, r.after);
      && key in next.pages
      && AllKnown(next, next.pages[key].members)
      && (next.pages[key].members != [] ==> Fits(next, next.pages[key].members, None))
  {
    var rows := Rows(l, UnreadFilter(l, read, r));
    SelectedAreKnown(l, UnreadFilter(l, read, r), 1);
    PageSpec(l, rows, r.limit, Some(Receipt(read, r.now)));
    FreshPageClaims(l, read, r);
    ReadBatchEffect(l, read, r);
    var page := FreshPage(l, read, r);
    forall i | 0 <= i < |page.rows| ensures Known(l, page.rows[i]) {
      assert page.rows[i] == rows[i];
    }
    ReceiptsGiven(l, read, r, page.rows, page.more);
    SameTotalSize(l, Claimed(l, read, r, page.rows, page.more), page.rows, Receipt(read, r.now));
  }

  /** The message is projected at the same size as before. */
  ghost predicate SizeKept(l: Ledger, next: Ledger, n: nat) {
    && Known(l, n) && Known(next, n)
    && At(next, n).id == At(l, n).id && At(next, n).receipt == At(l, n).receipt
    && At(l, n).id in l.envelopes && At(l, n).id in next.envelopes
    && next.envelopes[At(l, n).id].size == l.envelopes[At(l, n).id].size
  }

  lemma {:induction false} TotalSizeKept(l: Ledger, next: Ledger, rows: seq<nat>)
    requires forall i :: 0 <= i < |rows| ==> SizeKept(l, next, rows[i])
    ensures AllKnown(l, rows) && AllKnown(next, rows)
    ensures TotalSize(next, rows, None) == TotalSize(l, rows, None)
    decreases |rows|
  {
    if rows != [] {
      TotalSizeKept(l, next, rows[..|rows| - 1]);
    }
  }

  lemma ReadLeavesEnvelopes(l: Ledger, r: Request)
    ensures ReadSender(l, r).0.envelopes == l.envelopes
  {
    var found := Matching(l.batches, r.target, r.request, 0);
    MatchingInRange(l.batches, r.target, r.request, 0);
    if 1 <= r.limit {
      if found == [] {
        ReadBatchEffect(Opened(l, r), |l.batches|, r);
      } else {
        ReadBatchEffect(l, found[0], r);
      }
    }
  }

  lemma CommandKeepsSize(l: Ledger, c: Command, n: nat)
    requires Inv(l) && Known(l, n) && At(l, n).receipt.Some?
    requires c.EditEnvelope? ==> c.id != At(l, n).id
    ensures SizeKept(l, Apply(l, c), n)
  {
    CommandEvolves(l, c);
    assert SameRow(l, Apply(l, c), n);
    match c
    case CancelMessage(id) => CancelEffect(l, id);
    case ReadPage(request) => ReadLeavesEnvelopes(l, request);
    case _ =>
  }

  predicate LeavesAlone(l: Ledger, run: seq<Command>, members: seq<nat>)
    requires AllKnown(l, members)
  {
    forall i, j :: 0 <= i < |run| && 0 <= j < |members| && run[i].EditEnvelope? ==> run[i].id != At(l, members[j]).id
  }

  lemma MembersAreRead(l: Ledger, key: PageKey)
    requires Inv(l) && key in l.pages
    ensures forall i :: 0 <= i < |l.pages[key].members| ==>
      Known(l, l.pages[key].members[i]) && At(l, l.pages[key].members[i]).receipt.Some?
  {
    forall i | 0 <= i < |l.pages[key].members|
      ensures Known(l, l.pages[key].members[i]) && At(l, l.pages[key].members[i]).receipt.Some?
    {
      assert l.pages[key].members[i] in l.pages[key].members;
      assert ReadBy(l, l.pages[key].members[i], key);
    }
  }

  lemma {:induction false} RunKeepsSizes(l: Ledger, run: seq<Command>, key: PageKey)
    requires Inv(l) && key in l.pages && AllKnown(l, l.pages[key].members) && LeavesAlone(l, run, l.pages[key].members)
    ensures var later := Execute(l, run);
      && Inv(later) && key in later.pages && later.pages[key] == l.pages[key] && l.batches <= later.batches
      && AllKnown(later, l.pages[key].members)
      && TotalSize(later, l.pages[key].members, None) == TotalSize(l, l.pages[key].members, None)
    decreases |run|
  {
    var members := l.pages[key].members;
    if run != [] {
      var next := Apply(l, run[0]);
      ApplyKeepsInv(l, run[0]);
      CommandEvolves(l, run[0]);
      MembersAreRead(l, key);
      forall i | 0 <= i < |members| ensures SizeKept(l, next, members[i]) {
        CommandKeepsSize(l, run[0], members[i]);
      }
      TotalSizeKept(l, next, members);
      RunKeepsSizes(next, run[1..], key);
    }
  }

  // ---------- the retry ----------

  lemma {:induction false} SubsetIsSmaller(l: Ledger, a: seq<nat>, b: seq<nat>)
    requires Ascending(a) && Ascending(b) && AllKnown(l, a) && AllKnown(l, b)
    requires forall n :: n in a ==> n in b
    ensures TotalSize(l, a, None) <= TotalSize(l, b, None)
    decreases |b|
  {
    if a != [] {
      assert a[|a| - 1] in b;
      var front := b[..|b| - 1];
      LastIsGreatest(a);
      LastIsGreatest(b);
      if a[|a| - 1] == b[|b| - 1] {
        forall n | n in a[..|a| - 1] ensures n in front {
          assert n in a && n in b;
        }
        SubsetIsSmaller(l, a[..|a| - 1], front);
      } else {
        forall n | n in a ensures n in front {
          assert n in b;
        }
        SubsetIsSmaller(l, a, front);
      }
    }
  }

  /** Replaying a page never conflicts unless one of its messages was edited in between: whatever else happens, the
      retry is answered, claims nothing, and returns the members that are still in scope. */
  lemma UneditedRetrySucceeds(l: Ledger, run: seq<Command>, key: PageKey, r: Request)
    requires Inv(l) && key in l.pages && AllKnown(l, l.pages[key].members)
    requires l.pages[key].members != [] ==> Fits(l, l.pages[key].members, None)
    requires LeavesAlone(l, run, l.pages[key].members)
    requires key.read < |l.batches| && r.after == key.after && 0 < r.limit
    requires l.batches[key.read].source == r.source && l.batches[key.read].limit == r.limit
    ensures var later := Execute(l, run);
      && key.read < |later.batches|
      && ReadBatch(later, key.read, r).0 == later
      && ReadBatch(later, key.read, r).1.Read?
  {
    RunKeepsSizes(l, run, key);
    var later := Execute(l, run);
    var members := later.pages[key].members;
    var f := MemberFilter(later, r, members);
    SelectedAreKnown(later, f, 1);
    SelectSpec(later, f, 1);
    assert PageShape(later.batches, key, later.pages[key]);
    SubsetIsSmaller(later, Rows(later, f), members);
    RetryConflictsExactlyWhenTooLarge(later, key.read, r);
  }

  // ---------- a ledger where an edit does it ----------

  const NOTE: Envelope := Envelope(Stored, true, true, true, true, "a", "b", "p", false, None, 10, false)
  const ASK: Request := Request("b", "a", "run", "request", {"p"}, "now", 0, 5)
  const RECEIVED: Ledger :=
    Ledger(map[0 := NOTE], [Message(0, "a", "b", "p", None, Some(Receipt(0, "now")), None)],
           [Batch("b", "a", "run", "request", 1, 5)], map[PageKey(0, 0) := Page(1, false, [1])], map[], 0)

  lemma ThreeCommands(l: Ledger, a: Command, b: Command, c: Command)
    ensures Execute(l, [a, b, c]) == Apply(Apply(Apply(l, a), b), c)
  {
    assert [a, b, c][1..] == [b, c] && [b, c][1..] == [c];
    assert Execute(Apply(l, a), [b, c]) == Execute(Apply(Apply(l, a), b), [c]);
    assert Execute(Apply(Apply(l, a), b), [c]) == Execute(Apply(Apply(Apply(l, a), b), c), []);
  }

  lemma OneMessageIsReceived()
    ensures Execute(EMPTY, [PostEnvelope(0, NOTE), StoreMessage(0, None), ReadPage(ASK)]) == RECEIVED
  {
    ThreeCommands(EMPTY, PostEnvelope(0, NOTE), StoreMessage(0, None), ReadPage(ASK));
    var posted := Apply(EMPTY, PostEnvelope(0, NOTE));
    assert posted == Ledger(map[0 := NOTE], [], [], map[], map[], 0);
    var message := Message(0, "a", "b", "p", None, None, None);
    OneMessageIsStored(posted, message);
    OneMessageIsRead(Apply(posted, StoreMessage(0, None)), message);
  }

  lemma OneMessageIsStored(l: Ledger, message: Message)
    requires l == Ledger(map[0 := NOTE], [], [], map[], map[], 0) && message == Message(0, "a", "b", "p", None, None, None)
    ensures Store(l, 0, None) == (Ledger(map[0 := NOTE], [message], [], map[], map[], 0), true)
  {
    assert "a"[0] != "b"[0];
    assert !HasMessage(l, 0);
    assert Appended(l, 0, NOTE).messages == [message];
  }

  lemma OneMessageIsRead(l: Ledger, message: Message)
    requires l == Ledger(map[0 := NOTE], [message], [], map[], map[], 0) && message == Message(0, "a", "b", "p", None, None, None)
    ensures ReadSender(l, ASK).0 == RECEIVED
  {
    var begun := Opened(l, ASK);
    assert begun == l.(batches := [Batch("b", "a", "run", "request", 1, 5)]);
    var f := UnreadFilter(begun, 0, ASK);
    assert Selected(begun, f, 1);
    assert Rows(begun, f) == [1] by {
      assert Select(begun, f, 2) == [];
    }
    assert [1][..1] == [1] && [1][..0] == [];
    assert TotalSize(begun, [1], Some(Receipt(0, "now"))) == Size(begun, 1, Some(Receipt(0, "now")));
    assert Fits(begun, [1], Some(Receipt(0, "now")));
    assert Taken(begun, [1], 5, Some(Receipt(0, "now")), 0) == 1;
    assert Fresh(begun, 0, ASK);
    FreshAnswerIsThePage(begun, 0, ASK);
    ReadBatchEffect(begun, 0, ASK);
    assert Claimed(begun, 0, ASK, [1], false).messages == RECEIVED.messages;
  }

  /** A page read once, its message then edited beyond the page size, and the same request again: the retry conflicts. */
  lemma EditCanMakeARetryConflict(run: seq<Command>)
    requires run == [PostEnvelope(0, NOTE), StoreMessage(0, None), ReadPage(ASK), EditEnvelope(0, MAX_PAGE_BYTES)]
    ensures var l := Execute(EMPTY, run);
      PageKey(0, 0) in l.pages && |l.batches| == 1 && ReadBatch(l, 0, ASK) == (l, Conflict)
  {
    OneMessageIsReceived();
    var first := run[..3];
    ExecuteInParts(EMPTY, first, [run[3]]);
    assert first + [run[3]] == run && first == [PostEnvelope(0, NOTE), StoreMessage(0, None), ReadPage(ASK)];
    var l := Apply(RECEIVED, run[3]);
    assert Execute(RECEIVED, [run[3]]) == Execute(l, []);
    EmptyIsOk();
    ExecuteKeepsInv(EMPTY, run);
    var f := MemberFilter(l, ASK, [1]);
    assert Selected(l, f, 1);
    assert Rows(l, f) == [1] by {
      assert Select(l, f, 2) == [];
    }
    assert [1][..0] == [];
    assert TotalSize(l, [1], None) == Size(l, 1, None);
    RetryConflictsExactlyWhenTooLarge(l, 0, ASK);
  }

  lemma {:induction false} ExecuteInParts(l: Ledger, a: seq<Command>, b: seq<Command>)
    ensures Execute(l, a + b) == Execute(Execute(l, a), b)
    decreases |a|
  {
    if a == [] {
      assert a + b == b;
    } else {
      assert (a + b)[1..] == a[1..] + b;
      ExecuteInParts(Apply(l, a[0]), a[1..], b);
    }
  }
}
