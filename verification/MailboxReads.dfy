/** Exactly-once reads and the completeness of a read snapshot. */
module MailboxReads {
  import opened Options
  import opened MailboxModel

  // ---------- what the queries return ----------

  ghost predicate Ascending(s: seq<nat>) {
    forall i, j {:trigger s[i], s[j]} :: 0 <= i < j < |s| ==> s[i] < s[j]
  }

  lemma {:induction false} SelectSpec(l: Ledger, f: Filter, n: nat)
    requires 1 <= n <= |l.messages| + 1
    ensures Ascending(Select(l, f, n))
    ensures forall k :: k in Select(l, f, n) <==> n <= k && Known(l, k) && Selected(l, f, k)
    decreases |l.messages| + 1 - n
  {
    if n <= |l.messages| {
      SelectSpec(l, f, n + 1);
      var rest := Select(l, f, n + 1);
      forall j | 0 <= j < |rest| ensures n < rest[j] {
        assert rest[j] in rest;
      }
    }
  }

  lemma {:induction false} HighWaterSpec(l: Ledger, target: Chat, source: Chat, n: nat)
    requires n <= |l.messages|
    ensures HighWater(l, target, source, n) <= n
    ensures forall k :: 1 <= k <= n && At(l, k).target == target && At(l, k).source == source ==>
              k <= HighWater(l, target, source, n)
  {
    if n > 0 && !(l.messages[n - 1].target == target && l.messages[n - 1].source == source) {
      HighWaterSpec(l, target, source, n - 1);
    }
  }

  lemma {:induction false} TakenSpec(l: Ledger, rows: seq<nat>, limit: nat, receipt: Option<Receipt>, count: nat)
    requires AllKnown(l, rows) && count <= |rows| && count <= limit
    requires count == 0 || Fits(l, rows[..count], receipt)
    ensures var taken := Taken(l, rows, limit, receipt, count);
      && taken <= limit
      && (taken == 0 || Fits(l, rows[..taken], receipt))
      && (taken == |rows| || taken == limit || !Fits(l, rows[..taken + 1], receipt))
    decreases |rows| - count
  {
    if !(count == |rows| || count == limit || !Fits(l, rows[..count + 1], receipt)) {
      TakenSpec(l, rows, limit, receipt, count + 1);
    }
  }

  /** A page is the longest prefix of its rows that respects the limit and the byte budget. */
  lemma PageSpec(l: Ledger, rows: seq<nat>, limit: nat, receipt: Option<Receipt>)
    requires AllKnown(l, rows) && limit > 0
    ensures match PageOf(l, rows, limit, receipt)
      case TooLarge => rows != [] && !Fits(l, rows[..1], receipt)
      case Paged(taken, more) =>
        && taken <= rows
        && |taken| <= limit
        && (taken == [] <==> rows == [])
        && (taken != [] ==> Fits(l, taken, receipt))
        && (more <==> taken != rows)
        && (more ==> |taken| == limit || !Fits(l, rows[..|taken| + 1], receipt))
  {
    TakenSpec(l, rows, limit, receipt, 0);
  }

  // ---------- the invariant ----------

  ghost predicate PageShape(batches: seq<Batch>, key: PageKey, page: Page) {
    && key.read < |batches|
    && Ascending(page.members)
    && (forall n :: n in page.members ==> key.after < n <= page.end && n <= batches[key.read].snapshot)
    && (page.members == [] ==> page.end == key.after && !page.more)
    && (page.members != [] ==> page.end == page.members[|page.members| - 1])
    && |page.members| <= batches[key.read].limit
  }

  lemma EndInSnapshot(batches: seq<Batch>, key: PageKey, page: Page)
    requires PageShape(batches, key, page)
    ensures page.members != [] ==> key.after < page.end <= batches[key.read].snapshot
    ensures page.members == [] ==> page.end == key.after
  {
    if page.members != [] {
      assert page.end in page.members;
    }
  }

  ghost predicate Linked(pages: Pages, key: PageKey) {
    && (key.after == 0 || Continues(pages, key.read, key.after))
    && PageKey(key.read, 0) in pages
  }

  ghost predicate PagesOk(pages: Pages, batches: seq<Batch>) {
    && (forall key {:trigger PageShape(batches, key, pages[key])} :: key in pages ==> PageShape(batches, key, pages[key]))
    && (forall key {:trigger Linked(pages, key)} :: key in pages ==> Linked(pages, key))
  }

  ghost predicate SameBatch(pages: Pages, a: PageKey, b: PageKey) {
    a in pages && b in pages && a.read == b.read
  }

  /** The pages of one batch lie behind each other. */
  ghost predicate Chained(pages: Pages) {
    forall a, b :: SameBatch(pages, a, b) && a.after < b.after ==> pages[a].end <= b.after
  }

  /** Announced more, and nothing was read from there yet. */
  predicate OpenEnd(pages: Pages, key: PageKey) {
    key in pages && pages[key].more && PageKey(key.read, pages[key].end) !in pages
  }

  /** The open end of a batch is its last page. */
  ghost predicate OpenEndIsLast(pages: Pages) {
    forall a, b :: SameBatch(pages, a, b) && OpenEnd(pages, a) ==> b.after <= a.after
  }

  ghost predicate ReadBy(l: Ledger, n: nat, key: PageKey) {
    && key in l.pages
    && n in l.pages[key].members
    && Known(l, n)
    && At(l, n).receipt.Some?
    && At(l, n).receipt.value.read == key.read
  }

  ghost predicate ReceiptsOk(l: Ledger) {
    && (forall n :: Known(l, n) && At(l, n).receipt.Some? ==> exists key :: ReadBy(l, n, key))
    && (forall key, n :: key in l.pages && n in l.pages[key].members ==> ReadBy(l, n, key))
  }

  ghost predicate BatchesOk(l: Ledger) {
    forall i :: 0 <= i < |l.batches| ==> l.batches[i].snapshot <= |l.messages|
  }

  ghost predicate IdsUnique(l: Ledger) {
    forall a, b :: Known(l, a) && Known(l, b) && At(l, a).id == At(l, b).id ==> a == b
  }

  /** A withdrawn envelope was never read, and a stored one was small enough to be paged. */
  ghost predicate EnvelopesOk(l: Ledger) {
    forall n :: Known(l, n) ==>
      && At(l, n).id in l.envelopes
      && var e := l.envelopes[At(l, n).id];
         && (e.status.Cancelled? ==> At(l, n).receipt.None?)
         && (e.edited || Bounded(e))
  }

  ghost predicate Inv(l: Ledger) {
    && PagesOk(l.pages, l.batches)
    && Chained(l.pages)
    && OpenEndIsLast(l.pages)
    && ReceiptsOk(l)
    && BatchesOk(l)
    && IdsUnique(l)
    && EnvelopesOk(l)
  }

  const EMPTY := Ledger(map[], [], [], map[], map[], 0)

  lemma EmptyIsOk()
    ensures Inv(EMPTY)
  {
  }

  // ---------- consequences ----------

  /** A read message is in exactly one page of exactly one batch. */
  lemma ReadExactlyOnce(l: Ledger, n: nat) returns (key: PageKey)
    requires Inv(l) && Known(l, n) && At(l, n).receipt.Some?
    ensures ReadBy(l, n, key) && key.read == At(l, n).receipt.value.read
    ensures forall other :: other in l.pages && n in l.pages[other].members ==> other == key
  {
    key :| ReadBy(l, n, key);
    forall other | other in l.pages && n in l.pages[other].members
      ensures other == key
    {
      assert ReadBy(l, n, other);
      assert PageShape(l.batches, key, l.pages[key]) && PageShape(l.batches, other, l.pages[other]);
      assert SameBatch(l.pages, key, other) && SameBatch(l.pages, other, key);
    }
  }

  /** The pages of a batch have disjoint intervals inside its snapshot, and a page that
      announces more moves the cursor. */
  lemma PagesFormAChain(l: Ledger, a: PageKey, b: PageKey)
    requires PagesOk(l.pages, l.batches) && Chained(l.pages) && SameBatch(l.pages, a, b) && a != b
    ensures a.read < |l.batches|
    ensures l.pages[a].end <= b.after || l.pages[b].end <= a.after
    ensures l.pages[a].end == a.after || l.pages[a].end <= l.batches[a.read].snapshot
    ensures l.pages[a].more ==> a.after < l.pages[a].end
  {
    assert PageShape(l.batches, a, l.pages[a]);
    EndInSnapshot(l.batches, a, l.pages[a]);
    assert SameBatch(l.pages, b, a);
  }

  lemma CancelledWasNeverRead(l: Ledger, n: nat, key: PageKey)
    requires Inv(l) && Known(l, n) && At(l, n).id in l.envelopes && l.envelopes[At(l, n).id].status.Cancelled?
    requires key in l.pages
    ensures At(l, n).receipt.None?
    ensures n !in l.pages[key].members
  {
    assert n in l.pages[key].members ==> ReadBy(l, n, key);
  }

  // ---------- claiming a page ----------

  /** What `read_sender` knows when it writes a page. */
  ghost predicate Claims(l: Ledger, read: nat, r: Request, members: seq<nat>, more: bool) {
    && read < |l.batches|
    && PageKey(read, r.after) !in l.pages
    && (r.after == 0 || Continues(l.pages, read, r.after))
    && l.batches[read].limit == r.limit
    && 0 < r.limit
    && members <= Rows(l, UnreadFilter(l, read, r))
    && |members| <= r.limit
    && (members == [] <==> Rows(l, UnreadFilter(l, read, r)) == [])
    && (more <==> members != Rows(l, UnreadFilter(l, read, r)))
  }

  lemma WithinPrefix(rows: seq<nat>, count: nat, i: nat)
    requires Ascending(rows) && 0 < count <= |rows| && i < |rows| && rows[i] <= rows[count - 1]
    ensures i < count
  {
  }

  lemma ClaimedMembers(l: Ledger, read: nat, r: Request, members: seq<nat>, more: bool)
    requires Claims(l, read, r, members, more)
    ensures Ascending(members)
    ensures forall n :: n in members ==> Known(l, n) && Selected(l, UnreadFilter(l, read, r), n)
    ensures forall n :: Known(l, n) && Selected(l, UnreadFilter(l, read, r), n)
                && (!more || (members != [] && n <= members[|members| - 1]))
              ==> n in members
  {
    var f := UnreadFilter(l, read, r);
    var rows := Rows(l, f);
    SelectSpec(l, f, 1);
    forall n | Known(l, n) && Selected(l, f, n) && (!more || (members != [] && n <= members[|members| - 1]))
      ensures n in members
    {
      var i :| 0 <= i < |rows| && rows[i] == n;
      if members != [] && rows[i] <= rows[|members| - 1] {
        WithinPrefix(rows, |members|, i);
      }
    }
  }

  /** A new page goes behind the open end, or is the first of its batch. */
  ghost predicate Appendable(pages: Pages, batches: seq<Batch>, mine: PageKey, page: Page) {
    && PagesOk(pages, batches)
    && Chained(pages)
    && OpenEndIsLast(pages)
    && mine !in pages
    && PageShape(batches, mine, page)
    && (mine.after == 0 || Continues(pages, mine.read, mine.after))
  }

  lemma OpenEndOf(pages: Pages, read: nat, after: nat) returns (key: PageKey)
    requires Continues(pages, read, after)
    ensures key in pages && key.read == read && pages[key].end == after && pages[key].more
  {
    key :| key in pages && key.read == read && pages[key].end == after && pages[key].more;
  }

  lemma AppendKeepsLinks(pages: Pages, batches: seq<Batch>, mine: PageKey, page: Page)
    requires Appendable(pages, batches, mine, page)
    ensures PagesOk(pages[mine := page], batches)
  {
    var next := pages[mine := page];
    forall key | key in next
      ensures Linked(next, key)
    {
      if key.after != 0 {
        assert key != mine ==> Linked(pages, key);
        var parent := OpenEndOf(pages, key.read, key.after);
        assert parent in next && next[parent] == pages[parent];
        assert Linked(pages, parent);
      }
    }
  }

  /** Every page of the batch lies before the one that is appended. */
  lemma AppendedIsLast(pages: Pages, batches: seq<Batch>, mine: PageKey, page: Page, key: PageKey)
    requires Appendable(pages, batches, mine, page) && key in pages && key.read == mine.read
    ensures key.after < mine.after && pages[key].end <= mine.after
  {
    assert Linked(pages, key);
    var parent := OpenEndOf(pages, mine.read, mine.after);
    assert PageShape(batches, parent, pages[parent]);
    EndInSnapshot(batches, parent, pages[parent]);
    assert OpenEnd(pages, parent);
    assert SameBatch(pages, parent, key) && SameBatch(pages, key, parent);
  }

  lemma AppendKeepsChain(pages: Pages, batches: seq<Batch>, mine: PageKey, page: Page)
    requires Appendable(pages, batches, mine, page)
    ensures Chained(pages[mine := page]) && OpenEndIsLast(pages[mine := page])
  {
    var next := pages[mine := page];
    forall a, b | SameBatch(next, a, b) && a.after < b.after
      ensures next[a].end <= b.after
    {
      if b == mine {
        AppendedIsLast(pages, batches, mine, page, a);
      } else if a == mine {
        AppendedIsLast(pages, batches, mine, page, b);
      } else {
        assert SameBatch(pages, a, b);
      }
    }
    forall a, b | SameBatch(next, a, b) && OpenEnd(next, a)
      ensures b.after <= a.after
    {
      if a != mine {
        assert OpenEnd(pages, a);
        if b == mine {
          AppendedIsLast(pages, batches, mine, page, a);
          var parent := OpenEndOf(pages, mine.read, mine.after);
          assert SameBatch(pages, a, parent) && SameBatch(pages, parent, a);
          assert OpenEnd(pages, parent);
        } else {
          assert SameBatch(pages, a, b);
        }
      } else if b != mine {
        AppendedIsLast(pages, batches, mine, page, b);
      }
    }
  }

  lemma MarkedAt(l: Ledger, read: nat, r: Request, members: seq<nat>, more: bool, n: nat)
    requires Known(l, n)
    ensures Known(Claimed(l, read, r, members, more), n)
    ensures var m := At(Claimed(l, read, r, members, more), n);
      if n in members && At(l, n).receipt.None? then m == At(l, n).(receipt := Some(Receipt(read, r.now))) else m == At(l, n)
  {
  }

  lemma ClaimKeepsReceipts(l: Ledger, read: nat, r: Request, members: seq<nat>, more: bool)
    requires Inv(l) && Claims(l, read, r, members, more)
    ensures ReceiptsOk(Claimed(l, read, r, members, more))
  {
    ClaimedMembers(l, read, r, members, more);
    var next := Claimed(l, read, r, members, more);
    var mine := PageKey(read, r.after);
    forall key, n | key in next.pages && n in next.pages[key].members
      ensures ReadBy(next, n, key)
    {
      if key == mine {
        MarkedAt(l, read, r, members, more, n);
      } else {
        assert ReadBy(l, n, key);
        MarkedAt(l, read, r, members, more, n);
      }
    }
    forall n | Known(next, n) && At(next, n).receipt.Some?
      ensures exists key :: ReadBy(next, n, key)
    {
      MarkedAt(l, read, r, members, more, n);
      if n in members {
        assert ReadBy(next, n, mine);
      } else {
        var key :| ReadBy(l, n, key);
        assert ReadBy(next, n, key);
      }
    }
  }

  lemma ClaimKeepsInv(l: Ledger, read: nat, r: Request, members: seq<nat>, more: bool)
    requires Inv(l) && Claims(l, read, r, members, more)
    ensures Inv(Claimed(l, read, r, members, more))
  {
    ClaimedMembers(l, read, r, members, more);
    var page := Claimed(l, read, r, members, more).pages[PageKey(read, r.after)];
    AppendKeepsLinks(l.pages, l.batches, PageKey(read, r.after), page);
    AppendKeepsChain(l.pages, l.batches, PageKey(read, r.after), page);
    ClaimKeepsReceipts(l, read, r, members, more);
    var next := Claimed(l, read, r, members, more);
    forall n | Known(next, n)
      ensures At(next, n).id in next.envelopes
      ensures next.envelopes[At(next, n).id].status.Cancelled? ==> At(next, n).receipt.None?
      ensures next.envelopes[At(next, n).id].edited || Bounded(next.envelopes[At(next, n).id])
    {
      MarkedAt(l, read, r, members, more, n);
    }
    forall a, b | Known(next, a) && Known(next, b) && At(next, a).id == At(next, b).id
      ensures a == b
    {
      MarkedAt(l, read, r, members, more, a);
      MarkedAt(l, read, r, members, more, b);
    }
  }

  // ---------- read_sender as a whole ----------

  lemma OpenKeepsInv(l: Ledger, r: Request)
    requires Inv(l)
    ensures Inv(Opened(l, r))
  {
    HighWaterSpec(l, r.target, r.source, |l.messages|);
    var next := Opened(l, r);
    forall key | key in next.pages
      ensures PageShape(next.batches, key, next.pages[key])
    {
      assert PageShape(l.batches, key, l.pages[key]);
    }
    forall n | Known(next, n) && At(next, n).receipt.Some?
      ensures exists key :: ReadBy(next, n, key)
    {
      assert Known(l, n) && At(l, n).receipt.Some?;
      var key :| ReadBy(l, n, key);
      assert ReadBy(next, n, key);
    }
    forall key, n | key in next.pages && n in next.pages[key].members
      ensures ReadBy(next, n, key)
    {
      assert ReadBy(l, n, key);
    }
    forall n | Known(next, n)
      ensures At(next, n).id in next.envelopes
      ensures next.envelopes[At(next, n).id].status.Cancelled? ==> At(next, n).receipt.None?
      ensures next.envelopes[At(next, n).id].edited || Bounded(next.envelopes[At(next, n).id])
    {
      assert Known(l, n);
    }
    forall a, b | Known(next, a) && Known(next, b) && At(next, a).id == At(next, b).id
      ensures a == b
    {
      assert Known(l, a) && Known(l, b);
    }
  }

  /** The page `ReadBatch` is about to write, when it gets that far. */
  ghost predicate Fresh(l: Ledger, read: nat, r: Request) {
    && read < |l.batches|
    && l.batches[read].source == r.source && l.batches[read].limit == r.limit && 0 < r.limit
    && PageKey(read, r.after) !in l.pages
    && (r.after == 0 || Continues(l.pages, read, r.after))
  }

  function FreshPage(l: Ledger, read: nat, r: Request): Paged
    requires read < |l.batches|
  {
    SelectedAreKnown(l, UnreadFilter(l, read, r), 1);
    PageOf(l, Rows(l, UnreadFilter(l, read, r)), r.limit, Some(Receipt(read, r.now)))
  }

  lemma FreshPageClaims(l: Ledger, read: nat, r: Request)
    requires Fresh(l, read, r) && FreshPage(l, read, r).Paged?
    ensures Claims(l, read, r, FreshPage(l, read, r).rows, FreshPage(l, read, r).more)
  {
    SelectedAreKnown(l, UnreadFilter(l, read, r), 1);
    PageSpec(l, Rows(l, UnreadFilter(l, read, r)), r.limit, Some(Receipt(read, r.now)));
  }

  lemma ReadBatchEffect(l: Ledger, read: nat, r: Request)
    requires read < |l.batches| && 0 < r.limit
    ensures var next := ReadBatch(l, read, r).0;
      if Fresh(l, read, r) && FreshPage(l, read, r).Paged?
      then next == Claimed(l, read, r, FreshPage(l, read, r).rows, FreshPage(l, read, r).more)
      else next == l
  {
  }

  lemma ReadBatchKeepsInv(l: Ledger, read: nat, r: Request)
    requires Inv(l) && read < |l.batches| && 0 < r.limit
    ensures Inv(ReadBatch(l, read, r).0)
  {
    ReadBatchEffect(l, read, r);
    if Fresh(l, read, r) && FreshPage(l, read, r).Paged? {
      FreshPageClaims(l, read, r);
      ClaimKeepsInv(l, read, r, FreshPage(l, read, r).rows, FreshPage(l, read, r).more);
    }
  }

  lemma ReadKeepsInv(l: Ledger, r: Request)
    requires Inv(l)
    ensures Inv(ReadSender(l, r).0)
  {
    var found := Matching(l.batches, r.target, r.request, 0);
    MatchingInRange(l.batches, r.target, r.request, 0);
    if 1 <= r.limit {
      if found == [] {
        OpenKeepsInv(l, r);
        ReadBatchKeepsInv(Opened(l, r), |l.batches|, r);
      } else {
        ReadBatchKeepsInv(l, found[0], r);
      }
    }
  }

  // ---------- the re-read after claiming ----------

  lemma NothingInIt(s: seq<nat>)
    ensures s == [] || exists n :: n in s
  {
    if s != [] {
      assert s[0] in s;
    }
  }

  lemma LastIsGreatest(s: seq<nat>)
    requires Ascending(s) && s != []
    ensures forall n :: n in s ==> n <= s[|s| - 1]
    ensures forall n :: n in s[..|s| - 1] <==> n in s && n != s[|s| - 1]
  {
    forall n ensures n in s[..|s| - 1] <==> n in s && n != s[|s| - 1] {
      assert s == s[..|s| - 1] + [s[|s| - 1]];
    }
  }

  lemma {:induction false} AscendingDetermined(a: seq<nat>, b: seq<nat>)
    requires Ascending(a) && Ascending(b)
    requires forall n :: n in a <==> n in b
    ensures a == b
    decreases |a|
  {
    if a == [] {
      NothingInIt(b);
    } else {
      assert a[|a| - 1] in b;
      assert b[|b| - 1] in a;
      LastIsGreatest(a);
      LastIsGreatest(b);
      var c, d := a[..|a| - 1], b[..|b| - 1];
      forall n ensures n in c <==> n in d {
        assert n in a <==> n in b;
      }
      AscendingDetermined(c, d);
      assert a == c + [a[|a| - 1]] && b == d + [b[|b| - 1]];
    }
  }

  lemma {:induction false} TotalSizeGrows(l: Ledger, rows: seq<nat>, receipt: Option<Receipt>, count: nat)
    requires AllKnown(l, rows) && count <= |rows|
    ensures TotalSize(l, rows[..count], receipt) <= TotalSize(l, rows, receipt)
    decreases |rows| - count
  {
    if count == |rows| {
      assert rows[..count] == rows;
    } else {
      TotalSizeGrows(l, rows, receipt, count + 1);
      assert rows[..count + 1][..count] == rows[..count];
    }
  }

  lemma {:induction false} TakesAll(l: Ledger, rows: seq<nat>, limit: nat, receipt: Option<Receipt>, count: nat)
    requires AllKnown(l, rows) && count <= |rows| <= limit
    requires rows == [] || Fits(l, rows, receipt)
    ensures Taken(l, rows, limit, receipt, count) == |rows|
    decreases |rows| - count
  {
    if count < |rows| {
      TotalSizeGrows(l, rows, receipt, count + 1);
      TakesAll(l, rows, limit, receipt, count + 1);
    }
  }

  lemma {:induction false} SameTotalSize(l: Ledger, next: Ledger, rows: seq<nat>, receipt: Receipt)
    requires AllKnown(l, rows) && AllKnown(next, rows) && next.envelopes == l.envelopes
    requires forall i :: 0 <= i < |rows| ==>
               At(next, rows[i]).id == At(l, rows[i]).id && At(next, rows[i]).receipt == Some(receipt)
    ensures TotalSize(next, rows, None) == TotalSize(l, rows, Some(receipt))
    decreases |rows|
  {
    if rows != [] {
      SameTotalSize(l, next, rows[..|rows| - 1], receipt);
    }
  }

  lemma RereadSelectsMembers(l: Ledger, read: nat, r: Request, members: seq<nat>, more: bool)
    requires Claims(l, read, r, members, more)
    ensures Rows(Claimed(l, read, r, members, more), MemberFilter(Claimed(l, read, r, members, more), r, members)) == members
  {
    ClaimedMembers(l, read, r, members, more);
    var next := Claimed(l, read, r, members, more);
    var f := MemberFilter(next, r, members);
    SelectSpec(next, f, 1);
    forall n ensures n in Rows(next, f) <==> n in members {
      if n in members {
        MarkedAt(l, read, r, members, more, n);
        assert Selected(l, UnreadFilter(l, read, r), n);
        assert Valid(next, At(next, n));
      }
    }
    AscendingDetermined(Rows(next, f), members);
  }

  lemma ClaimedAnswer(l: Ledger, read: nat, r: Request, members: seq<nat>, more: bool)
    requires Claims(l, read, r, members, more)
    requires AllKnown(l, members) && (members != [] ==> Fits(l, members, Some(Receipt(read, r.now))))
    ensures var next := Claimed(l, read, r, members, more);
      var end := if members == [] then r.after else members[|members| - 1];
      Answer(next, read, r, next.pages[PageKey(read, r.after)], false) ==
        Read(read, l.batches[read].snapshot, members, if more then Some(end) else None, more, 0, false)
  {
    var next := Claimed(l, read, r, members, more);
    if members != [] {
      RereadSelectsMembers(l, read, r, members, more);
      ReceiptsGiven(l, read, r, members, more);
      SameTotalSize(l, next, members, Receipt(read, r.now));
      TakesAll(next, members, r.limit, None, 0);
      assert members[..|members|] == members;
      assert PageOf(next, members, r.limit, None) == Paged(members, false);
    }
  }

  lemma ReceiptsGiven(l: Ledger, read: nat, r: Request, members: seq<nat>, more: bool)
    requires Claims(l, read, r, members, more) && AllKnown(l, members)
    ensures var next := Claimed(l, read, r, members, more);
      AllKnown(next, members) &&
      forall i :: 0 <= i < |members| ==>
        At(next, members[i]).id == At(l, members[i]).id && At(next, members[i]).receipt == Some(Receipt(read, r.now))
  {
    ClaimedMembers(l, read, r, members, more);
    var next := Claimed(l, read, r, members, more);
    forall i | 0 <= i < |members|
      ensures At(next, members[i]).id == At(l, members[i]).id && At(next, members[i]).receipt == Some(Receipt(read, r.now))
    {
      assert members[i] in members;
      MarkedAt(l, read, r, members, more, members[i]);
    }
  }

  /** The answer to a freshly claimed page is exactly that page: nothing is missing from it,
      and it never overflows on the second read. */
  lemma FreshAnswerIsThePage(l: Ledger, read: nat, r: Request)
    requires Fresh(l, read, r) && FreshPage(l, read, r).Paged?
    ensures var page := FreshPage(l, read, r);
      var end := if page.rows == [] then r.after else page.rows[|page.rows| - 1];
      ReadBatch(l, read, r).1 ==
        Read(read, l.batches[read].snapshot, page.rows, if page.more then Some(end) else None, page.more, 0, false)
  {
    var rows := Rows(l, UnreadFilter(l, read, r));
    SelectedAreKnown(l, UnreadFilter(l, read, r), 1);
    PageSpec(l, rows, r.limit, Some(Receipt(read, r.now)));
    FreshPageClaims(l, read, r);
    var page := FreshPage(l, read, r);
    assert AllKnown(l, page.rows) by {
      forall i | 0 <= i < |page.rows| ensures Known(l, page.rows[i]) {
        assert page.rows[i] == rows[i];
      }
    }
    ClaimedAnswer(l, read, r, page.rows, page.more);
  }

  /** A message the ledger admitted and nobody edited always fits a page on its own. */
  lemma UneditedAlwaysFits(l: Ledger, rows: seq<nat>, receipt: Receipt)
    requires EnvelopesOk(l) && AllKnown(l, rows) && rows != []
    requires |receipt.at| <= 64
    requires !l.envelopes[At(l, rows[0]).id].edited
    ensures Fits(l, rows[..1], Some(receipt))
  {
    assert Known(l, rows[0]);
    assert Bounded(l.envelopes[At(l, rows[0]).id]);
    assert rows[..1][..0] == [];
    assert TotalSize(l, rows[..1], Some(receipt)) == Size(l, rows[0], Some(receipt));
  }

  /** So with unedited mail the first page, and every continuation, is answered. */
  lemma UneditedReadSucceeds(l: Ledger, read: nat, r: Request)
    requires Inv(l) && Fresh(l, read, r) && |r.now| <= 64
    requires forall n :: Known(l, n) ==> !l.envelopes[At(l, n).id].edited
    ensures ReadBatch(l, read, r).1.Read?
  {
    var rows := Rows(l, UnreadFilter(l, read, r));
    SelectedAreKnown(l, UnreadFilter(l, read, r), 1);
    PageSpec(l, rows, r.limit, Some(Receipt(read, r.now)));
    if rows != [] {
      assert Known(l, rows[0]);
      UneditedAlwaysFits(l, rows, Receipt(read, r.now));
    }
    FreshAnswerIsThePage(l, read, r);
  }

  lemma WholeOrTooMuch(l: Ledger, rows: seq<nat>, limit: nat)
    requires AllKnown(l, rows) && |rows| <= limit && limit > 0
    ensures rows == [] || Fits(l, rows, None) ==> PageOf(l, rows, limit, None) == Paged(rows, false)
    ensures rows != [] && !Fits(l, rows, None) ==> PageOf(l, rows, limit, None).TooLarge? || PageOf(l, rows, limit, None).more
  {
    PageSpec(l, rows, limit, None);
    if rows == [] || Fits(l, rows, None) {
      TakesAll(l, rows, limit, None, 0);
      assert rows[..|rows|] == rows;
    }
  }

  /** A retry of a stored page answers with its members that are still in scope, and conflicts
      exactly when those are too large together; it never claims anything. */
  lemma RetryConflictsExactlyWhenTooLarge(l: Ledger, read: nat, r: Request)
    requires Inv(l) && read < |l.batches| && PageKey(read, r.after) in l.pages
    requires l.batches[read].source == r.source && l.batches[read].limit == r.limit && 0 < r.limit
    ensures var members := l.pages[PageKey(read, r.after)].members;
      var rows := Rows(l, MemberFilter(l, r, members));
      var (next, reply) := ReadBatch(l, read, r);
      && next == l
      && AllKnown(l, rows)
      && (reply.Conflict? <==> members != [] && rows != [] && !Fits(l, rows, None))
      && (reply.Read? && members != [] ==> reply.rows == rows)
      && (reply.Read? ==> reply.unavailable >= 0)
  {
    var key := PageKey(read, r.after);
    var members := l.pages[key].members;
    var f := MemberFilter(l, r, members);
    var rows := Rows(l, f);
    SelectedAreKnown(l, f, 1);
    SelectSpec(l, f, 1);
    assert PageShape(l.batches, key, l.pages[key]);
    SubsetIsShorter(rows, members);
    WholeOrTooMuch(l, rows, r.limit);
  }

  lemma {:induction false} SubsetIsShorter(a: seq<nat>, b: seq<nat>)
    requires Ascending(a) && Ascending(b)
    requires forall n :: n in a ==> n in b
    ensures |a| <= |b|
    decreases |a|
  {
    if a != [] {
      var last := a[|a| - 1];
      assert last in a;
      var i :| 0 <= i < |b| && b[i] == last;
      forall n | n in a[..|a| - 1] ensures n in b[..i] {
        var j :| 0 <= j < |a| - 1 && a[j] == n;
        assert a[j] in b;
        var k :| 0 <= k < |b| && b[k] == n;
        assert a[j] < last;
        WithinPrefix(b, i + 1, k);
      }
      SubsetIsShorter(a[..|a| - 1], b[..i]);
    }
  }
}
