/** The mailbox tables as one object; queries are the selection functions of the model. */
module Mailbox {
  import opened Options
  import opened MailboxModel

  class Tables {
    var envelopes: map<nat, Envelope>
    var messages: seq<Message>
    var batches: seq<Batch>
    var pages: Pages
    var wakes: map<Chat, Wake>
    var claims: nat

    function Contents(): Ledger
      reads this
    {
      Ledger(envelopes, messages, batches, pages, wakes, claims)
    }

    constructor ()
      ensures Contents() == Ledger(map[], [], [], map[], map[], 0)
    {
      envelopes, messages, batches, pages, wakes, claims := map[], [], [], map[], map[], 0;
    }

    /** What the caller's transaction does when a conflict is raised. */
    method RollBack(before: Ledger)
      modifies this
      ensures Contents() == before
    {
      envelopes, messages, batches := before.envelopes, before.messages, before.batches;
      pages, wakes, claims := before.pages, before.wakes, before.claims;
    }

    method StoreMessage(id: nat, inReplyTo: Option<nat>) returns (stored: bool)
      modifies this
      ensures (Contents(), stored) == Store(old(Contents()), id, inReplyTo)
    {
      if id !in envelopes {
        return false;
      }
      var e := envelopes[id];
      if !Storable(e) || (inReplyTo.Some? && inReplyTo != e.replyTo) || !ParentAvailable(Contents(), e) {
        return false;
      }
      var before := Contents();
      if !HasMessage(before, id) {
        messages := messages + [Message(id, e.source, e.target, e.pair, e.replyTo, None, None)];
        assert Contents() == Appended(before, id, e);
      }
      if !(forall m | m in messages :: m.id == id ==> RowAgrees(m, e)) || !Bounded(e) {
        RollBack(before);
        return false;
      }
      return true;
    }

    /** One bounded page of the rows, accumulated message by message. */
    method Page(rows: seq<nat>, limit: nat, receipt: Option<Receipt>) returns (page: Paged)
      requires 0 < limit && AllKnown(Contents(), rows)
      ensures page == PageOf(Contents(), rows, limit, receipt)
    {
      var l := Contents();
      var taken, used := 0, RESERVED_BYTES;
      while taken < |rows|
        invariant taken <= |rows| && taken <= limit
        invariant used == RESERVED_BYTES + TotalSize(l, rows[..taken], receipt)
        invariant Taken(l, rows, limit, receipt, 0) == Taken(l, rows, limit, receipt, taken)
      {
        var size := Size(l, rows[taken], receipt);
        assert rows[..taken + 1][..taken] == rows[..taken];
        if taken == limit || used + size > MAX_PAGE_BYTES {
          if taken == 0 {
            return TooLarge;
          }
          return Paged(rows[..taken], true);
        }
        taken, used := taken + 1, used + size;
      }
      return Paged(rows[..taken], false);
    }

    method GiveReceipts(members: seq<nat>, receipt: Receipt)
      modifies this`messages
      ensures messages == MarkRead(old(messages), members, receipt)
    {
      var start := messages;
      var k := 0;
      while k < |members|
        invariant k <= |members|
        invariant messages == MarkRead(start, members[..k], receipt)
      {
        var n := members[k];
        assert members[..k + 1] == members[..k] + [n];
        if 1 <= n <= |messages| && messages[n - 1].receipt.None? {
          messages := messages[n - 1 := messages[n - 1].(receipt := Some(receipt))];
        }
        k := k + 1;
      }
      assert members[..k] == members;
    }

    method AnswerFrom(read: nat, r: Request, page: MailboxModel.Page, replayed: bool) returns (reply: Reply)
      requires read < |batches| && 0 < r.limit
      ensures reply == Answer(Contents(), read, r, page, replayed)
    {
      var paged := Paged([], false);
      if page.members != [] {
        var f := MemberFilter(Contents(), r, page.members);
        SelectedAreKnown(Contents(), f, 1);
        paged := Page(Rows(Contents(), f), r.limit, None);
      }
      if paged.TooLarge? || paged.more {
        return Conflict;
      }
      return Reply.Read(read, batches[read].snapshot, paged.rows, if page.more then Some(page.end) else None, page.more,
                        |page.members| - |paged.rows|, replayed);
    }

    method ReadFromBatch(read: nat, r: Request) returns (reply: Reply)
      requires read < |batches| && 0 < r.limit
      modifies this
      ensures (Contents(), reply) == ReadBatch(old(Contents()), read, r)
    {
      var key := PageKey(read, r.after);
      if batches[read].source != r.source || batches[read].limit != r.limit {
        return Conflict;
      }
      if key in pages {
        reply := AnswerFrom(read, r, pages[key], true);
        return;
      }
      if r.after != 0 && !Continues(pages, read, r.after) {
        return Conflict;
      }
      var f := UnreadFilter(Contents(), read, r);
      SelectedAreKnown(Contents(), f, 1);
      var paged := Page(Rows(Contents(), f), r.limit, Some(Receipt(read, r.now)));
      if paged.TooLarge? {
        return Conflict;
      }
      var end := if paged.rows == [] then r.after else paged.rows[|paged.rows| - 1];
      pages := pages[key := MailboxModel.Page(end, paged.more, paged.rows)];
      GiveReceipts(paged.rows, Receipt(read, r.now));
      assert Contents() == Claimed(old(Contents()), read, r, paged.rows, paged.more);
      reply := AnswerFrom(read, r, pages[key], false);
    }

    method Read(r: Request) returns (reply: Reply)
      modifies this
      ensures (Contents(), reply) == ReadSender(old(Contents()), r)
    {
      if r.limit < 1 || r.limit > MAX_PAGE_ITEMS {
        return Conflict;
      }
      var before := Contents();
      var found := Matching(batches, r.target, r.request, 0);
      MatchingInRange(batches, r.target, r.request, 0);
      if |found| > 1 {
        return Conflict;
      }
      var read := |batches|;
      if found == [] {
        if r.after != 0 {
          return Conflict;
        }
        var high := HighWater(Contents(), r.target, r.source, |messages|);
        batches := batches + [Batch(r.target, r.source, r.run, r.request, high, r.limit)];
        assert Contents() == Opened(before, r);
      } else {
        read := found[0];
      }
      reply := ReadFromBatch(read, r);
      if reply.Conflict? {
        RollBack(before);
      }
    }

    method ExcludeWhere(target: Target, reason: Reason)
      modifies this
      ensures Contents() == Exclude(old(Contents()), target, reason)
    {
      var start := messages;
      var k := 0;
      while k < |messages|
        invariant k <= |messages| == |start|
        invariant forall i :: 0 <= i < |start| ==>
          messages[i] == (if i < k && Covers(target, start[i]) && start[i].excluded.None?
                          then start[i].(excluded := Some(reason)) else start[i])
        invariant Contents() == old(Contents()).(messages := messages)
      {
        if Covers(target, messages[k]) && messages[k].excluded.None? {
          messages := messages[k := messages[k].(excluded := Some(reason))];
        }
        k := k + 1;
      }
      assert messages == Exclude(old(Contents()), target, reason).messages;
    }

    method CancelMessage(id: nat) returns (reply: CancelReply)
      modifies this
      ensures (Contents(), reply) == Cancel(old(Contents()), id)
    {
      var row := RowOf(Contents(), id, |messages|);
      RowOfIsKnown(Contents(), id, |messages|);
      if row.None? || id !in envelopes {
        return NothingToCancel;
      }
      var m := messages[row.value - 1];
      var e := envelopes[id];
      if e.status.Cancelled? && m.excluded == Some(WasCancelled) {
        return NothingToCancel;
      }
      if !e.status.Stored? || !e.mailbox || m.excluded.Some? || m.receipt.Some? {
        return CancelConflict;
      }
      messages := messages[row.value - 1 := m.(excluded := Some(WasCancelled))];
      envelopes := envelopes[id := e.(status := Cancelled)];
      return DidCancel;
    }

    method Claim(chat: Chat, pairs: set<Pair>) returns (wake: Option<Wake>)
      modifies this
      ensures (Contents(), wake) == ClaimWake(old(Contents()), chat, pairs)
    {
      var prior := WakeOf(Contents(), chat);
      if prior.state.Reserved? {
        return None;
      }
      var through := Latest(Contents(), PendingFilter(Contents(), chat, pairs, prior.Cutoff(), |messages|));
      if through == 0 {
        return None;
      }
      var reserved := Wake(prior.last, prior.suppressed, Some(claims), through, Reserved, None);
      wakes := wakes[chat := reserved];
      claims := claims + 1;
      return Some(reserved);
    }

    method Admit(chat: Chat, claim: nat, run: string, pairs: set<Pair>) returns (admitted: bool)
      modifies this
      ensures (Contents(), admitted) == AdmitWake(old(Contents()), chat, claim, run, pairs)
    {
      var wake := WakeOf(Contents(), chat);
      if !wake.state.Reserved? || wake.claim != Some(claim) {
        return false;
      }
      if Rows(Contents(), PendingFilter(Contents(), chat, pairs, wake.Cutoff(), wake.through)) == [] {
        return false;
      }
      var last := if wake.last > wake.through then wake.last else wake.through;
      wakes := wakes[chat := wake.(state := Admitted, run := Some(run), last := last)];
      return true;
    }

    method Release(chat: Chat, claim: nat) returns (released: bool)
      modifies this
      ensures (Contents(), released) == ReleaseWake(old(Contents()), chat, claim)
    {
      var wake := WakeOf(Contents(), chat);
      if !wake.state.Reserved? || wake.claim != Some(claim) {
        return false;
      }
      wakes := wakes[chat := Wake(wake.last, wake.suppressed, None, 0, Idle, None)];
      return true;
    }

    method Suppress(chat: Chat) returns (suppressed: nat)
      modifies this
      ensures Contents() == SuppressWake(old(Contents()), chat)
      ensures suppressed == WakeOf(Contents(), chat).suppressed
    {
      var mark := UnreadMark(Contents(), chat, |messages|);
      var wake := WakeOf(Contents(), chat);
      if wake.suppressed < mark {
        wake := wake.(suppressed := mark);
      }
      wakes := wakes[chat := wake];
      if wake.state.Reserved? {
        wakes := wakes[chat := Freed(wake)];
      }
      return wake.suppressed;
    }

    method Recover()
      modifies this
      ensures Contents() == RecoverWakes(old(Contents()))
    {
      wakes := map chat | chat in wakes :: if wakes[chat].state.Reserved? then Freed(wakes[chat]) else wakes[chat];
    }
  }
}
