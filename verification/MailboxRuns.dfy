/** Runs of the mailbox: every command in any order, with envelopes posted and edited in between. */
module MailboxRuns {
  import opened Options
  import opened MailboxModel
  import opened MailboxReads

  datatype Command =
    | PostEnvelope(id: nat, envelope: Envelope)
    | EditEnvelope(id: nat, size: nat)
    | StoreMessage(id: nat, inReplyTo: Option<nat>)
    | ReadPage(request: Request)
    | ExcludeWhere(target: Target, reason: Reason)
    | CancelMessage(id: nat)
    | ClaimFor(chat: Chat, pairs: set<Pair>)
    | AdmitFor(chat: Chat, claim: nat, run: string, pairs: set<Pair>)
    | ReleaseFor(chat: Chat, claim: nat)
    | SuppressFor(chat: Chat)
    | RecoverAll

  /** Envelopes are created once; afterwards only their body changes, except through `Cancel`. */
  function Apply(l: Ledger, c: Command): Ledger {
    match c
    case PostEnvelope(id, e) => if id in l.envelopes then l else l.(envelopes := l.envelopes[id := e])
    case EditEnvelope(id, size) =>
      if id !in l.envelopes then l
      else l.(envelopes := l.envelopes[id := l.envelopes[id].(size := size, edited := true)])
    case StoreMessage(id, inReplyTo) => Store(l, id, inReplyTo).0
    case ReadPage(request) => ReadSender(l, request).0
    case ExcludeWhere(target, reason) => Exclude(l, target, reason)
    case CancelMessage(id) => Cancel(l, id).0
    case ClaimFor(chat, pairs) => ClaimWake(l, chat, pairs).0
    case AdmitFor(chat, claim, run, pairs) => AdmitWake(l, chat, claim, run, pairs).0
    case ReleaseFor(chat, claim) => ReleaseWake(l, chat, claim).0
    case SuppressFor(chat) => SuppressWake(l, chat)
    case RecoverAll => RecoverWakes(l)
  }

  function Execute(l: Ledger, run: seq<Command>): Ledger
    decreases |run|
  {
    if run == [] then l else Execute(Apply(l, run[0]), run[1..])
  }

  // ---------- what every command keeps ----------

  ghost predicate SameRow(l: Ledger, next: Ledger, n: nat) {
    Known(l, n) ==>
      && Known(next, n)
      && var a, b := At(l, n), At(next, n);
         && a.id == b.id && a.source == b.source && a.target == b.target && a.pair == b.pair
         && (a.receipt.Some? ==> b.receipt == a.receipt)
         && (Valid(next, b) ==> Valid(l, a))
  }

  /** Rows are only added, a receipt is never changed or taken back, and a message that has
      stopped being valid does not become valid again. */
  ghost predicate Evolves(l: Ledger, next: Ledger) {
    && |l.messages| <= |next.messages|
    && l.batches <= next.batches
    && (forall key :: key in l.pages ==> key in next.pages && next.pages[key] == l.pages[key])
    && (forall n :: SameRow(l, next, n))
  }

  lemma EvolvesTransitively(a: Ledger, b: Ledger, c: Ledger)
    requires Evolves(a, b) && Evolves(b, c)
    ensures Evolves(a, c)
  {
    forall n ensures SameRow(a, c, n) {
      assert SameRow(a, b, n) && SameRow(b, c, n);
    }
  }

  lemma ClaimEvolves(l: Ledger, read: nat, r: Request, members: seq<nat>, more: bool)
    requires Claims(l, read, r, members, more)
    ensures Evolves(l, Claimed(l, read, r, members, more))
  {
    forall n ensures SameRow(l, Claimed(l, read, r, members, more), n) {
      if Known(l, n) {
        MarkedAt(l, read, r, members, more, n);
      }
    }
  }

  lemma ReadBatchEvolves(l: Ledger, read: nat, r: Request)
    requires read < |l.batches| && 0 < r.limit
    ensures Evolves(l, ReadBatch(l, read, r).0)
  {
    ReadBatchEffect(l, read, r);
    if Fresh(l, read, r) && FreshPage(l, read, r).Paged? {
      FreshPageClaims(l, read, r);
      ClaimEvolves(l, read, r, FreshPage(l, read, r).rows, FreshPage(l, read, r).more);
    }
  }

  lemma ReadEvolves(l: Ledger, r: Request)
    ensures Evolves(l, ReadSender(l, r).0)
  {
    var found := Matching(l.batches, r.target, r.request, 0);
    MatchingInRange(l.batches, r.target, r.request, 0);
    if 1 <= r.limit {
      if found == [] {
        assert Evolves(l, Opened(l, r));
        ReadBatchEvolves(Opened(l, r), |l.batches|, r);
        EvolvesTransitively(l, Opened(l, r), ReadBatch(Opened(l, r), |l.batches|, r).0);
      } else {
        ReadBatchEvolves(l, found[0], r);
      }
    }
  }

  lemma CancelEffect(l: Ledger, id: nat)
    ensures var (next, reply) := Cancel(l, id);
      if reply.DidCancel? then
        exists n ::
          && Known(l, n) && At(l, n).id == id && id in l.envelopes
          && l.envelopes[id].status.Stored? && At(l, n).receipt.None? && At(l, n).excluded.None?
          && next == l.(messages := l.messages[n - 1 := At(l, n).(excluded := Some(WasCancelled))],
                        envelopes := l.envelopes[id := l.envelopes[id].(status := Cancelled)])
      else next == l
  {
    var row := RowOf(l, id, |l.messages|);
    RowOfIsKnown(l, id, |l.messages|);
    if Cancel(l, id).1.DidCancel? {
      assert Known(l, row.value) && At(l, row.value).id == id;
    }
  }

  lemma ExcludeEvolves(l: Ledger, target: Target, reason: Reason)
    ensures Evolves(l, Exclude(l, target, reason))
  {
    var next := Exclude(l, target, reason);
    forall n ensures SameRow(l, next, n) {
      if Known(l, n) {
        assert At(next, n) == At(l, n) || At(next, n) == At(l, n).(excluded := Some(reason));
      }
    }
  }

  lemma CancelEvolves(l: Ledger, id: nat)
    ensures Evolves(l, Cancel(l, id).0)
  {
    CancelEffect(l, id);
    var next := Cancel(l, id).0;
    forall n ensures SameRow(l, next, n) {
    }
  }

  lemma StoreEvolves(l: Ledger, id: nat, inReplyTo: Option<nat>)
    ensures Evolves(l, Store(l, id, inReplyTo).0)
  {
    var next := Store(l, id, inReplyTo).0;
    assert next == l || next == Appended(l, id, l.envelopes[id]);
    forall n ensures SameRow(l, next, n) {
    }
  }

  lemma EditEvolves(l: Ledger, id: nat, size: nat)
    ensures Evolves(l, Apply(l, EditEnvelope(id, size)))
  {
    var next := Apply(l, EditEnvelope(id, size));
    forall n ensures SameRow(l, next, n) {
      assert Known(l, n) ==> At(next, n) == At(l, n);
    }
  }

  /** A fresh envelope can only make a row valid that has no envelope yet; the ledger has none. */
  lemma PostEvolves(l: Ledger, id: nat, e: Envelope)
    requires EnvelopesOk(l)
    ensures Evolves(l, Apply(l, PostEnvelope(id, e)))
  {
    var next := Apply(l, PostEnvelope(id, e));
    forall n ensures SameRow(l, next, n) {
      assert Known(l, n) ==> At(next, n) == At(l, n);
    }
  }

  predicate IsWakeCommand(c: Command) {
    c.ClaimFor? || c.AdmitFor? || c.ReleaseFor? || c.SuppressFor? || c.RecoverAll?
  }

  lemma WakeCommandsLeaveMail(l: Ledger, c: Command)
    requires IsWakeCommand(c)
    ensures var next := Apply(l, c); next == l.(wakes := next.wakes, claims := next.claims)
  {
  }

  lemma WakesEvolve(l: Ledger, next: Ledger)
    requires next == l.(wakes := next.wakes, claims := next.claims)
    ensures Evolves(l, next)
  {
    forall n ensures SameRow(l, next, n) {
      assert Known(l, n) ==> At(next, n) == At(l, n) && (Valid(next, At(next, n)) <==> Valid(l, At(l, n)));
    }
  }

  lemma CommandEvolves(l: Ledger, c: Command)
    requires EnvelopesOk(l)
    ensures Evolves(l, Apply(l, c))
  {
    match c
    case PostEnvelope(id, e) => PostEvolves(l, id, e);
    case EditEnvelope(id, size) => EditEvolves(l, id, size);
    case StoreMessage(id, inReplyTo) => StoreEvolves(l, id, inReplyTo);
    case ReadPage(request) => ReadEvolves(l, request);
    case ExcludeWhere(target, reason) => ExcludeEvolves(l, target, reason);
    case CancelMessage(id) => CancelEvolves(l, id);
    case _ =>
      WakeCommandsLeaveMail(l, c);
      WakesEvolve(l, Apply(l, c));
  }

  // ---------- the invariant along a run ----------

  lemma QuietStepKeepsInv(l: Ledger, next: Ledger)
    requires Inv(l)
    requires next.pages == l.pages && next.batches == l.batches && |l.messages| <= |next.messages|
    requires forall n :: Known(l, n) ==> At(next, n).id == At(l, n).id && At(next, n).receipt == At(l, n).receipt
    requires forall n :: Known(next, n) && !Known(l, n) ==> At(next, n).receipt.None?
    requires IdsUnique(next) && EnvelopesOk(next)
    ensures Inv(next)
  {
    forall n | Known(next, n) && At(next, n).receipt.Some?
      ensures exists key :: ReadBy(next, n, key)
    {
      assert Known(l, n);
      var key :| ReadBy(l, n, key);
      assert ReadBy(next, n, key);
    }
    forall key, n | key in next.pages && n in next.pages[key].members
      ensures ReadBy(next, n, key)
    {
      assert ReadBy(l, n, key);
    }
  }

  lemma StoreKeepsInv(l: Ledger, id: nat, inReplyTo: Option<nat>)
    requires Inv(l)
    ensures Inv(Store(l, id, inReplyTo).0)
  {
    var next := Store(l, id, inReplyTo).0;
    if next != l {
      assert !HasMessage(l, id);
      forall n | Known(l, n) ensures At(l, n).id != id {
        assert At(l, n) in l.messages;
      }
      assert next == Appended(l, id, l.envelopes[id]);
      forall n: nat | Known(next, n)
        ensures At(next, n).id in next.envelopes
        ensures next.envelopes[At(next, n).id].status.Cancelled? ==> At(next, n).receipt.None?
        ensures next.envelopes[At(next, n).id].edited || Bounded(next.envelopes[At(next, n).id])
      {
        assert n <= |l.messages| ==> Known(l, n);
      }
      forall a: nat, b: nat | Known(next, a) && Known(next, b) && At(next, a).id == At(next, b).id
        ensures a == b
      {
        assert a <= |l.messages| ==> Known(l, a);
        assert b <= |l.messages| ==> Known(l, b);
      }
      QuietStepKeepsInv(l, next);
    }
  }

  lemma CancelKeepsInv(l: Ledger, id: nat)
    requires Inv(l)
    ensures Inv(Cancel(l, id).0)
  {
    CancelEffect(l, id);
    var next := Cancel(l, id).0;
    if Cancel(l, id).1.DidCancel? {
      assert forall n :: Known(l, n) ==> At(next, n).id == At(l, n).id && At(next, n).receipt == At(l, n).receipt;
      QuietStepKeepsInv(l, next);
    }
  }

  lemma ExcludeKeepsInv(l: Ledger, target: Target, reason: Reason)
    requires Inv(l)
    ensures Inv(Exclude(l, target, reason))
  {
    var next := Exclude(l, target, reason);
    forall n | Known(l, n) ensures At(next, n).id == At(l, n).id && At(next, n).receipt == At(l, n).receipt {
      assert At(next, n) == At(l, n) || At(next, n) == At(l, n).(excluded := Some(reason));
    }
    QuietStepKeepsInv(l, next);
  }

  lemma EnvelopeStepKeepsInv(l: Ledger, next: Ledger)
    requires Inv(l) && next == l.(envelopes := next.envelopes)
    requires forall id :: id in l.envelopes ==>
               && id in next.envelopes
               && next.envelopes[id].status == l.envelopes[id].status
               && (next.envelopes[id].edited || next.envelopes[id] == l.envelopes[id])
    ensures Inv(next)
  {
    assert forall n :: Known(l, n) ==> At(next, n) == At(l, n);
    forall n: nat | Known(next, n)
      ensures At(next, n).id in next.envelopes
      ensures next.envelopes[At(next, n).id].status.Cancelled? ==> At(next, n).receipt.None?
      ensures next.envelopes[At(next, n).id].edited || Bounded(next.envelopes[At(next, n).id])
    {
      assert Known(l, n);
    }
    forall a: nat, b: nat | Known(next, a) && Known(next, b) && At(next, a).id == At(next, b).id
      ensures a == b
    {
      assert Known(l, a) && Known(l, b);
    }
    QuietStepKeepsInv(l, next);
  }

  lemma WakeStepKeepsInv(l: Ledger, next: Ledger)
    requires Inv(l) && next == l.(wakes := next.wakes, claims := next.claims)
    ensures Inv(next)
  {
    assert forall n :: Known(l, n) ==> At(next, n) == At(l, n);
    forall n: nat | Known(next, n)
      ensures At(next, n).id in next.envelopes
      ensures next.envelopes[At(next, n).id].status.Cancelled? ==> At(next, n).receipt.None?
      ensures next.envelopes[At(next, n).id].edited || Bounded(next.envelopes[At(next, n).id])
    {
      assert Known(l, n);
    }
    forall a: nat, b: nat | Known(next, a) && Known(next, b) && At(next, a).id == At(next, b).id
      ensures a == b
    {
      assert Known(l, a) && Known(l, b);
    }
    QuietStepKeepsInv(l, next);
  }

  lemma ApplyKeepsInv(l: Ledger, c: Command)
    requires Inv(l)
    ensures Inv(Apply(l, c))
  {
    match c
    case PostEnvelope(_, _) => EnvelopeStepKeepsInv(l, Apply(l, c));
    case EditEnvelope(_, _) => EnvelopeStepKeepsInv(l, Apply(l, c));
    case StoreMessage(id, inReplyTo) => StoreKeepsInv(l, id, inReplyTo);
    case ReadPage(request) => ReadKeepsInv(l, request);
    case ExcludeWhere(target, reason) => ExcludeKeepsInv(l, target, reason);
    case CancelMessage(id) => CancelKeepsInv(l, id);
    case _ =>
      WakeCommandsLeaveMail(l, c);
      WakeStepKeepsInv(l, Apply(l, c));
  }

  lemma {:induction false} ExecuteKeepsInv(l: Ledger, run: seq<Command>)
    requires Inv(l)
    ensures Inv(Execute(l, run)) && Evolves(l, Execute(l, run))
    decreases |run|
  {
    if run != [] {
      ApplyKeepsInv(l, run[0]);
      CommandEvolves(l, run[0]);
      ExecuteKeepsInv(Apply(l, run[0]), run[1..]);
      EvolvesTransitively(l, Apply(l, run[0]), Execute(l, run));
    }
  }

  /** Exactly-once reads over whole runs from the empty ledger: each read message is in one
      page of one batch, and neither the page nor the receipt ever changes afterwards. */
  lemma ReadsAreExactlyOnce(run: seq<Command>, rest: seq<Command>, n: nat) returns (key: PageKey)
    requires Known(Execute(EMPTY, run), n) && At(Execute(EMPTY, run), n).receipt.Some?
    ensures var l := Execute(EMPTY, run);
      var later := Execute(l, rest);
      && ReadBy(l, n, key)
      && (forall other :: other in later.pages && n in later.pages[other].members ==> other == key)
      && key in later.pages && later.pages[key] == l.pages[key]
      && Known(later, n) && At(later, n).receipt == At(l, n).receipt
  {
    EmptyIsOk();
    ExecuteKeepsInv(EMPTY, run);
    var l := Execute(EMPTY, run);
    ExecuteKeepsInv(l, rest);
    var later := Execute(l, rest);
    assert SameRow(l, later, n);
    key := ReadExactlyOnce(l, n);
    var same := ReadExactlyOnce(later, n);
  }

  // ---------- completeness of a read snapshot ----------

  /** Still to be read by this batch under the given authorisation. */
  ghost predicate Pending(l: Ledger, read: nat, pairs: set<Pair>, n: nat) {
    && read < |l.batches|
    && Known(l, n)
    && var m := At(l, n);
       && Valid(l, m) && m.receipt.None? && m.pair in pairs
       && m.target == l.batches[read].target && m.source == l.batches[read].source
  }

  /** How far a page accounts for: up to its end, or the whole snapshot when nothing more follows. */
  function Bound(l: Ledger, key: PageKey): nat
    requires key in l.pages && key.read < |l.batches|
  {
    if l.pages[key].more then l.pages[key].end else l.batches[key.read].snapshot
  }

  ghost predicate Accounted(l: Ledger, key: PageKey, pairs: set<Pair>) {
    key in l.pages && key.read < |l.batches| ==>
      forall n :: key.after < n <= Bound(l, key) ==> !Pending(l, key.read, pairs, n)
  }

  ghost predicate Covered(l: Ledger, read: nat, pairs: set<Pair>) {
    forall key :: key in l.pages && key.read == read ==> Accounted(l, key, pairs)
  }

  /** The batch a request reads from, opened now if it is new. */
  function BatchOf(l: Ledger, r: Request): nat {
    var found := Matching(l.batches, r.target, r.request, 0);
    if found == [] then |l.batches| else found[0]
  }

  predicate KeepsAuthority(l: Ledger, c: Command, read: nat, pairs: set<Pair>) {
    c.ReadPage? && BatchOf(l, c.request) == read ==> pairs <= c.request.pairs
  }

  predicate AuthorityKept(l: Ledger, run: seq<Command>, read: nat, pairs: set<Pair>)
    decreases |run|
  {
    run == [] || (KeepsAuthority(l, run[0], read, pairs) && AuthorityKept(Apply(l, run[0]), run[1..], read, pairs))
  }

  lemma EvolvingKeepsAccount(l: Ledger, next: Ledger, key: PageKey, pairs: set<Pair>)
    requires Inv(l) && Evolves(l, next) && key in l.pages && Accounted(l, key, pairs)
    ensures Accounted(next, key, pairs)
  {
    assert PageShape(l.batches, key, l.pages[key]);
    EndInSnapshot(l.batches, key, l.pages[key]);
    assert next.batches[key.read] == l.batches[key.read];
    assert l.batches[key.read].snapshot <= |l.messages|;
    forall n | key.after < n <= Bound(next, key)
      ensures !Pending(next, key.read, pairs, n)
    {
      assert Known(l, n);
      assert !Pending(l, key.read, pairs, n);
      assert SameRow(l, next, n);
    }
  }

  lemma ClaimAccounts(l: Ledger, read: nat, r: Request, members: seq<nat>, more: bool, pairs: set<Pair>)
    requires Claims(l, read, r, members, more) && pairs <= r.pairs
    requires l.batches[read].target == r.target && l.batches[read].source == r.source
    ensures Accounted(Claimed(l, read, r, members, more), PageKey(read, r.after), pairs)
  {
    ClaimedMembers(l, read, r, members, more);
    var next := Claimed(l, read, r, members, more);
    var key := PageKey(read, r.after);
    assert members != [] ==> members[|members| - 1] in members;
    forall n | key.after < n <= Bound(next, key)
      ensures !Pending(next, read, pairs, n)
    {
      if Pending(next, read, pairs, n) {
        MarkedAt(l, read, r, members, more, n);
        assert Selected(l, UnreadFilter(l, read, r), n);
      }
    }
  }

  lemma ReadBatchKeepsCover(l: Ledger, read: nat, r: Request, watched: nat, pairs: set<Pair>)
    requires Inv(l) && read < |l.batches| && 0 < r.limit && l.batches[read].target == r.target
    requires Covered(l, watched, pairs) && (read == watched ==> pairs <= r.pairs)
    ensures Covered(ReadBatch(l, read, r).0, watched, pairs)
  {
    ReadBatchEffect(l, read, r);
    ReadBatchEvolves(l, read, r);
    var next := ReadBatch(l, read, r).0;
    var wrote := Fresh(l, read, r) && FreshPage(l, read, r).Paged?;
    forall key | key in next.pages && key.read == watched
      ensures Accounted(next, key, pairs)
    {
      if key in l.pages {
        EvolvingKeepsAccount(l, next, key, pairs);
      } else {
        assert wrote && key == PageKey(read, r.after);
        FreshPageClaims(l, read, r);
        ClaimAccounts(l, read, r, FreshPage(l, read, r).rows, FreshPage(l, read, r).more, pairs);
      }
    }
  }

  lemma ReadKeepsCover(l: Ledger, r: Request, watched: nat, pairs: set<Pair>)
    requires Inv(l) && Covered(l, watched, pairs)
    requires BatchOf(l, r) == watched ==> pairs <= r.pairs
    ensures Covered(ReadSender(l, r).0, watched, pairs)
  {
    var found := Matching(l.batches, r.target, r.request, 0);
    MatchingInRange(l.batches, r.target, r.request, 0);
    if 1 <= r.limit {
      if found == [] {
        OpenKeepsCover(l, r, watched, pairs);
        ReadBatchKeepsCover(Opened(l, r), |l.batches|, r, watched, pairs);
      } else {
        ReadBatchKeepsCover(l, found[0], r, watched, pairs);
      }
    }
  }

  lemma OpenKeepsCover(l: Ledger, r: Request, watched: nat, pairs: set<Pair>)
    requires Inv(l) && Covered(l, watched, pairs) && 1 <= r.limit && Matching(l.batches, r.target, r.request, 0) == []
    ensures Inv(Opened(l, r)) && Covered(Opened(l, r), watched, pairs)
  {
    OpenKeepsInv(l, r);
    var started := Opened(l, r);
    assert Evolves(l, started);
    forall key | key in started.pages && key.read == watched ensures Accounted(started, key, pairs) {
      EvolvingKeepsAccount(l, started, key, pairs);
    }
  }

  lemma OtherCommandsKeepPages(l: Ledger, c: Command)
    requires !c.ReadPage?
    ensures Apply(l, c).pages == l.pages && Apply(l, c).batches == l.batches
  {
    if c.CancelMessage? {
      CancelEffect(l, c.id);
    }
  }

  lemma ApplyKeepsCover(l: Ledger, c: Command, read: nat, pairs: set<Pair>)
    requires Inv(l) && Covered(l, read, pairs) && KeepsAuthority(l, c, read, pairs)
    ensures Covered(Apply(l, c), read, pairs)
  {
    if c.ReadPage? {
      ReadKeepsCover(l, c.request, read, pairs);
    } else {
      OtherCommandsKeepPages(l, c);
      CommandEvolves(l, c);
      forall key | key in l.pages && key.read == read ensures Accounted(Apply(l, c), key, pairs) {
        EvolvingKeepsAccount(l, Apply(l, c), key, pairs);
      }
    }
  }

  lemma {:induction false} ExecuteKeepsCover(l: Ledger, run: seq<Command>, read: nat, pairs: set<Pair>)
    requires Inv(l) && Covered(l, read, pairs) && AuthorityKept(l, run, read, pairs)
    ensures Covered(Execute(l, run), read, pairs)
    decreases |run|
  {
    if run != [] {
      ApplyKeepsInv(l, run[0]);
      ApplyKeepsCover(l, run[0], read, pairs);
      ExecuteKeepsCover(Apply(l, run[0]), run[1..], read, pairs);
    }
  }

  /** The pages behind a page account for everything before it. */
  lemma {:induction false} ChainAccounts(l: Ledger, key: PageKey, pairs: set<Pair>, n: nat)
    requires Inv(l) && Covered(l, key.read, pairs) && key in l.pages && key.read < |l.batches|
    requires 0 < n <= Bound(l, key)
    ensures !Pending(l, key.read, pairs, n)
    decreases key.after
  {
    assert Accounted(l, key, pairs);
    if n <= key.after {
      assert Linked(l.pages, key);
      var parent := OpenEndOf(l.pages, key.read, key.after);
      assert PageShape(l.batches, parent, l.pages[parent]);
      EndInSnapshot(l.batches, parent, l.pages[parent]);
      ChainAccounts(l, parent, pairs, n);
    }
  }

  /** Snapshot completeness.  Whatever else happens in between — stores, other batches,
      exclusions, cancellations, wakes — once a batch that was always read under at least
      `pairs` has a last page, no message of its snapshot that is still valid and authorised
      is left unread, and the batch has touched nothing beyond its snapshot. */
  lemma SnapshotIsComplete(start: Ledger, run: seq<Command>, key: PageKey, pairs: set<Pair>, n: nat)
    requires Inv(start) && key.read >= |start.batches| && AuthorityKept(start, run, key.read, pairs)
    requires var l := Execute(start, run); key in l.pages && !l.pages[key].more
    ensures var l := Execute(start, run);
      && key.read < |l.batches|
      && (Known(l, n) && n <= l.batches[key.read].snapshot ==> !Pending(l, key.read, pairs, n))
      && (Known(l, n) && At(l, n).receipt.Some? && At(l, n).receipt.value.read == key.read ==>
            n <= l.batches[key.read].snapshot)
  {
    forall other | other in start.pages && other.read == key.read ensures Accounted(start, other, pairs) {
      assert PageShape(start.batches, other, start.pages[other]);
    }
    ExecuteKeepsInv(start, run);
    ExecuteKeepsCover(start, run, key.read, pairs);
    var l := Execute(start, run);
    assert PageShape(l.batches, key, l.pages[key]);
    if Known(l, n) && n <= l.batches[key.read].snapshot {
      ChainAccounts(l, key, pairs, n);
    }
    if Known(l, n) && At(l, n).receipt.Some? && At(l, n).receipt.value.read == key.read {
      var page :| ReadBy(l, n, page);
      assert PageShape(l.batches, page, l.pages[page]);
    }
  }

  /** Every message from the sender that is there when the batch is opened is in its snapshot. */
  lemma OpeningTakesTheWholeBacklog(l: Ledger, r: Request, n: nat)
    requires Known(l, n) && At(l, n).target == r.target && At(l, n).source == r.source
    ensures n <= Opened(l, r).batches[|l.batches|].snapshot <= |l.messages|
  {
    HighWaterSpec(l, r.target, r.source, |l.messages|);
  }
}
