/**
 The cross-chat mailbox ledger: messages in order of their sequence numbers, read batches
 with their pages, and one wake reservation per chat.

 A function that raises a conflict returns the ledger it was given, which is what the
 rolled-back transaction leaves.  Fresh identifiers are drawn from counters.
 */
module MailboxModel {
  import opened Options

  type Chat = string
  type Pair = string

  const MAX_PAGE_ITEMS: nat := 25
  const MAX_PAGE_BYTES: nat := 112 * 1024
  const RESERVED_BYTES: nat := 8192
  const READ_ID_LENGTH: nat := 41

  datatype Status = Stored | Cancelled | Failed | OtherStatus

  /** The columns of an envelope the mailbox looks at.  `size` is the JSON size of the
      message projection without its two read fields. */
  datatype Envelope = Envelope(
    status: Status,
    mailbox: bool,
    instruction: bool,
    configuredRoute: bool,
    wellFormedPair: bool,
    source: Chat,
    target: Chat,
    pair: Pair,
    launched: bool,
    replyTo: Option<nat>,
    size: nat,
    edited: bool)

  datatype Receipt = Receipt(read: nat, at: string)

  datatype Reason = WasCancelled | WasDeleted | WasRevoked

  datatype Message = Message(
    id: nat,
    source: Chat,
    target: Chat,
    pair: Pair,
    parent: Option<nat>,
    receipt: Option<Receipt>,
    excluded: Option<Reason>)

  datatype Batch = Batch(target: Chat, source: Chat, run: string, request: string, snapshot: nat, limit: nat)

  datatype PageKey = PageKey(read: nat, after: nat)

  /** `members` are the sequence numbers of the messages the page claimed. */
  datatype Page = Page(end: nat, more: bool, members: seq<nat>)

  datatype WakeState = Idle | Reserved | Admitted

  datatype Wake = Wake(last: nat, suppressed: nat, claim: Option<nat>, through: nat, state: WakeState, run: Option<string>) {
    function Cutoff(): nat { if last > suppressed then last else suppressed }
  }

  /** Sequence number `n` is the message at index `n - 1`; `claims` counts claim ids drawn. */
  datatype Ledger = Ledger(
    envelopes: map<nat, Envelope>,
    messages: seq<Message>,
    batches: seq<Batch>,
    pages: Pages,
    wakes: map<Chat, Wake>,
    claims: nat)

  // ---------- selection ----------

  predicate Known(l: Ledger, n: nat) {
    1 <= n <= |l.messages|
  }

  function At(l: Ledger, n: nat): Message
    requires Known(l, n)
  {
    l.messages[n - 1]
  }

  /** `_VALID`: a stored mailbox envelope that still agrees with its ledger row. */
  predicate Valid(l: Ledger, m: Message) {
    && m.excluded.None?
    && m.id in l.envelopes
    && var e := l.envelopes[m.id];
       && e.status.Stored? && e.mailbox && e.instruction && e.configuredRoute
       && e.source == m.source && e.target == m.target && e.pair == m.pair
  }

  datatype Filter = Filter(
    target: Chat,
    source: Option<Chat>,
    pairs: set<Pair>,
    unreadOnly: bool,
    after: nat,
    upTo: nat,
    among: Option<seq<nat>>)

  predicate Selected(l: Ledger, f: Filter, n: nat)
    requires Known(l, n)
  {
    var m := At(l, n);
    && Valid(l, m)
    && m.target == f.target
    && m.pair in f.pairs
    && (f.source.Some? ==> m.source == f.source.value)
    && (f.unreadOnly ==> m.receipt.None?)
    && f.after < n <= f.upTo
    && (f.among.Some? ==> n in f.among.value)
  }

  /** The selected sequence numbers from `n` on, in order. */
  function Select(l: Ledger, f: Filter, n: nat): seq<nat>
    requires 1 <= n <= |l.messages| + 1
    decreases |l.messages| + 1 - n
  {
    if n == |l.messages| + 1 then []
    else (if Selected(l, f, n) then [n] else []) + Select(l, f, n + 1)
  }

  function Rows(l: Ledger, f: Filter): seq<nat> {
    Select(l, f, 1)
  }

  /** The largest selected sequence number, or zero: `COALESCE(MAX(mailbox_seq), 0)`. */
  function Latest(l: Ledger, f: Filter): nat {
    var rows := Rows(l, f);
    if rows == [] then 0 else rows[|rows| - 1]
  }

  // ---------- one bounded page ----------

  function TextField(length: nat): nat {
    length + 2
  }

  function ReceiptSize(receipt: Option<Receipt>): nat {
    match receipt
    case None => 4 + 4
    case Some(r) => TextField(READ_ID_LENGTH) + TextField(|r.at|)
  }

  /** The size of one projected message, with the receipt it is about to get or already has. */
  function Size(l: Ledger, n: nat, receipt: Option<Receipt>): nat
    requires Known(l, n)
  {
    var m := At(l, n);
    (if m.id in l.envelopes then l.envelopes[m.id].size else 0)
    + ReceiptSize(if receipt.Some? then receipt else m.receipt)
  }

  predicate AllKnown(l: Ledger, rows: seq<nat>) {
    forall i :: 0 <= i < |rows| ==> Known(l, rows[i])
  }

  function TotalSize(l: Ledger, rows: seq<nat>, receipt: Option<Receipt>): nat
    requires AllKnown(l, rows)
    decreases |rows|
  {
    if rows == [] then 0
    else TotalSize(l, rows[..|rows| - 1], receipt) + Size(l, rows[|rows| - 1], receipt)
  }

  predicate Fits(l: Ledger, rows: seq<nat>, receipt: Option<Receipt>)
    requires AllKnown(l, rows)
  {
    RESERVED_BYTES + TotalSize(l, rows, receipt) <= MAX_PAGE_BYTES
  }

  /** How many of the rows one page takes. */
  function Taken(l: Ledger, rows: seq<nat>, limit: nat, receipt: Option<Receipt>, count: nat): (taken: nat)
    requires AllKnown(l, rows) && count <= |rows|
    ensures count <= taken <= |rows|
    decreases |rows| - count
  {
    if count == |rows| || count == limit || !Fits(l, rows[..count + 1], receipt) then count
    else Taken(l, rows, limit, receipt, count + 1)
  }

  datatype Paged = Paged(rows: seq<nat>, more: bool) | TooLarge

  function PageOf(l: Ledger, rows: seq<nat>, limit: nat, receipt: Option<Receipt>): Paged
    requires AllKnown(l, rows)
  {
    var count := Taken(l, rows, limit, receipt, 0);
    if count == 0 && rows != [] then TooLarge else Paged(rows[..count], count < |rows|)
  }

  // ---------- store_message ----------

  predicate Storable(e: Envelope) {
    && e.status.Stored? && e.mailbox && e.instruction && e.configuredRoute && e.wellFormedPair
    && e.source != e.target && !e.launched
  }

  predicate ParentAvailable(l: Ledger, e: Envelope) {
    e.replyTo.None? ||
    (&& e.replyTo.value in l.envelopes
     && var p := l.envelopes[e.replyTo.value];
        && p.source == e.target && p.target == e.source && p.pair == e.pair
        && p.status != Failed && p.status != Cancelled
        && forall m | m in l.messages :: m.id == e.replyTo.value ==> m.excluded.None?)
  }

  /** The projection with the longest receipt still leaves room in a page. */
  predicate Bounded(e: Envelope) {
    e.size + TextField(240) + TextField(64) + RESERVED_BYTES <= MAX_PAGE_BYTES
  }

  predicate HasMessage(l: Ledger, id: nat) {
    exists m | m in l.messages :: m.id == id
  }

  predicate RowAgrees(m: Message, e: Envelope) {
    m.source == e.source && m.target == e.target && m.pair == e.pair && m.parent == e.replyTo
  }

  function Appended(l: Ledger, id: nat, e: Envelope): Ledger {
    l.(messages := l.messages + [Message(id, e.source, e.target, e.pair, e.replyTo, None, None)])
  }

  /** `INSERT OR IGNORE`: an already stored envelope keeps its row. */
  function Store(l: Ledger, id: nat, inReplyTo: Option<nat>): (Ledger, bool) {
    if id !in l.envelopes then (l, false)
    else
      var e := l.envelopes[id];
      if !Storable(e) || (inReplyTo.Some? && inReplyTo != e.replyTo) || !ParentAvailable(l, e) then (l, false)
      else
        var stored := if HasMessage(l, id) then l else Appended(l, id, e);
        if (forall m | m in stored.messages :: m.id == id ==> RowAgrees(m, e)) && Bounded(e)
        then (stored, true)
        else (l, false)
  }

  // ---------- read_sender ----------

  function Matching(batches: seq<Batch>, target: Chat, request: string, from: nat): seq<nat>
    requires from <= |batches|
    decreases |batches| - from
  {
    if from == |batches| then []
    else
      (if batches[from].target == target && batches[from].request == request then [from] else [])
      + Matching(batches, target, request, from + 1)
  }

  datatype Reply =
    | Conflict
    | Read(read: nat, snapshot: nat, rows: seq<nat>, next: Option<nat>, more: bool, unavailable: int, replayed: bool)

  datatype Request = Request(
    target: Chat, source: Chat, run: string, request: string, pairs: set<Pair>, now: string, after: nat, limit: nat)

  function ScopeOf(r: Request): Filter {
    Filter(r.target, Some(r.source), r.pairs, false, 0, 0, None)
  }

  /** The highest sequence number from this sender to this target, valid or not. */
  function HighWater(l: Ledger, target: Chat, source: Chat, n: nat): nat
    requires n <= |l.messages|
  {
    if n == 0 then 0
    else if l.messages[n - 1].target == target && l.messages[n - 1].source == source then n
    else HighWater(l, target, source, n - 1)
  }

  function Opened(l: Ledger, r: Request): Ledger {
    l.(batches := l.batches + [Batch(r.target, r.source, r.run, r.request,
                                 HighWater(l, r.target, r.source, |l.messages|), r.limit)])
  }

  type Pages = map<PageKey, Page>

  /** Some page of the batch ended here and announced more. */
  predicate Continues(pages: Pages, read: nat, after: nat) {
    exists key | key in pages :: key.read == read && pages[key].end == after && pages[key].more
  }

  function UnreadFilter(l: Ledger, read: nat, r: Request): Filter
    requires read < |l.batches|
  {
    ScopeOf(r).(unreadOnly := true, after := r.after, upTo := l.batches[read].snapshot)
  }

  /** The page's members get their receipt; a message that already has one keeps it. */
  function MarkRead(messages: seq<Message>, members: seq<nat>, receipt: Receipt): (marked: seq<Message>)
    ensures |marked| == |messages|
  {
    seq(|messages|, i requires 0 <= i < |messages| =>
      if i + 1 in members && messages[i].receipt.None? then messages[i].(receipt := Some(receipt)) else messages[i])
  }

  function Claimed(l: Ledger, read: nat, r: Request, members: seq<nat>, more: bool): Ledger {
    var end := if members == [] then r.after else members[|members| - 1];
    l.(pages := l.pages[PageKey(read, r.after) := Page(end, more, members)],
       messages := MarkRead(l.messages, members, Receipt(read, r.now)))
  }

  function MemberFilter(l: Ledger, r: Request, members: seq<nat>): Filter {
    ScopeOf(r).(upTo := |l.messages|, among := Some(members))
  }

  /** Reads the page's members again under the current scope and builds the answer. */
  function Answer(l: Ledger, read: nat, r: Request, page: Page, replayed: bool): Reply
    requires read < |l.batches|
  {
    var rows := Rows(l, MemberFilter(l, r, page.members));
    SelectedAreKnown(l, MemberFilter(l, r, page.members), 1);
    var paged := if page.members == [] then Paged([], false) else PageOf(l, rows, r.limit, None);
    if paged.TooLarge? || paged.more then Conflict
    else Read(read, l.batches[read].snapshot, paged.rows, if page.more then Some(page.end) else None, page.more,
              |page.members| - |paged.rows|, replayed)
  }

  lemma SelectedAreKnown(l: Ledger, f: Filter, n: nat)
    requires 1 <= n <= |l.messages| + 1
    ensures AllKnown(l, Select(l, f, n))
    decreases |l.messages| + 1 - n
  {
  }

  /** The part of `read_sender` after its batch is known. */
  function ReadBatch(l: Ledger, read: nat, r: Request): (Ledger, Reply)
    requires read < |l.batches|
  {
    var key := PageKey(read, r.after);
    if l.batches[read].source != r.source || l.batches[read].limit != r.limit then (l, Conflict)
    else if key in l.pages then (l, Answer(l, read, r, l.pages[key], true))
    else if r.after != 0 && !Continues(l.pages, read, r.after) then (l, Conflict)
    else
      var rows := Rows(l, UnreadFilter(l, read, r));
      SelectedAreKnown(l, UnreadFilter(l, read, r), 1);
      var paged := PageOf(l, rows, r.limit, Some(Receipt(read, r.now)));
      if paged.TooLarge? then (l, Conflict)
      else
        var claimed := Claimed(l, read, r, paged.rows, paged.more);
        (claimed, Answer(claimed, read, r, claimed.pages[key], false))
  }

  function ReadSender(l: Ledger, r: Request): (Ledger, Reply) {
    var found := Matching(l.batches, r.target, r.request, 0);
    MatchingInRange(l.batches, r.target, r.request, 0);
    if r.limit < 1 || r.limit > MAX_PAGE_ITEMS || |found| > 1 then (l, Conflict)
    else if found == [] && r.after != 0 then (l, Conflict)
    else
      var started := if found == [] then Opened(l, r) else l;
      var read := if found == [] then |l.batches| else found[0];
      var (next, reply) := ReadBatch(started, read, r);
      if reply.Conflict? then (l, Conflict) else (next, reply)
  }

  lemma MatchingInRange(batches: seq<Batch>, target: Chat, request: string, from: nat)
    requires from <= |batches|
    ensures forall i :: 0 <= i < |Matching(batches, target, request, from)| ==>
              var b := Matching(batches, target, request, from)[i];
              from <= b < |batches| && batches[b].target == target && batches[b].request == request
    decreases |batches| - from
  {
  }

  // ---------- exclusion and cancellation ----------

  predicate Hits(m: Message, chat: Chat) {
    m.source == chat || m.target == chat
  }

  datatype Target = OneMessage(id: nat, target: Chat) | WholePair(pair: Pair) | WholeSession(chat: Chat)

  predicate Covers(t: Target, m: Message) {
    match t
    case OneMessage(id, target) => m.id == id && m.target == target
    case WholePair(pair) => m.pair == pair
    case WholeSession(chat) => Hits(m, chat)
  }

  function Exclude(l: Ledger, t: Target, reason: Reason): Ledger {
    l.(messages := seq(|l.messages|, i requires 0 <= i < |l.messages| =>
      if Covers(t, l.messages[i]) && l.messages[i].excluded.None? then l.messages[i].(excluded := Some(reason))
      else l.messages[i]))
  }

  datatype CancelReply = CancelConflict | NothingToCancel | DidCancel

  function RowOf(l: Ledger, id: nat, n: nat): Option<nat>
    requires n <= |l.messages|
  {
    if n == 0 then None else if l.messages[n - 1].id == id then Some(n) else RowOf(l, id, n - 1)
  }

  lemma {:induction false} RowOfIsKnown(l: Ledger, id: nat, n: nat)
    requires n <= |l.messages|
    ensures RowOf(l, id, n).Some? ==> Known(l, RowOf(l, id, n).value) && At(l, RowOf(l, id, n).value).id == id
    ensures RowOf(l, id, n).None? ==> forall i :: 0 <= i < n ==> l.messages[i].id != id
  {
    if n > 0 && l.messages[n - 1].id != id {
      RowOfIsKnown(l, id, n - 1);
    }
  }

  /** An unread stored message is withdrawn; a completed read wins. */
  function Cancel(l: Ledger, id: nat): (Ledger, CancelReply) {
    var row := RowOf(l, id, |l.messages|);
    RowOfIsKnown(l, id, |l.messages|);
    if row.None? || id !in l.envelopes then (l, NothingToCancel)
    else
      var m := At(l, row.value);
      var e := l.envelopes[id];
      if e.status.Cancelled? && m.excluded == Some(WasCancelled) then (l, NothingToCancel)
      else if !e.status.Stored? || !e.mailbox || m.excluded.Some? || m.receipt.Some? then (l, CancelConflict)
      else
        (l.(messages := l.messages[row.value - 1 := m.(excluded := Some(WasCancelled))],
            envelopes := l.envelopes[id := e.(status := Cancelled)]), DidCancel)
  }

  // ---------- wakes ----------

  const NO_WAKE := Wake(0, 0, None, 0, Idle, None)

  function WakeOf(l: Ledger, target: Chat): Wake {
    if target in l.wakes then l.wakes[target] else NO_WAKE
  }

  function PendingFilter(l: Ledger, target: Chat, pairs: set<Pair>, after: nat, upTo: nat): Filter {
    Filter(target, None, pairs, true, after, upTo, None)
  }

  function ClaimWake(l: Ledger, target: Chat, pairs: set<Pair>): (Ledger, Option<Wake>) {
    var prior := WakeOf(l, target);
    if prior.state.Reserved? then (l, None)
    else
      var through := Latest(l, PendingFilter(l, target, pairs, prior.Cutoff(), |l.messages|));
      if through == 0 then (l, None)
      else
        var wake := prior.(claim := Some(l.claims), through := through, state := Reserved, run := None);
        (l.(wakes := l.wakes[target := wake], claims := l.claims + 1), Some(wake))
  }

  function AdmitWake(l: Ledger, target: Chat, claim: nat, run: string, pairs: set<Pair>): (Ledger, bool) {
    var wake := WakeOf(l, target);
    if !wake.state.Reserved? || wake.claim != Some(claim) then (l, false)
    else if Rows(l, PendingFilter(l, target, pairs, wake.Cutoff(), wake.through)) == [] then (l, false)
    else
      var last := if wake.last > wake.through then wake.last else wake.through;
      (l.(wakes := l.wakes[target := wake.(state := Admitted, run := Some(run), last := last)]), true)
  }

  function Freed(wake: Wake): Wake {
    wake.(claim := None, through := 0, state := Idle, run := None)
  }

  function ReleaseWake(l: Ledger, target: Chat, claim: nat): (Ledger, bool) {
    var wake := WakeOf(l, target);
    if !wake.state.Reserved? || wake.claim != Some(claim) then (l, false)
    else (l.(wakes := l.wakes[target := Freed(wake)]), true)
  }

  /** The highest unread valid message of a chat, whatever its pair is authorised for now. */
  function UnreadMark(l: Ledger, target: Chat, n: nat): nat
    requires n <= |l.messages|
  {
    if n == 0 then 0
    else
      var m := l.messages[n - 1];
      if Valid(l, m) && m.target == target && m.receipt.None? then n else UnreadMark(l, target, n - 1)
  }

  function SuppressWake(l: Ledger, target: Chat): Ledger {
    var wake := WakeOf(l, target);
    var mark := UnreadMark(l, target, |l.messages|);
    var raised := wake.(suppressed := if wake.suppressed > mark then wake.suppressed else mark);
    l.(wakes := l.wakes[target := if raised.state.Reserved? then Freed(raised) else raised])
  }

  function RecoverWakes(l: Ledger): Ledger {
    l.(wakes := map target | target in l.wakes ::
      if l.wakes[target].state.Reserved? then Freed(l.wakes[target]) else l.wakes[target])
  }
}
