/** Scanning a paged, ascending mailbox for one sender without losing or repeating a message. */
module SenderScan {
  import opened Options

  const PAGE_SIZE: nat := 50
  const MAX_RESULTS: nat := 50
  const MAX_PAGES: nat := 20
  const OUTPUT_MAX_BYTES: nat := 96 * 1024

  /** Folded display names and team ids enter only through equality, so a number stands for each. */
  type Name = nat

  /** `sender` is the folded display name, or none when the entry is malformed; `size` its JSON size. */
  datatype Item = Item(sequence: nat, sender: Option<Name>, size: nat)

  datatype Page = Page(items: seq<Item>, next: nat, more: bool, team: Option<Name>, metadata: nat)

  datatype Stop = PageLimit | TimeLimit | OutputLimit | Exhausted | ResultLimit

  datatype Result =
    | Failed
    | Scanned(messages: seq<Item>, next: nat, more: bool, stop: Stop, pages: nat, scanned: nat)

  /** How many messages a call may return. */
  function Least(requested: nat): nat {
    if requested < MAX_RESULTS then requested else MAX_RESULTS
  }

  // ---------- the size of an answer ----------

  function Digits(n: nat): nat {
    if n < 10 then 1 else 1 + Digits(n / 10)
  }

  function StopLength(stop: Stop): nat {
    match stop
    case PageLimit => 10
    case TimeLimit => 10
    case OutputLimit => 12
    case Exhausted => 9
    case ResultLimit => 12
  }

  function SizeOf(items: seq<Item>): nat
    decreases |items|
  {
    if items == [] then 0 else SizeOf(items[..|items| - 1]) + items[|items| - 1].size
  }

  /** `has_more` and `scan_complete` are each other's negation, so one is written `true` and one `false`. */
  const FLAGS_LENGTH: nat := 9

  /** Page metadata, the messages, and the scan's own counters and flags. */
  function OutputSize(metadata: nat, items: seq<Item>, next: nat, stop: Stop, pages: nat, scanned: nat): nat {
    metadata + SizeOf(items) + Digits(next) + FLAGS_LENGTH + StopLength(stop) + Digits(pages) + Digits(scanned)
  }

  /** The size an answer would have with one more match, reserving the largest counters. */
  function CandidateSize(metadata: nat, items: seq<Item>, next: nat): nat {
    OutputSize(metadata, items, next, OutputLimit, MAX_PAGES, MAX_PAGES * PAGE_SIZE)
  }

  // ---------- a fixed mailbox and a server that pages it ----------

  ghost predicate Ascending(mailbox: seq<Item>) {
    && (forall i, j :: 0 <= i < j < |mailbox| ==> mailbox[i].sequence < mailbox[j].sequence)
    && (forall i :: 0 <= i < |mailbox| ==> mailbox[i].sequence > 0 && mailbox[i].sender.Some?)
  }

  /** How many of the first `n` messages lie at or before the cursor. */
  function UptoIn(mailbox: seq<Item>, n: nat, cursor: nat): (count: nat)
    requires n <= |mailbox|
    ensures count <= n
  {
    if n == 0 || mailbox[n - 1].sequence <= cursor then n else UptoIn(mailbox, n - 1, cursor)
  }

  function Upto(mailbox: seq<Item>, cursor: nat): (count: nat)
    ensures count <= |mailbox|
  {
    UptoIn(mailbox, |mailbox|, cursor)
  }

  lemma {:induction false} UptoInSpec(mailbox: seq<Item>, n: nat, cursor: nat)
    requires Ascending(mailbox) && n <= |mailbox|
    ensures forall i :: 0 <= i < UptoIn(mailbox, n, cursor) ==> mailbox[i].sequence <= cursor
    ensures forall i :: UptoIn(mailbox, n, cursor) <= i < n ==> cursor < mailbox[i].sequence
  {
    if n > 0 && mailbox[n - 1].sequence > cursor {
      UptoInSpec(mailbox, n - 1, cursor);
    }
  }

  lemma UptoSpec(mailbox: seq<Item>, cursor: nat)
    requires Ascending(mailbox)
    ensures forall i :: 0 <= i < Upto(mailbox, cursor) ==> mailbox[i].sequence <= cursor
    ensures forall i :: Upto(mailbox, cursor) <= i < |mailbox| ==> cursor < mailbox[i].sequence
  {
    UptoInSpec(mailbox, |mailbox|, cursor);
  }

  /** The messages of one sender among those at places `low` to `high`, in order. */
  function Matches(items: seq<Item>, needle: Name, low: nat, high: nat): seq<Item>
    requires high <= |items|
    decreases high
  {
    if high <= low then []
    else Matches(items, needle, low, high - 1) + MatchOf(items[high - 1], needle)
  }

  function MatchOf(item: Item, needle: Name): seq<Item> {
    if item.sender == Some(needle) then [item] else []
  }

  /** The matching messages behind `start` and not behind `next`. */
  function Between(mailbox: seq<Item>, needle: Name, start: nat, next: nat): seq<Item> {
    Matches(mailbox, needle, Upto(mailbox, start), Upto(mailbox, next))
  }

  ghost predicate HonestPage(mailbox: seq<Item>, cursor: nat, page: Page) {
    var from := Upto(mailbox, cursor);
    && from + |page.items| <= |mailbox|
    && (forall i :: 0 <= i < |page.items| ==> page.items[i] == mailbox[from + i])
    && (page.more <==> from + |page.items| < |mailbox|)
  }

  /** Whatever the request number and cursor, the server answers with the next stretch. */
  ghost predicate Honest(mailbox: seq<Item>, fetch: (nat, nat) -> Page) {
    Ascending(mailbox) && forall k, cursor :: HonestPage(mailbox, cursor, fetch(k, cursor))
  }

  // ---------- the checks on a page ----------

  function LastSequence(items: seq<Item>, cursor: nat): nat {
    if items == [] then cursor else items[|items| - 1].sequence
  }

  /** Where the scan stands before entry `i`. */
  function Before(items: seq<Item>, cursor: nat, i: nat): nat
    requires i <= |items|
  {
    if i == 0 then cursor else items[i - 1].sequence
  }

  predicate Climbs(items: seq<Item>, cursor: nat) {
    forall i {:trigger Before(items, cursor, i)} :: 0 <= i < |items| ==> items[i].sender.Some? && Before(items, cursor, i) < items[i].sequence
  }

  predicate WellFormedPage(page: Page, cursor: nat) {
    && |page.items| <= PAGE_SIZE
    && Climbs(page.items, cursor)
    && page.next == LastSequence(page.items, cursor)
    && (page.more ==> cursor < page.next)
  }

  /** An honest server of one team, whose pages are well formed and carry the same metadata. */
  ghost predicate Serves(mailbox: seq<Item>, fetch: (nat, nat) -> Page, team: Option<Name>, home: Name, metadata: nat) {
    && Honest(mailbox, fetch)
    && (team.Some? ==> team == Some(home))
    && (forall k, cursor :: ServedPage(fetch(k, cursor), cursor, home, metadata))
  }

  ghost predicate ServedPage(page: Page, cursor: nat, home: Name, metadata: nat) {
    && |page.items| <= PAGE_SIZE && page.next == LastSequence(page.items, cursor) && (page.more ==> page.items != [])
    && (page.team.Some? ==> page.team == Some(home)) && page.metadata == metadata
  }

  /** The last sequence number a scan from here can see. */
  function Horizon(mailbox: seq<Item>, start: nat): nat {
    if mailbox != [] && mailbox[|mailbox| - 1].sequence > start then mailbox[|mailbox| - 1].sequence else start
  }

  /** Everything the sender has behind `start` fits one answer, with the largest counters reserved. */
  predicate Fits(mailbox: seq<Item>, needle: Name, start: nat, metadata: nat) {
    CandidateSize(metadata, Between(mailbox, needle, start, Horizon(mailbox, start)), Horizon(mailbox, start)) <= OUTPUT_MAX_BYTES
  }

  predicate AloneFits(item: Item, needle: Name, metadata: nat) {
    item.sender == Some(needle) ==> CandidateSize(metadata, [item], item.sequence) <= OUTPUT_MAX_BYTES
  }

  /** Each of the sender's messages behind `start` fits an answer alone, and an empty answer fits. */
  ghost predicate EachFits(mailbox: seq<Item>, needle: Name, start: nat, metadata: nat) {
    && CandidateSize(metadata, [], Horizon(mailbox, start)) <= OUTPUT_MAX_BYTES
    && (forall i :: Upto(mailbox, start) <= i < |mailbox| ==> AloneFits(mailbox[i], needle, metadata))
  }

  /** The sequence numbers behind `start` all have as many digits as the last. */
  ghost predicate SameLength(mailbox: seq<Item>, start: nat) {
    forall i :: Upto(mailbox, start) <= i < |mailbox| ==> Digits(mailbox[i].sequence) == Digits(Horizon(mailbox, start))
  }

  /** What has been taken fitted when its last message was. */
  predicate Held(metadata: nat, matches: seq<Item>) {
    matches == [] || CandidateSize(metadata, matches, matches[|matches| - 1].sequence) <= OUTPUT_MAX_BYTES
  }

  /** Where a scan ended, and why. */
  datatype End = End(cursor: nat, stop: Stop, pages: nat, scanned: nat)

  /** The cursor went on, behind the last match, to a sequence number of more digits, for which there is no room. */
  predicate RollsOver(metadata: nat, matches: seq<Item>, end: End) {
    && matches != [] && Digits(matches[|matches| - 1].sequence) < Digits(end.cursor)
    && OutputSize(metadata, matches, end.cursor, end.stop, end.pages, end.scanned) > OUTPUT_MAX_BYTES
  }

  /** The next message is a match that does not fit any more. */
  ghost predicate NoRoomAt(mailbox: seq<Item>, needle: Name, start: nat, cursor: nat, metadata: nat) {
    && Upto(mailbox, cursor) < |mailbox|
    && var next := mailbox[Upto(mailbox, cursor)];
       NoRoomFor(metadata, Between(mailbox, needle, start, cursor), next, needle)
  }

  /** Where a scan of a served mailbox can end. */
  ghost predicate EndOk(mailbox: seq<Item>, needle: Name, start: nat, requested: nat, metadata: nat, expired: nat -> bool, end: End) {
    && start <= end.cursor <= Horizon(mailbox, start)
    && end.scanned == Upto(mailbox, end.cursor) - Upto(mailbox, start)
    && 0 < end.pages <= MAX_PAGES && end.pages <= end.scanned + 1
    && (end.stop.Exhausted? <==> Upto(mailbox, end.cursor) == |mailbox|)
    && (end.stop.ResultLimit? ==>
          |Between(mailbox, needle, start, end.cursor)| == Least(requested))
    && (end.stop.PageLimit? ==> end.pages == MAX_PAGES)
    && (end.stop.TimeLimit? ==> expired(end.pages))
    && (end.stop.OutputLimit? ==> NoRoomAt(mailbox, needle, start, end.cursor, metadata))
  }

  /** What a successful call promises against a fixed mailbox. */
  ghost predicate CallOk(mailbox: seq<Item>, needle: Name, start: nat, limit: nat, r: Result) {
    r.Scanned? ==>
      && r.messages == Between(mailbox, needle, start, r.next)
      && (r.more <==> Upto(mailbox, r.next) < |mailbox|)
      && start <= r.next
      && (r.more ==> start < r.next && Upto(mailbox, start) < Upto(mailbox, r.next))
      && |r.messages| <= limit
  }

  lemma ExtendMatches(mailbox: seq<Item>, needle: Name, start: nat, cursor: nat, item: Item)
    requires Ascending(mailbox) && Upto(mailbox, cursor) < |mailbox| && mailbox[Upto(mailbox, cursor)] == item
    requires start <= cursor
    ensures cursor < item.sequence
    ensures Upto(mailbox, item.sequence) == Upto(mailbox, cursor) + 1
    ensures Upto(mailbox, start) <= Upto(mailbox, cursor)
    ensures Between(mailbox, needle, start, item.sequence) == Between(mailbox, needle, start, cursor) + MatchOf(item, needle)
  {
    UptoSpec(mailbox, cursor);
    UptoSpec(mailbox, item.sequence);
    UptoSpec(mailbox, start);
    var to := Upto(mailbox, cursor);
    assert to + 1 < |mailbox| ==> mailbox[to].sequence < mailbox[to + 1].sequence;
    assert Upto(mailbox, item.sequence) == to + 1;
  }

  lemma {:induction false} UptoMonotoneIn(mailbox: seq<Item>, n: nat, low: nat, high: nat)
    requires low <= high && n <= |mailbox|
    ensures UptoIn(mailbox, n, low) <= UptoIn(mailbox, n, high)
  {
    if n > 0 {
      UptoMonotoneIn(mailbox, n - 1, low, high);
    }
  }

  lemma UptoMonotone(mailbox: seq<Item>, low: nat, high: nat)
    requires low <= high
    ensures Upto(mailbox, low) <= Upto(mailbox, high)
  {
    UptoMonotoneIn(mailbox, |mailbox|, low, high);
  }

  lemma NothingBetween(mailbox: seq<Item>, needle: Name, start: nat)
    ensures Between(mailbox, needle, start, start) == []
  {
  }

  /** What examining the first `k` entries of an honest page means for the mailbox. */
  lemma {:induction false} ExaminedSoFar(mailbox: seq<Item>, page: Page, needle: Name, start: nat, cursor: nat, k: nat)
    requires Ascending(mailbox) && HonestPage(mailbox, cursor, page) && start <= cursor && k <= |page.items|
    ensures cursor <= Before(page.items, cursor, k)
    ensures Upto(mailbox, Before(page.items, cursor, k)) == Upto(mailbox, cursor) + k
    ensures Between(mailbox, needle, start, Before(page.items, cursor, k))
         == Between(mailbox, needle, start, cursor) + Matches(page.items, needle, 0, k)
  {
    if k > 0 {
      ExaminedSoFar(mailbox, page, needle, start, cursor, k - 1);
      var item := page.items[k - 1];
      assert item == mailbox[Upto(mailbox, cursor) + (k - 1)];
      ExtendMatches(mailbox, needle, start, Before(page.items, cursor, k - 1), item);
    }
  }

  // ---------- when an answer fits ----------

  lemma {:induction false} DigitsGrow(a: nat, b: nat)
    requires a <= b
    ensures Digits(a) <= Digits(b)
  {
    if b >= 10 && a >= 10 {
      DigitsGrow(a / 10, b / 10);
    }
  }

  lemma {:induction false} SizeOfJoin(a: seq<Item>, b: seq<Item>)
    ensures SizeOf(a + b) == SizeOf(a) + SizeOf(b)
    decreases |b|
  {
    if b == [] {
      assert a + b == a;
    } else {
      assert (a + b)[..|a + b| - 1] == a + b[..|b| - 1];
      SizeOfJoin(a, b[..|b| - 1]);
    }
  }

  lemma CounterDigits(pages: nat, scanned: nat)
    requires pages <= MAX_PAGES && scanned <= pages * PAGE_SIZE
    ensures Digits(pages) <= Digits(MAX_PAGES) && Digits(scanned) <= Digits(MAX_PAGES * PAGE_SIZE)
  {
    DigitsGrow(pages, MAX_PAGES);
    DigitsGrow(scanned, MAX_PAGES * PAGE_SIZE);
  }

  /** Wherever a scan stops, what it has is no larger than all there is. */
  lemma FitsSoFar(mailbox: seq<Item>, needle: Name, start: nat, cursor: nat, metadata: nat, stop: Stop, pages: nat, scanned: nat)
    requires Ascending(mailbox) && Fits(mailbox, needle, start, metadata)
    requires start <= cursor <= Horizon(mailbox, start) && pages <= MAX_PAGES && scanned <= pages * PAGE_SIZE
    ensures CandidateSize(metadata, Between(mailbox, needle, start, cursor), cursor) <= OUTPUT_MAX_BYTES
    ensures OutputSize(metadata, Between(mailbox, needle, start, cursor), cursor, stop, pages, scanned) <= OUTPUT_MAX_BYTES
  {
    var horizon := Horizon(mailbox, start);
    JoinBetween(mailbox, needle, start, cursor, horizon);
    SizeOfJoin(Between(mailbox, needle, start, cursor), Between(mailbox, needle, cursor, horizon));
    DigitsGrow(cursor, horizon);
    CounterDigits(pages, scanned);
  }

  lemma ServedIsWellFormed(mailbox: seq<Item>, page: Page, cursor: nat, home: Name, metadata: nat)
    requires Ascending(mailbox) && HonestPage(mailbox, cursor, page) && ServedPage(page, cursor, home, metadata)
    ensures WellFormedPage(page, cursor)
  {
    forall i: nat | i < |page.items|
      ensures page.items[i].sender.Some? && Before(page.items, cursor, i) < page.items[i].sequence
    {
      ServedClimbs(mailbox, page, cursor, i);
    }
    if page.items != [] {
      ServedClimbs(mailbox, page, cursor, |page.items| - 1);
    }
  }

  lemma ServedClimbs(mailbox: seq<Item>, page: Page, cursor: nat, i: nat)
    requires Ascending(mailbox) && HonestPage(mailbox, cursor, page) && i < |page.items|
    ensures page.items[i].sender.Some? && Before(page.items, cursor, i) < page.items[i].sequence
    ensures cursor < page.items[i].sequence
  {
    UptoSpec(mailbox, cursor);
    var from := Upto(mailbox, cursor);
    assert page.items[i] == mailbox[from + i];
    if i > 0 {
      assert page.items[i - 1] == mailbox[from + (i - 1)];
    }
  }

  /** With room for every match so far and the next one, an honest page neither fails nor fills the answer. */
  ghost predicate Roomy(page: Page, needle: Name, matches: seq<Item>) {
    forall k :: 0 < k <= |page.items| && page.items[k - 1].sender == Some(needle) ==> RoomFor(page, needle, matches, k)
  }

  predicate RoomFor(page: Page, needle: Name, matches: seq<Item>, k: nat)
    requires 0 < k <= |page.items|
  {
    CandidateSize(page.metadata, matches + Matches(page.items, needle, 0, k), page.items[k - 1].sequence) <= OUTPUT_MAX_BYTES
  }

  lemma EntryHasRoom(mailbox: seq<Item>, page: Page, needle: Name, start: nat, cursor: nat, k: nat)
    requires Ascending(mailbox) && HonestPage(mailbox, cursor, page) && start <= cursor && 0 < k <= |page.items|
    requires Fits(mailbox, needle, start, page.metadata)
    ensures page.items[k - 1].sequence <= Horizon(mailbox, start)
    ensures RoomFor(page, needle, Between(mailbox, needle, start, cursor), k)
  {
    ExaminedSoFar(mailbox, page, needle, start, cursor, k);
    assert page.items[k - 1] == mailbox[Upto(mailbox, cursor) + k - 1];
    UptoSpec(mailbox, start);
    UptoMonotone(mailbox, start, cursor);
    FitsSoFar(mailbox, needle, start, page.items[k - 1].sequence, page.metadata, PageLimit, 0, 0);
  }

  lemma HonestPageIsRoomy(mailbox: seq<Item>, page: Page, needle: Name, start: nat, cursor: nat)
    requires Ascending(mailbox) && HonestPage(mailbox, cursor, page) && start <= cursor
    requires Fits(mailbox, needle, start, page.metadata)
    ensures Roomy(page, needle, Between(mailbox, needle, start, cursor))
    ensures forall k :: 0 <= k <= |page.items| && cursor <= Horizon(mailbox, start) ==>
              Before(page.items, cursor, k) <= Horizon(mailbox, start)
  {
    forall k | 0 < k <= |page.items|
      ensures page.items[k - 1].sequence <= Horizon(mailbox, start)
      ensures RoomFor(page, needle, Between(mailbox, needle, start, cursor), k)
    {
      EntryHasRoom(mailbox, page, needle, start, cursor, k);
    }
  }

  ghost predicate AllFitAlone(page: Page, needle: Name) {
    forall k :: 0 <= k < |page.items| ==> AloneFits(page.items[k], needle, page.metadata)
  }

  lemma HonestPageFitsAlone(mailbox: seq<Item>, page: Page, needle: Name, start: nat, cursor: nat)
    requires Ascending(mailbox) && HonestPage(mailbox, cursor, page) && start <= cursor
    requires EachFits(mailbox, needle, start, page.metadata)
    ensures AllFitAlone(page, needle)
  {
    UptoMonotone(mailbox, start, cursor);
    forall k | 0 <= k < |page.items| ensures AloneFits(page.items[k], needle, page.metadata) {
      assert page.items[k] == mailbox[Upto(mailbox, cursor) + k];
    }
  }

  lemma HonestPageStaysWithin(mailbox: seq<Item>, page: Page, start: nat, cursor: nat, k: nat)
    requires Ascending(mailbox) && HonestPage(mailbox, cursor, page) && start <= cursor <= Horizon(mailbox, start) && k <= |page.items|
    ensures Before(page.items, cursor, k) <= Horizon(mailbox, start)
  {
    UptoMonotone(mailbox, start, cursor);
    UptoSpec(mailbox, start);
    if k > 0 {
      assert page.items[k - 1] == mailbox[Upto(mailbox, cursor) + k - 1];
    }
  }

  /** What was held when its last message was taken is too large in the end exactly by a roll-over. */
  lemma HeldFitsUnlessItRollsOver(mailbox: seq<Item>, needle: Name, start: nat, metadata: nat, matches: seq<Item>, end: End)
    requires EachFits(mailbox, needle, start, metadata) && Held(metadata, matches)
    requires end.cursor <= Horizon(mailbox, start) && end.pages <= MAX_PAGES && end.scanned <= end.pages * PAGE_SIZE
    ensures OutputSize(metadata, matches, end.cursor, end.stop, end.pages, end.scanned) > OUTPUT_MAX_BYTES
       <==> RollsOver(metadata, matches, end)
  {
    DigitsGrow(end.cursor, Horizon(mailbox, start));
    CounterDigits(end.pages, end.scanned);
  }

  lemma FitsUnlessItRollsOver(mailbox: seq<Item>, needle: Name, start: nat, metadata: nat, matches: seq<Item>, end: End)
    requires EachFits(mailbox, needle, start, metadata) && Held(metadata, matches) && matches == Between(mailbox, needle, start, end.cursor)
    requires end.cursor <= Horizon(mailbox, start) && end.pages <= MAX_PAGES && end.scanned <= end.pages * PAGE_SIZE
    ensures OutputSize(metadata, matches, end.cursor, end.stop, end.pages, end.scanned) > OUTPUT_MAX_BYTES
       <==> RollsOver(metadata, matches, end)
    ensures SameLength(mailbox, start) ==> !RollsOver(metadata, matches, end)
  {
    HeldFitsUnlessItRollsOver(mailbox, needle, start, metadata, matches, end);
    if SameLength(mailbox, start) {
      SameLengthNeverRollsOver(mailbox, needle, start, metadata, end);
    }
  }

  lemma {:induction false} MatchesAreBehind(mailbox: seq<Item>, needle: Name, low: nat, high: nat)
    requires high <= |mailbox|
    ensures forall m :: m in Matches(mailbox, needle, low, high) ==> exists i :: low <= i < high && mailbox[i] == m
    decreases high
  {
    if high > low {
      MatchesAreBehind(mailbox, needle, low, high - 1);
      var one := MatchOf(mailbox[high - 1], needle);
      assert forall m :: m in one ==> m == mailbox[high - 1];
    }
  }

  lemma SameLengthNeverRollsOver(mailbox: seq<Item>, needle: Name, start: nat, metadata: nat, end: End)
    requires SameLength(mailbox, start) && end.cursor <= Horizon(mailbox, start)
    ensures !RollsOver(metadata, Between(mailbox, needle, start, end.cursor), end)
  {
    var matches := Between(mailbox, needle, start, end.cursor);
    if matches != [] {
      MatchesAreBehind(mailbox, needle, Upto(mailbox, start), Upto(mailbox, end.cursor));
      assert matches[|matches| - 1] in matches;
      DigitsGrow(end.cursor, Horizon(mailbox, start));
    }
  }

  /** One request: the scan moves over the first `k` entries of the answer. */
  lemma PageFollowed(mailbox: seq<Item>, fetch: (nat, nat) -> Page, request: nat, needle: Name, start: nat, cursor: nat, k: nat)
    requires Honest(mailbox, fetch) && start <= cursor && k <= |fetch(request, cursor).items|
    ensures var page := fetch(request, cursor);
      var reached := Before(page.items, cursor, k);
      && cursor <= reached
      && Between(mailbox, needle, start, reached) == Between(mailbox, needle, start, cursor) + Matches(page.items, needle, 0, k)
      && (Upto(mailbox, reached) < |mailbox| <==> k < |page.items| || page.more)
      && Upto(mailbox, reached) == Upto(mailbox, cursor) + k && Upto(mailbox, start) <= Upto(mailbox, cursor)
  {
    assert HonestPage(mailbox, cursor, fetch(request, cursor));
    ExaminedSoFar(mailbox, fetch(request, cursor), needle, start, cursor, k);
    UptoMonotone(mailbox, start, cursor);
  }

  predicate NoRoomFor(metadata: nat, matches: seq<Item>, next: Item, needle: Name) {
    next.sender == Some(needle) && CandidateSize(metadata, matches + [next], next.sequence) > OUTPUT_MAX_BYTES
  }

  /** One entry: a match is taken, or does not fit any more, or would not fit an answer of its own. */
  method TakeEntry(metadata: nat, item: Item, needle: Name, matches: seq<Item>)
    returns (failed: bool, full: bool, longer: seq<Item>)
    ensures failed || full ==> longer == matches && item.sender == Some(needle)
                               && CandidateSize(metadata, matches + [item], item.sequence) > OUTPUT_MAX_BYTES
    ensures !failed && !full ==> longer == matches + MatchOf(item, needle)
    ensures full ==> matches != []
    ensures AloneFits(item, needle, metadata) ==> !failed
    ensures Held(metadata, matches) ==> Held(metadata, longer)
  {
    failed, full, longer := false, false, matches;
    if item.sender == Some(needle) {
      if CandidateSize(metadata, matches + [item], item.sequence) > OUTPUT_MAX_BYTES {
        failed := CandidateSize(metadata, [item], item.sequence) > OUTPUT_MAX_BYTES;
        full := !failed;
        assert [] + [item] == [item];
      } else {
        longer := matches + [item];
      }
    }
  }

  /** One page's entries, examined in order: the new cursor, whether something is left, and
      whether the output budget stopped the scan; `k` entries were examined. */
  method Examine(page: Page, needle: Name, limit: nat, cursor0: nat, matches0: seq<Item>, scanned0: nat)
    returns (failed: bool, cursor: nat, matches: seq<Item>, scanned: nat, more: bool, full: bool, ghost k: nat)
    requires WellFormedPage(page, cursor0) && |matches0| < limit
    ensures !failed ==> matches0 <= matches && |matches| <= limit && (full ==> more && matches != [])
    ensures Roomy(page, needle, matches0) ==> !failed && !full
    ensures AllFitAlone(page, needle) ==> !failed
    ensures Held(page.metadata, matches0) ==> Held(page.metadata, matches)
    ensures !failed && !full && |matches| < limit ==>
      cursor == page.next && more == page.more && matches == matches0 + Matches(page.items, needle, 0, |page.items|)
    ensures !failed ==>
      && k <= |page.items|
      && cursor == Before(page.items, cursor0, k)
      && matches == matches0 + Matches(page.items, needle, 0, k)
      && scanned == scanned0 + k
      && (full ==> k < |page.items| && NoRoomFor(page.metadata, matches, page.items[k], needle))
      && (!full ==> (more <==> k < |page.items| || page.more) && (k == |page.items| || |matches| == limit) && (k == 0 ==> page.items == []))
  {
    cursor, matches, scanned, more, full, failed, k := cursor0, matches0, scanned0, page.more, false, false, 0;
    var index := 0;
    while index < |page.items|
      invariant 0 <= index == k <= |page.items|
      invariant cursor == Before(page.items, cursor0, index)
      invariant matches == matches0 + Matches(page.items, needle, 0, index)
      invariant |matches| < limit && more == page.more && !full && !failed && scanned == scanned0 + k
      invariant Held(page.metadata, matches0) ==> Held(page.metadata, matches)
    {
      var item := page.items[index];
      assert Roomy(page, needle, matches0) && item.sender == Some(needle) ==> RoomFor(page, needle, matches0, index + 1);
      assert AllFitAlone(page, needle) ==> AloneFits(item, needle, page.metadata);
      assert matches + MatchOf(item, needle) == matches0 + Matches(page.items, needle, 0, index + 1);
      failed, full, matches := TakeEntry(page.metadata, item, needle, matches);
      if failed {
        return;
      }
      if full {
        more := true;
        return;
      }
      cursor := item.sequence;
      scanned := scanned + 1;
      k := index + 1;
      if |matches| >= limit {
        more := index < |page.items| - 1 || more;
        return;
      }
      index := index + 1;
    }
  }

  /** The answer, unless it is larger than a caller may be sent. */
  method Respond(metadata: nat, matches: seq<Item>, cursor: nat, more: bool, stop: Stop, pages: nat, scanned: nat)
    returns (r: Result)
    ensures r.Failed? <==> OutputSize(metadata, matches, cursor, stop, pages, scanned) > OUTPUT_MAX_BYTES
    ensures r.Scanned? ==> r == Scanned(matches, cursor, more, stop, pages, scanned) && SizeOf(matches) <= OUTPUT_MAX_BYTES
  {
    if OutputSize(metadata, matches, cursor, stop, pages, scanned) > OUTPUT_MAX_BYTES {
      return Failed;
    }
    return Scanned(matches, cursor, more, stop, pages, scanned);
  }

  /** What is true of the mailbox once the scan has come to the cursor. */
  ghost predicate Reached(mailbox: seq<Item>, needle: Name, start: nat, cursor: nat, matches: seq<Item>, more: bool) {
    && start <= cursor && matches == Between(mailbox, needle, start, cursor)
    && (more <==> Upto(mailbox, cursor) < |mailbox|)
    && (more ==> start < cursor && Upto(mailbox, start) < Upto(mailbox, cursor))
  }

  lemma ScanReaches(mailbox: seq<Item>, fetch: (nat, nat) -> Page, request: nat, needle: Name, start: nat, cursor: nat, k: nat, full: bool)
    requires Honest(mailbox, fetch) && start <= cursor && k <= |fetch(request, cursor).items|
    requires request > 0 ==> Upto(mailbox, start) < Upto(mailbox, cursor)
    requires var page := fetch(request, cursor);
      && WellFormedPage(page, cursor)
      && (full ==> Between(mailbox, needle, start, cursor) + Matches(page.items, needle, 0, k) != [])
      && (!full && k == 0 ==> page.items == [])
    ensures var page := fetch(request, cursor);
      Reached(mailbox, needle, start, Before(page.items, cursor, k),
              Between(mailbox, needle, start, cursor) + Matches(page.items, needle, 0, k), k < |page.items| || page.more)
  {
    var page := fetch(request, cursor);
    PageFollowed(mailbox, fetch, request, needle, start, cursor, k);
    var reached := Before(page.items, cursor, k);
    if k < |page.items| || page.more {
      if full && k == 0 && request == 0 {
        assert Between(mailbox, needle, start, cursor) != [];
      }
      UptoSpec(mailbox, start);
      UptoSpec(mailbox, reached);
    }
  }

  /** One request's progress in the mailbox, and the reason when it was the size that stopped it. */
  ghost predicate Moved(mailbox: seq<Item>, needle: Name, start: nat, cursor0: nat, scanned0: nat, cursor: nat, scanned: nat,
                        metadata: nat, halt: Option<Stop>) {
    && cursor0 <= cursor <= Horizon(mailbox, start)
    && Upto(mailbox, start) <= Upto(mailbox, cursor0) <= Upto(mailbox, cursor)
    && scanned == scanned0 + (Upto(mailbox, cursor) - Upto(mailbox, cursor0))
    && (halt.None? ==> scanned0 < scanned)
    && (halt == Some(OutputLimit) ==> NoRoomAt(mailbox, needle, start, cursor, metadata))
  }

  /** One answer of the server, examined; `halt` is why the scan stops here, if it does. */
  method ScanPage(answer: Page, needle: Name, limit: nat, cursor0: nat, matches0: seq<Item>, scanned0: nat,
                  ghost mailbox: seq<Item>, ghost fetch: (nat, nat) -> Page, ghost request: nat, ghost start: nat)
    returns (failed: bool, cursor: nat, matches: seq<Item>, scanned: nat, more: bool, halt: Option<Stop>)
    requires WellFormedPage(answer, cursor0) && |matches0| < limit
    ensures !failed ==> |matches| <= limit && scanned <= scanned0 + PAGE_SIZE && halt in {None, Some(OutputLimit), Some(Exhausted), Some(ResultLimit)}
    ensures !failed ==> (halt == Some(Exhausted) <==> !more) && (halt == Some(ResultLimit) ==> |matches| == limit)
    ensures !failed && halt.None? ==> cursor0 < cursor && |matches| < limit
    ensures !failed && Honest(mailbox, fetch) && answer == fetch(request, cursor0) && start <= cursor0
            && matches0 == Between(mailbox, needle, start, cursor0) && (request > 0 ==> Upto(mailbox, start) < Upto(mailbox, cursor0))
            ==> Reached(mailbox, needle, start, cursor, matches, more)
    ensures Honest(mailbox, fetch) && answer == fetch(request, cursor0) && start <= cursor0 <= Horizon(mailbox, start)
            && matches0 == Between(mailbox, needle, start, cursor0) && Fits(mailbox, needle, start, answer.metadata)
            ==> !failed && halt != Some(OutputLimit) && cursor <= Horizon(mailbox, start)
    ensures Honest(mailbox, fetch) && answer == fetch(request, cursor0) && start <= cursor0 && EachFits(mailbox, needle, start, answer.metadata)
            ==> !failed
    ensures Held(answer.metadata, matches0) ==> Held(answer.metadata, matches)
    ensures !failed && Honest(mailbox, fetch) && answer == fetch(request, cursor0) && start <= cursor0 <= Horizon(mailbox, start)
            && matches0 == Between(mailbox, needle, start, cursor0)
            ==> Moved(mailbox, needle, start, cursor0, scanned0, cursor, scanned, answer.metadata, halt)
  {
    var full;
    ghost var k;
    failed, cursor, matches, scanned, more, full, k := Examine(answer, needle, limit, cursor0, matches0, scanned0);
    halt := if full then Some(OutputLimit) else if !more then Some(Exhausted) else if |matches| >= limit then Some(ResultLimit) else None;
    if Honest(mailbox, fetch) && answer == fetch(request, cursor0) && start <= cursor0 {
      assert HonestPage(mailbox, cursor0, fetch(request, cursor0));
      if EachFits(mailbox, needle, start, answer.metadata) {
        HonestPageFitsAlone(mailbox, answer, needle, start, cursor0);
      }
      if !failed && cursor0 <= Horizon(mailbox, start) {
        PageFollowed(mailbox, fetch, request, needle, start, cursor0, k);
        HonestPageStaysWithin(mailbox, answer, start, cursor0, k);
        assert full ==> answer.items[k] == mailbox[Upto(mailbox, cursor)];
      }
    }
    if Honest(mailbox, fetch) && answer == fetch(request, cursor0) && start <= cursor0 && matches0 == Between(mailbox, needle, start, cursor0) {
      if !failed && (request > 0 ==> Upto(mailbox, start) < Upto(mailbox, cursor0)) {
        ScanReaches(mailbox, fetch, request, needle, start, cursor0, k, full);
      }
      if Fits(mailbox, needle, start, answer.metadata) {
        assert HonestPage(mailbox, cursor0, fetch(request, cursor0));
        HonestPageIsRoomy(mailbox, answer, needle, start, cursor0);
      }
    }
  }

  /** One request's answer, checked and examined; `scope` is the team the scan has come to know. */
  method FollowPage(answer: Page, needle: Name, limit: nat, cursor0: nat, matches0: seq<Item>, scanned0: nat, scope0: Option<Name>,
                    ghost mailbox: seq<Item>, ghost fetch: (nat, nat) -> Page, ghost request: nat, ghost start: nat,
                    ghost team: Option<Name>, ghost home: Name, ghost metadata: nat)
    returns (failed: bool, cursor: nat, matches: seq<Item>, scanned: nat, more: bool, halt: Option<Stop>, scope: Option<Name>)
    requires |matches0| < limit && answer == fetch(request, cursor0)
    ensures !failed ==> |matches| <= limit && scanned <= scanned0 + PAGE_SIZE && halt in {None, Some(OutputLimit), Some(Exhausted), Some(ResultLimit)}
    ensures !failed ==> (halt == Some(Exhausted) <==> !more) && (halt == Some(ResultLimit) ==> |matches| == limit)
    ensures !failed && halt.None? ==> cursor0 < cursor && |matches| < limit
    ensures !failed && Honest(mailbox, fetch) && start <= cursor0
            && matches0 == Between(mailbox, needle, start, cursor0) && (request > 0 ==> Upto(mailbox, start) < Upto(mailbox, cursor0))
            ==> Reached(mailbox, needle, start, cursor, matches, more)
    ensures Serves(mailbox, fetch, team, home, metadata) ==> answer.metadata == metadata
    ensures Serves(mailbox, fetch, team, home, metadata) && (scope0.Some? ==> scope0 == Some(home)) ==>
              (!failed && scope.Some? ==> scope == Some(home))
    ensures Serves(mailbox, fetch, team, home, metadata) && (scope0.Some? ==> scope0 == Some(home)) && start <= cursor0 <= Horizon(mailbox, start)
            && matches0 == Between(mailbox, needle, start, cursor0) && Fits(mailbox, needle, start, metadata)
            ==> !failed && halt != Some(OutputLimit) && cursor <= Horizon(mailbox, start)
    ensures Serves(mailbox, fetch, team, home, metadata) && (scope0.Some? ==> scope0 == Some(home)) && start <= cursor0
            && EachFits(mailbox, needle, start, metadata)
            ==> !failed
    ensures Serves(mailbox, fetch, team, home, metadata) && Held(metadata, matches0) && !failed ==> Held(metadata, matches)
    ensures !failed && Serves(mailbox, fetch, team, home, metadata) && start <= cursor0 <= Horizon(mailbox, start)
            && matches0 == Between(mailbox, needle, start, cursor0)
            ==> Moved(mailbox, needle, start, cursor0, scanned0, cursor, scanned, metadata, halt)
  {
    failed, cursor, matches, scanned, more, halt, scope := true, cursor0, matches0, scanned0, true, None, scope0;
    if Serves(mailbox, fetch, team, home, metadata) {
      assert HonestPage(mailbox, cursor, fetch(request, cursor0)) && ServedPage(fetch(request, cursor0), cursor, home, metadata);
      ServedIsWellFormed(mailbox, answer, cursor, home, metadata);
    }
    if !WellFormedPage(answer, cursor) {
      return;
    }
    if answer.team.Some? {
      if scope.Some? && scope != answer.team {
        return;
      }
      scope := answer.team;
    }
    failed, cursor, matches, scanned, more, halt :=
      ScanPage(answer, needle, limit, cursor, matches, scanned, mailbox, fetch, request, start);
  }

  /** Before each further request: every request so far has moved the scan. */
  ghost predicate Underway(mailbox: seq<Item>, start: nat, metadata: nat, cursor: nat, matches: seq<Item>, pages: nat, scanned: nat) {
    && cursor <= Horizon(mailbox, start) && Held(metadata, matches)
    && scanned == Upto(mailbox, cursor) - Upto(mailbox, start) && pages <= scanned
  }

  /** What every successful answer shows, whatever the server. */
  predicate AnswerOk(r: Result, requested: nat) {
    r.Scanned? ==>
      && requested > 0 && |r.messages| <= MAX_RESULTS && 0 < r.pages <= MAX_PAGES
      && SizeOf(r.messages) <= OUTPUT_MAX_BYTES
      && (r.stop.Exhausted? <==> !r.more)
      && (r.stop.ResultLimit? ==> |r.messages| == Least(requested))
      && (r.stop.PageLimit? ==> r.pages == MAX_PAGES)
  }

  /** The requests, one after another; `said` is the metadata of the last answer. */
  method Scan(needle: Name, after: nat, requested: nat, team: Option<Name>, fetch: (nat, nat) -> Page, expired: nat -> bool,
              ghost mailbox: seq<Item>, ghost home: Name, ghost metadata: nat)
    returns (failed: bool, said: nat, matches: seq<Item>, more: bool, end: End)
    requires requested > 0
    ensures !failed ==> (end.pages == 0 ==> expired(0)) && end.pages <= MAX_PAGES && end.scanned <= end.pages * PAGE_SIZE
    ensures !failed ==>
      && |matches| <= Least(requested) && (end.stop.Exhausted? <==> !more)
      && (end.stop.ResultLimit? ==> |matches| == Least(requested)) && (end.stop.PageLimit? ==> end.pages == MAX_PAGES)
    ensures !failed && end.pages > 0 && Honest(mailbox, fetch) ==> Reached(mailbox, needle, after, end.cursor, matches, more)
    ensures !failed && end.pages > 0 && Serves(mailbox, fetch, team, home, metadata) ==>
      said == metadata && Held(metadata, matches) && EndOk(mailbox, needle, after, requested, metadata, expired, end)
    ensures Serves(mailbox, fetch, team, home, metadata) && Fits(mailbox, needle, after, metadata) ==> !failed && !end.stop.OutputLimit?
    ensures Serves(mailbox, fetch, team, home, metadata) && EachFits(mailbox, needle, after, metadata) ==> !failed
  {
    var limit := Least(requested);
    var cursor, scope := after, team;
    var pages: nat, scanned: nat := 0, 0;
    var stop := PageLimit;
    failed, said, matches, more, end := false, 0, [], true, End(after, PageLimit, 0, 0);
    ghost var served := Serves(mailbox, fetch, team, home, metadata);
    NothingBetween(mailbox, needle, after);
    while pages < MAX_PAGES
      invariant pages <= MAX_PAGES && |matches| < limit && after <= cursor && scanned <= pages * PAGE_SIZE
      invariant more && stop == PageLimit && !failed && !end.stop.OutputLimit?
      invariant Honest(mailbox, fetch) && pages > 0 ==> Reached(mailbox, needle, after, cursor, matches, true)
      invariant Honest(mailbox, fetch) ==> matches == Between(mailbox, needle, after, cursor)
      invariant served ==> scope.Some? ==> scope == Some(home)
      invariant served ==> Underway(mailbox, after, metadata, cursor, matches, pages, scanned) && (pages > 0 ==> said == metadata)
    {
      if expired(pages) {
        stop := TimeLimit;
        break;
      }
      var answer := fetch(pages, cursor);
      said := answer.metadata;
      var halt;
      failed, cursor, matches, scanned, more, halt, scope :=
        FollowPage(answer, needle, limit, cursor, matches, scanned, scope, mailbox, fetch, pages, after, team, home, metadata);
      pages := pages + 1;
      if failed {
        return;
      }
      if halt.Some? {
        stop := halt.value;
        break;
      }
    }
    end := End(cursor, stop, pages, scanned);
  }

  /** `_list_by_sender`: `fetch` is the server and `expired` the clock, by request number.  When there is time for one
      request, the server serves one team, and each message left fits an answer alone, the call fails exactly by a
      roll-over, which cannot be while the sequence numbers left have equally many digits; when all that is left fits
      one answer, its size does not stop the scan either. */
  method ListBySender(needle: Name, after: nat, requested: nat, team: Option<Name>, fetch: (nat, nat) -> Page,
                      expired: nat -> bool, ghost mailbox: seq<Item>, ghost home: Name, ghost metadata: nat)
    returns (r: Result, ghost end: End)
    ensures Honest(mailbox, fetch) ==> CallOk(mailbox, needle, after, requested, r)
    ensures AnswerOk(r, requested)
    ensures requested > 0 && !expired(0) && Serves(mailbox, fetch, team, home, metadata) && Fits(mailbox, needle, after, metadata)
            ==> r.Scanned? && !r.stop.OutputLimit?
    ensures requested > 0 && !expired(0) && Serves(mailbox, fetch, team, home, metadata) && EachFits(mailbox, needle, after, metadata)
            ==> && EndOk(mailbox, needle, after, requested, metadata, expired, end)
                && (r.Failed? <==> RollsOver(metadata, Between(mailbox, needle, after, end.cursor), end))
                && (SameLength(mailbox, after) ==> r.Scanned?)
    ensures r.Scanned? ==> end == End(r.next, r.stop, r.pages, r.scanned)
  {
    r, end := Failed, End(after, PageLimit, 0, 0);
    if requested < 1 {
      return;
    }
    var failed, said, matches, more, last :=
      Scan(needle, after, requested, team, fetch, expired, mailbox, home, metadata);
    end := last;
    if failed || last.pages == 0 {
      return;
    }
    if Serves(mailbox, fetch, team, home, metadata) {
      if Fits(mailbox, needle, after, metadata) {
        FitsSoFar(mailbox, needle, after, last.cursor, metadata, last.stop, last.pages, last.scanned);
      }
      if EachFits(mailbox, needle, after, metadata) {
        FitsUnlessItRollsOver(mailbox, needle, after, metadata, matches, last);
      }
    }
    r := Respond(said, matches, last.cursor, more, last.stop, last.pages, last.scanned);
  }

  // ---------- a call that fails by a roll-over ----------

  const NEXT_LONG: nat := 100_000_000
  const ANY_METADATA: nat := 100

  /** One match that fills an answer to the last byte, and behind it a message of somebody else with a long number. */
  function FullMatch(): Item {
    Item(9, Some(1), OUTPUT_MAX_BYTES - 128)
  }

  function TwoMessages(): seq<Item> {
    [FullMatch(), Item(NEXT_LONG, Some(2), 0)]
  }

  function Rest(cursor: nat): Page {
    var items := if cursor < 9 then TwoMessages() else if cursor < NEXT_LONG then TwoMessages()[1..] else [];
    Page(items, LastSequence(items, cursor), false, None, ANY_METADATA)
  }

  lemma UptoOfTwo(cursor: nat)
    ensures Upto(TwoMessages(), cursor) == if cursor >= NEXT_LONG then 2 else if cursor >= 9 then 1 else 0
  {
    assert TwoMessages()[1].sequence == NEXT_LONG && TwoMessages()[0].sequence == 9;
    assert UptoIn(TwoMessages(), 0, cursor) == 0;
    assert UptoIn(TwoMessages(), 1, cursor) == if 9 <= cursor then 1 else 0;
  }

  lemma TwoMessagesAreServed()
    ensures Serves(TwoMessages(), (k: nat, cursor: nat) => Rest(cursor), None, 0, ANY_METADATA)
  {
    forall cursor: nat
      ensures HonestPage(TwoMessages(), cursor, Rest(cursor)) && ServedPage(Rest(cursor), cursor, 0, ANY_METADATA)
    {
      UptoOfTwo(cursor);
    }
  }

  lemma TwoMessagesFitAlone()
    ensures EachFits(TwoMessages(), 1, 0, ANY_METADATA)
    ensures CandidateSize(ANY_METADATA, [FullMatch()], 9) == OUTPUT_MAX_BYTES
  {
  }

  /** Its only match fits an answer alone, to the byte, and yet the call must fail. */
  method RollOverFails() returns (r: Result)
    ensures r.Failed?
  {
    TwoMessagesAreServed();
    TwoMessagesFitAlone();
    ghost var end;
    r, end := ListBySender(1, 0, MAX_RESULTS, None, (k: nat, cursor: nat) => Rest(cursor), (k: nat) => false, TwoMessages(), 0, ANY_METADATA);
    EndsBehindBoth(end);
  }

  lemma MatchesOfTwo(high: nat)
    requires high <= 2
    ensures Matches(TwoMessages(), 1, 0, high) == if high == 0 then [] else [FullMatch()]
  {
    assert MatchOf(TwoMessages()[0], 1) == [FullMatch()] && MatchOf(TwoMessages()[1], 1) == [];
    assert Matches(TwoMessages(), 1, 0, 0) == [];
    assert Matches(TwoMessages(), 1, 0, 1) == [FullMatch()];
  }

  /** The one way the scan can end: both messages examined, at the cost of eight more digits. */
  lemma OnlyExhaustedIsLeft(end: End)
    requires EndOk(TwoMessages(), 1, 0, MAX_RESULTS, ANY_METADATA, (k: nat) => false, end)
    ensures end.stop.Exhausted? && end.cursor == NEXT_LONG
  {
    UptoOfTwo(end.cursor);
    UptoOfTwo(0);
    MatchesOfTwo(Upto(TwoMessages(), end.cursor));
    TwoMessagesFitAlone();
    assert [] + [FullMatch()] == [FullMatch()] && TwoMessages()[1].sender != Some(1);
  }

  lemma LongNumber()
    ensures Digits(NEXT_LONG) == 9 && Digits(9) == 1 && Digits(2) == 1
  {
    assert Digits(1000) == 4 && Digits(NEXT_LONG / 100_000) == 4;
    assert Digits(NEXT_LONG / 10_000) == 5 && Digits(NEXT_LONG / 1000) == 6 && Digits(NEXT_LONG / 100) == 7;
    assert Digits(NEXT_LONG / 10) == 8;
  }

  lemma EndsBehindBoth(end: End)
    requires EndOk(TwoMessages(), 1, 0, MAX_RESULTS, ANY_METADATA, (k: nat) => false, end)
    ensures RollsOver(ANY_METADATA, Between(TwoMessages(), 1, 0, end.cursor), end)
  {
    OnlyExhaustedIsLeft(end);
    UptoOfTwo(end.cursor);
    UptoOfTwo(0);
    MatchesOfTwo(2);
    LongNumber();
    assert end.scanned == 2 && Digits(end.pages) >= 1;
    assert SizeOf([FullMatch()]) == OUTPUT_MAX_BYTES - 128 by {
      assert [FullMatch()][..0] == [];
    }
  }

  // ---------- chaining calls ----------

  datatype Call = Call(start: nat, next: nat, messages: seq<Item>, more: bool)

  /** Each call starts where the one before it ended, and only the last one may be complete. */
  ghost predicate Chain(mailbox: seq<Item>, needle: Name, calls: seq<Call>) {
    && (forall i :: 0 <= i < |calls| ==> CallPromise(mailbox, needle, calls[i]))
    && (forall i, j :: 0 <= i && j == i + 1 && j < |calls| ==> calls[j].start == calls[i].next && calls[i].more)
  }

  ghost predicate CallPromise(mailbox: seq<Item>, needle: Name, c: Call) {
    && c.messages == Between(mailbox, needle, c.start, c.next)
    && c.start <= c.next
    && (c.more <==> Upto(mailbox, c.next) < |mailbox|)
    && (c.more ==> Upto(mailbox, c.start) < Upto(mailbox, c.next))
  }

  /** The messages of the first `n` calls. */
  function Joined(calls: seq<Call>, n: nat): seq<Item>
    requires n <= |calls|
  {
    if n == 0 then [] else Joined(calls, n - 1) + calls[n - 1].messages
  }

  lemma {:induction false} MatchesJoin(items: seq<Item>, needle: Name, low: nat, middle: nat, high: nat)
    requires low <= middle <= high <= |items|
    ensures Matches(items, needle, low, middle) + Matches(items, needle, middle, high) == Matches(items, needle, low, high)
    decreases high
  {
    if middle < high {
      MatchesJoin(items, needle, low, middle, high - 1);
    }
  }

  lemma JoinBetween(mailbox: seq<Item>, needle: Name, start: nat, middle: nat, next: nat)
    requires Ascending(mailbox) && start <= middle <= next
    ensures Between(mailbox, needle, start, middle) + Between(mailbox, needle, middle, next) == Between(mailbox, needle, start, next)
  {
    UptoMonotone(mailbox, start, middle);
    UptoMonotone(mailbox, middle, next);
    MatchesJoin(mailbox, needle, Upto(mailbox, start), Upto(mailbox, middle), Upto(mailbox, next));
  }

  /** Chaining calls by their cursors neither loses nor repeats a matching message; every call
      but a complete one examines something new, so a chain is never longer than the mailbox
      plus one; and a complete last call leaves nothing out. */
  lemma ChainIsLossless(mailbox: seq<Item>, needle: Name, calls: seq<Call>)
    requires Ascending(mailbox) && calls != [] && Chain(mailbox, needle, calls)
    ensures calls[0].start <= calls[|calls| - 1].next
    ensures Joined(calls, |calls|) == Between(mailbox, needle, calls[0].start, calls[|calls| - 1].next)
    ensures Upto(mailbox, calls[0].start) + |calls| - 1 <= Upto(mailbox, calls[|calls| - 1].next)
    ensures |calls| <= |mailbox| + 1
    ensures !calls[|calls| - 1].more ==>
      Joined(calls, |calls|) == Matches(mailbox, needle, Upto(mailbox, calls[0].start), |mailbox|)
  {
    PrefixIsLossless(mailbox, needle, calls, |calls|);
    assert CallPromise(mailbox, needle, calls[|calls| - 1]);
  }

  lemma {:induction false} PrefixIsLossless(mailbox: seq<Item>, needle: Name, calls: seq<Call>, n: nat)
    requires Ascending(mailbox) && 0 < n <= |calls| && Chain(mailbox, needle, calls)
    ensures calls[0].start <= calls[n - 1].next
    ensures Joined(calls, n) == Between(mailbox, needle, calls[0].start, calls[n - 1].next)
    ensures Upto(mailbox, calls[0].start) + n - 1 <= Upto(mailbox, calls[n - 1].next)
    decreases n
  {
    var last := calls[n - 1];
    assert CallPromise(mailbox, needle, last);
    UptoMonotone(mailbox, last.start, last.next);
    if n == 1 {
      assert Joined(calls, 1) == Joined(calls, 0) + last.messages;
    } else {
      PrefixIsLossless(mailbox, needle, calls, n - 1);
      assert CallPromise(mailbox, needle, calls[n - 2]);
      JoinBetween(mailbox, needle, calls[0].start, last.start, last.next);
    }
  }
}
