/** Inputs that repeat a delivered message or a mailbox wake: which record answers which native run, by counting. */
module HistoryRepairDeliveries {
  import opened Options
  import opened Filters
  import opened HistoryRepairModel
  import opened HistoryRepair
  import opened HistoryRepairScan

  /** The two collectors differ in the native runs they accept and in how a record is keyed. */
  datatype Collector = Deliveries | Wakes

  datatype SourceKey = WrapperKey(wrapper: Wrapper, second: int) | RawKey(text: Text)

  /** What a native run asks of the record that started it; `exact` when its own start time has a fraction. */
  datatype Occasion = Occasion(key: SourceKey, start: int, end: int, exact: bool)

  // ---------- which native runs are occasions ----------

  predicate Ended(start: Row, end: Row, owners: seq<Row>) {
    && OneProvider([start, end] + owners) && end.work.completed && OwnersWithin(owners, start, end)
    && start.time.Some? && end.time.Some? && start.time.value <= end.time.value
  }

  function DeliveryOccasion(opens: seq<Row>, closes: seq<Row>, owners: seq<Row>, receipts: seq<Row>): Option<Occasion> {
    if |receipts| != 1 || |opens| != 1 || |closes| != 1 then None
    else
      var start, end, receipt := opens[0], closes[0], receipts[0];
      if && start.work.handoff && start.work.delivery.Some?
         && end.work.delivery == start.work.delivery && receipt.work.delivery == start.work.delivery
         && receipt.work.receipt.Some? && receipt.work.queued == start.work.queued
         && Ended(start, end, owners) && start.number < receipt.number < end.number
      then Some(Occasion(WrapperKey(receipt.work.receipt.value, Second(start.time.value)),
                         start.time.value, end.time.value, start.fractional))
      else None
  }

  function WakeOccasion(opens: seq<Row>, closes: seq<Row>, owners: seq<Row>): Option<Occasion> {
    if |opens| != 1 || |closes| != 1 then None
    else
      var start, end := opens[0], closes[0];
      if start.work.wake.Some? && Ended(start, end, owners) && start.number < end.number
      then Some(Occasion(RawKey(start.work.wake.value), start.time.value, end.time.value, false))
      else None
  }

  function OccasionFrom(kind: Collector, w: Natives, run: Run): Option<Occasion> {
    match kind
    case Deliveries => DeliveryOccasion(Found(w.opens, run), Found(w.closes, run), Found(w.owners, run), Found(w.receipts, run))
    case Wakes => WakeOccasion(Found(w.opens, run), Found(w.closes, run), Found(w.owners, run))
  }

  ghost function OccasionOf(window: seq<Row>, kind: Collector, run: Run): Option<Occasion> {
    match kind
    case Deliveries => DeliveryOccasion(OpensOf(window, |window|, run), ClosesOf(window, |window|, run),
                                        OwnersOf(window, |window|, run), ReceiptsOf(window, |window|, run))
    case Wakes => WakeOccasion(OpensOf(window, |window|, run), ClosesOf(window, |window|, run), OwnersOf(window, |window|, run))
  }

  // ---------- which records answer them ----------

  function KeyOf(kind: Collector, record: Record): Option<SourceKey> {
    if !Displayed(record) || record.meta || record.labelled then None
    else
      match kind
      case Deliveries => if record.wrapper.Some? then Some(WrapperKey(record.wrapper.value, Second(TimeOf(record)))) else None
      case Wakes => if record.raw.Some? && !record.authored then Some(RawKey(record.raw.value)) else None
  }

  predicate During(occasion: Occasion, time: int) {
    occasion.start <= time <= occasion.end && (occasion.exact ==> time == occasion.start)
  }

  predicate Answers(kind: Collector, occasion: Occasion, record: Record) {
    KeyOf(kind, record) == Some(occasion.key) && During(occasion, TimeOf(record))
  }

  ghost predicate OnlyNamed(records: seq<Record>, k: int)
    requires 0 <= k < |records| && records[k].identity.Some?
  {
    forall j :: 0 <= j < |records| && Named(records[j], records[k].identity.value) ==> j == k
  }

  /** Record `k` answers the native run, and no other user record carries its identity. */
  ghost predicate CreditedBy(window: seq<Row>, records: seq<Record>, kind: Collector, run: Run, k: int) {
    && 0 <= k < |records| && OccasionOf(window, kind, run).Some?
    && Answers(kind, OccasionOf(window, kind, run).value, records[k]) && OnlyNamed(records, k)
  }

  function CreditAt(records: seq<Record>, run: Run, k: nat): Credit
    requires k < |records| && Displayed(records[k])
  {
    Credit(run, k, records[k].identity.value, records[k].display.value, records[k].offset)
  }

  predicate Matches(credit: Credit, candidate: Candidate) {
    credit.identity == candidate.identity && credit.key == candidate.target.key
  }

  /** Record `k` reads as the candidate and answers this native run; no other record that reads so is credited
      anywhere, and no other record to this run. */
  ghost predicate DeliveredBy(window: seq<Row>, records: seq<Record>, kind: Collector, candidate: Candidate, batch: Batch, run: Run, k: int) {
    && CreditedBy(window, records, kind, run, k) && Matches(CreditAt(records, run, k), candidate)
    && Covers(batch, candidate.target.number, records[k].offset)
    && NoOtherCredit(window, records, kind, candidate, run, k)
  }

  ghost predicate NoOtherCredit(window: seq<Row>, records: seq<Record>, kind: Collector, candidate: Candidate, run: Run, k: int) {
    forall other, j | CreditedBy(window, records, kind, other, j) ::
      Matches(CreditAt(records, other, j), candidate) || other == run ==> other == run && j == k
  }

  ghost predicate InputDelivered(window: seq<Row>, records: seq<Record>, kind: Collector, candidate: Candidate, batch: Batch) {
    && OnlyCandidate(DeliveriesOf(window, |window|), candidate.target.run, candidate.identity)
    && exists run, k :: DeliveredBy(window, records, kind, candidate, batch, run, k)
  }

  // ---------- reading the records ----------

  function PlacesFor(kind: Collector, records: seq<Record>, n: nat, key: SourceKey): seq<nat>
    requires n <= |records|
  {
    if n == 0 then [] else PlacesFor(kind, records, n - 1, key) + if KeyOf(kind, records[n - 1]) == Some(key) then [n - 1] else []
  }

  lemma {:induction false} PlacesAreTheKeyed(kind: Collector, records: seq<Record>, n: nat, key: SourceKey)
    requires n <= |records|
    ensures forall k: nat :: k in PlacesFor(kind, records, n, key) <==> k < n && KeyOf(kind, records[k]) == Some(key)
    ensures forall i, j :: 0 <= i < j < |PlacesFor(kind, records, n, key)| ==>
              PlacesFor(kind, records, n, key)[i] < PlacesFor(kind, records, n, key)[j]
  {
    if n > 0 {
      PlacesAreTheKeyed(kind, records, n - 1, key);
      var places := PlacesFor(kind, records, n - 1, key);
      assert forall i :: 0 <= i < |places| ==> places[i] in places;
    }
  }

  /** The wake collector keeps only records some wake asks for, and reads none when there are no wakes. */
  function WakesIn(w: Natives): set<Text> {
    set run, start | run in w.opens && start in w.opens[run] && start.work.wake.Some? :: start.work.wake.value
  }

  predicate Sought(kind: Collector, wakes: set<Text>, key: SourceKey) {
    kind.Wakes? ==> key.RawKey? && key.text in wakes
  }

  predicate Idle(kind: Collector, wakes: set<Text>) {
    kind.Wakes? && wakes == {}
  }

  predicate Keyed(kind: Collector, wakes: set<Text>, record: Record) {
    KeyOf(kind, record).Some? && Sought(kind, wakes, KeyOf(kind, record).value)
  }

  /** What has been read: the records by identity, and by key the places of those sought. */
  ghost predicate Reads(kind: Collector, wakes: set<Text>, records: seq<Record>, n: nat, counts: multiset<Identity>,
                        sources: map<SourceKey, seq<nat>>)
    requires n <= |records|
  {
    && (forall identity :: counts[identity] == |NamedAt(records, n, identity)|)
    && (forall key | Sought(kind, wakes, key) :: Found(sources, key) == PlacesFor(kind, records, n, key))
  }

  lemma OneMoreRead(kind: Collector, wakes: set<Text>, records: seq<Record>, n: nat, counts: multiset<Identity>,
                    sources: map<SourceKey, seq<nat>>, after: multiset<Identity>, more: map<SourceKey, seq<nat>>)
    requires n < |records| && Reads(kind, wakes, records, n, counts, sources)
    requires after == counts + if records[n].user && records[n].identity.Some? then multiset{records[n].identity.value} else multiset{}
    requires more == if Keyed(kind, wakes, records[n]) then Appended(sources, KeyOf(kind, records[n]).value, n) else sources
    ensures Reads(kind, wakes, records, n + 1, after, more)
  {
    forall identity ensures after[identity] == |NamedAt(records, n + 1, identity)| {
      NamesGrow(records, n, identity);
    }
    forall key | Sought(kind, wakes, key) ensures Found(more, key) == PlacesFor(kind, records, n + 1, key) {
      if Keyed(kind, wakes, records[n]) {
        FoundAfter(sources, KeyOf(kind, records[n]).value, n, key);
      }
    }
  }

  /** The collector's counts and its records by key; nothing when there are too many to hold. */
  method ReadRecords(kind: Collector, wakes: set<Text>, records: seq<Record>)
    returns (within: bool, counts: multiset<Identity>, sources: map<SourceKey, seq<nat>>)
    ensures within ==> Idle(kind, wakes) || Reads(kind, wakes, records, |records|, counts, sources)
  {
    within, counts, sources := true, multiset{}, map[];
    if Idle(kind, wakes) {
      return;
    }
    NothingRead(kind, wakes, records);
    var n := 0;
    while n < |records|
      invariant n <= |records| && Reads(kind, wakes, records, n, counts, sources)
    {
      var after, more := ReadOne(kind, wakes, records[n], n, counts, sources);
      OneMoreRead(kind, wakes, records, n, counts, sources, after, more);
      counts, sources, n := after, more, n + 1;
      if TooMany(kind, records[n - 1], counts, sources) {
        within := false;
        return;
      }
    }
  }

  /** The size is looked at when a record is kept; the wake collector also looks whenever it counts one. */
  predicate TooMany(kind: Collector, record: Record, counts: multiset<Identity>, sources: map<SourceKey, seq<nat>>) {
    && record.user && record.identity.Some?
    && var held := |set identity | identity in counts|;
       || (kind.Wakes? && held > MAX_KEYS)
       || (!record.meta && !record.labelled && (kind.Wakes? ==> !record.authored) && held + |sources| > MAX_KEYS)
  }

  lemma NothingRead(kind: Collector, wakes: set<Text>, records: seq<Record>)
    ensures Reads(kind, wakes, records, 0, multiset{}, map[])
  {
    forall identity ensures |NamedAt(records, 0, identity)| == 0 {
      assert NamedAt(records, 0, identity) == {};
    }
  }

  method ReadOne(kind: Collector, wakes: set<Text>, record: Record, place: nat, counts: multiset<Identity>,
                 sources: map<SourceKey, seq<nat>>)
    returns (after: multiset<Identity>, more: map<SourceKey, seq<nat>>)
    ensures after == counts + if record.user && record.identity.Some? then multiset{record.identity.value} else multiset{}
    ensures more == if Keyed(kind, wakes, record) then Appended(sources, KeyOf(kind, record).value, place) else sources
  {
    after, more := counts, sources;
    if record.user && record.identity.Some? {
      after := counts + multiset{record.identity.value};
    }
    var key := KeyOf(kind, record);
    if key.Some? && Sought(kind, wakes, key.value) {
      more := Appended(sources, key.value, place);
    }
  }

  // ---------- crediting native runs ----------

  ghost predicate Has(list: seq<Credit>, run: Run, k: int) {
    exists i :: 0 <= i < |list| && list[i].run == run && list[i].place == k
  }

  /** Every entry is a credited pair, and no two are the same. */
  ghost predicate ListsCredits(window: seq<Row>, records: seq<Record>, kind: Collector, list: seq<Credit>) {
    && (forall i :: 0 <= i < |list| ==>
          && CreditedBy(window, records, kind, list[i].run, list[i].place)
          && list[i] == CreditAt(records, list[i].run, list[i].place))
    && (forall i, j :: 0 <= i < j < |list| ==> list[i].run != list[j].run || list[i].place != list[j].place)
  }

  /** The list holds each credited pair once, but for those of the runs that are still to do. */
  ghost predicate ListsAllBut(window: seq<Row>, records: seq<Record>, kind: Collector, list: seq<Credit>, todo: set<Run>) {
    && ListsCredits(window, records, kind, list)
    && (forall i :: 0 <= i < |list| ==> list[i].run !in todo)
    && (forall run, k :: run !in todo && CreditedBy(window, records, kind, run, k) ==> Has(list, run, k))
  }

  /** The list holds each credited pair of one run once. */
  ghost predicate ListsRun(window: seq<Row>, records: seq<Record>, kind: Collector, list: seq<Credit>, run: Run) {
    && ListsCredits(window, records, kind, list)
    && (forall i :: 0 <= i < |list| ==> list[i].run == run)
    && (forall k :: CreditedBy(window, records, kind, run, k) ==> Has(list, run, k))
  }

  lemma NamedOnce(records: seq<Record>, k: nat, counts: multiset<Identity>)
    requires k < |records| && Displayed(records[k])
    requires counts[records[k].identity.value] == |NamedAt(records, |records|, records[k].identity.value)|
    ensures counts[records[k].identity.value] == 1 <==> OnlyNamed(records, k)
  {
    var names := NamedAt(records, |records|, records[k].identity.value);
    assert k in names;
    if OnlyNamed(records, k) {
      assert names == {k as int};
    }
    if |names| == 1 {
      OnlyOne(names, k);
      forall j | 0 <= j < |records| && Named(records[j], records[k].identity.value) ensures j == k {
        assert j in names;
      }
    }
  }

  /** The list holds the credited ones among the first `n` places. */
  ghost predicate RunSoFar(window: seq<Row>, records: seq<Record>, kind: Collector, list: seq<Credit>, run: Run, places: seq<nat>, n: nat)
    requires n <= |places|
  {
    && ListsCredits(window, records, kind, list)
    && (forall i :: 0 <= i < |list| ==> list[i].run == run && list[i].place in places[..n])
    && (forall m :: 0 <= m < n && CreditedBy(window, records, kind, run, places[m]) ==> Has(list, run, places[m]))
  }

  lemma HasStill(list: seq<Credit>, more: seq<Credit>, run: Run, k: int)
    requires Has(list, run, k)
    ensures Has(list + more, run, k)
  {
    var i :| 0 <= i < |list| && list[i].run == run && list[i].place == k;
    assert (list + more)[i] == list[i];
  }

  lemma RunGrows(window: seq<Row>, records: seq<Record>, kind: Collector, list: seq<Credit>, run: Run, places: seq<nat>, n: nat)
    requires n < |places| && RunSoFar(window, records, kind, list, run, places, n)
    requires forall m :: 0 <= m < n ==> places[m] != places[n]
    requires CreditedBy(window, records, kind, run, places[n])
    ensures RunSoFar(window, records, kind, list + [CreditAt(records, run, places[n])], run, places, n + 1)
  {
    var k := places[n];
    var one := CreditAt(records, run, k);
    var longer := list + [one];
    assert places[..n + 1] == places[..n] + [k];
    assert k !in places[..n];
    forall m | 0 <= m < n + 1 && CreditedBy(window, records, kind, run, places[m]) ensures Has(longer, run, places[m]) {
      if m < n {
        HasStill(list, [one], run, places[m]);
      } else {
        assert longer[|list|].place == k;
      }
    }
  }

  lemma RunStays(window: seq<Row>, records: seq<Record>, kind: Collector, list: seq<Credit>, run: Run, places: seq<nat>, n: nat)
    requires n < |places| && RunSoFar(window, records, kind, list, run, places, n)
    requires !CreditedBy(window, records, kind, run, places[n])
    ensures RunSoFar(window, records, kind, list, run, places, n + 1)
  {
    assert places[..n + 1] == places[..n] + [places[n]];
  }

  lemma RunDone(window: seq<Row>, records: seq<Record>, kind: Collector, list: seq<Credit>, run: Run, places: seq<nat>)
    requires RunSoFar(window, records, kind, list, run, places, |places|)
    requires forall k :: CreditedBy(window, records, kind, run, k) ==> k in places
    ensures ListsRun(window, records, kind, list, run)
  {
    forall k | CreditedBy(window, records, kind, run, k) ensures Has(list, run, k) {
      var m :| 0 <= m < |places| && places[m] == k;
      assert CreditedBy(window, records, kind, run, places[m]);
    }
  }

  /** The records that answer one native run. */
  method CreditRun(kind: Collector, run: Run, occasion: Occasion, places: seq<nat>, records: seq<Record>, counts: multiset<Identity>,
                   ghost window: seq<Row>)
    returns (list: seq<Credit>)
    requires OccasionOf(window, kind, run) == Some(occasion) && places == PlacesFor(kind, records, |records|, occasion.key)
    requires forall identity :: counts[identity] == |NamedAt(records, |records|, identity)|
    ensures ListsRun(window, records, kind, list, run)
  {
    PlacesAreTheKeyed(kind, records, |records|, occasion.key);
    list := [];
    for n := 0 to |places|
      invariant RunSoFar(window, records, kind, list, run, places, n)
    {
      var k := places[n];
      assert k in places;
      NamedOnce(records, k, counts);
      if counts[records[k].identity.value] == 1 && During(occasion, TimeOf(records[k])) {
        RunGrows(window, records, kind, list, run, places, n);
        list := list + [CreditAt(records, run, k)];
      } else {
        RunStays(window, records, kind, list, run, places, n);
      }
    }
    RunDone(window, records, kind, list, run, places);
  }

  lemma NoOccasion(window: seq<Row>, records: seq<Record>, kind: Collector, run: Run)
    requires OccasionOf(window, kind, run).None?
    ensures ListsRun(window, records, kind, [], run)
  {
  }

  lemma ListsJoin(window: seq<Row>, records: seq<Record>, kind: Collector, list: seq<Credit>, more: seq<Credit>, todo: set<Run>, run: Run)
    requires ListsAllBut(window, records, kind, list, todo) && ListsRun(window, records, kind, more, run) && run in todo
    ensures ListsAllBut(window, records, kind, list + more, todo - {run})
  {
    var all := list + more;
    forall other, k | other !in todo - {run} && CreditedBy(window, records, kind, other, k) ensures Has(all, other, k) {
      if other != run {
        assert Has(list, other, k);
        var i :| 0 <= i < |list| && list[i].run == other && list[i].place == k;
        assert all[i] == list[i];
      } else {
        assert Has(more, other, k);
        var i :| 0 <= i < |more| && more[i].run == other && more[i].place == k;
        assert all[|list| + i] == more[i];
      }
    }
  }

  lemma NothingCredited(window: seq<Row>, records: seq<Record>, kind: Collector, todo: set<Run>)
    requires forall run :: OccasionOf(window, kind, run).Some? ==> run in todo
    ensures ListsAllBut(window, records, kind, [], todo)
  {
  }

  lemma TablesShowOccasion(window: seq<Row>, kind: Collector, w: Natives, run: Run)
    requires Working(window, |window|, w)
    ensures OccasionFrom(kind, w, run) == OccasionOf(window, kind, run)
    ensures OccasionOf(window, kind, run).Some? ==> run in if kind.Deliveries? then w.receipts else w.opens
    ensures OccasionOf(window, kind, run).Some? ==>
              !Idle(kind, WakesIn(w)) && Sought(kind, WakesIn(w), OccasionOf(window, kind, run).value.key)
  {
    assert Found(w.opens, run) == OpensOf(window, |window|, run) && Found(w.closes, run) == ClosesOf(window, |window|, run);
    assert Found(w.owners, run) == OwnersOf(window, |window|, run) && Found(w.receipts, run) == ReceiptsOf(window, |window|, run);
    if OccasionOf(window, kind, run).Some? && kind.Wakes? {
      var start := w.opens[run][0];
      assert start in w.opens[run] && start.work.wake.value in WakesIn(w);
    }
  }

  /** The credits of one run, none when it is no occasion. */
  method CreditOne(kind: Collector, run: Run, w: Natives, records: seq<Record>, counts: multiset<Identity>,
                   sources: map<SourceKey, seq<nat>>, ghost window: seq<Row>)
    returns (list: seq<Credit>)
    requires Working(window, |window|, w)
    requires Idle(kind, WakesIn(w)) || Reads(kind, WakesIn(w), records, |records|, counts, sources)
    ensures ListsRun(window, records, kind, list, run)
  {
    var occasion := OccasionFrom(kind, w, run);
    TablesShowOccasion(window, kind, w, run);
    if occasion.None? {
      NoOccasion(window, records, kind, run);
      return [];
    }
    list := CreditRun(kind, run, occasion.value, Found(sources, occasion.value.key), records, counts, window);
  }

  /** Every native run in turn, with the records that answer it. */
  method CreditRuns(kind: Collector, w: Natives, records: seq<Record>, counts: multiset<Identity>, sources: map<SourceKey, seq<nat>>,
                    ghost window: seq<Row>)
    returns (list: seq<Credit>)
    requires Working(window, |window|, w)
    requires Idle(kind, WakesIn(w)) || Reads(kind, WakesIn(w), records, |records|, counts, sources)
    ensures ListsAllBut(window, records, kind, list, {})
  {
    list := [];
    var todo := if kind.Deliveries? then w.receipts.Keys else w.opens.Keys;
    forall run ensures OccasionOf(window, kind, run).Some? ==> run in todo {
      TablesShowOccasion(window, kind, w, run);
    }
    NothingCredited(window, records, kind, todo);
    while todo != {}
      invariant ListsAllBut(window, records, kind, list, todo)
      decreases todo
    {
      var run :| run in todo;
      var more := CreditOne(kind, run, w, records, counts, sources, window);
      ListsJoin(window, records, kind, list, more, todo, run);
      list, todo := list + more, todo - {run};
    }
  }

  // ---------- the three tallies, and the decision ----------

  /** Candidates by batch and origin, credits by what they read as, and credits by native run. */
  datatype Tallies = Tallies(claims: multiset<(Run, Identity)>, matches: map<(Identity, Text), seq<Credit>>, credits: multiset<Run>)

  function ReadAs(list: seq<Credit>, n: nat, identity: Identity, key: Text): seq<Credit>
    requires n <= |list|
  {
    Filter(list, n, (c: Credit) => c.identity == identity && c.key == key)
  }

  function GivenTo(list: seq<Credit>, n: nat, run: Run): seq<Credit>
    requires n <= |list|
  {
    Filter(list, n, (c: Credit) => c.run == run)
  }

  function Claiming(candidates: seq<Candidate>, n: nat, run: Run, identity: Identity): seq<Candidate>
    requires n <= |candidates|
  {
    Filter(candidates, n, (c: Candidate) => Claims(c, run, identity))
  }

  ghost predicate TalliesClaims(candidates: seq<Candidate>, n: nat, claims: multiset<(Run, Identity)>)
    requires n <= |candidates|
  {
    forall run, identity :: claims[(run, identity)] == |Claiming(candidates, n, run, identity)|
  }

  ghost predicate TalliesCredits(list: seq<Credit>, n: nat, matches: map<(Identity, Text), seq<Credit>>, credits: multiset<Run>)
    requires n <= |list|
  {
    && (forall identity, key :: Found(matches, (identity, key)) == ReadAs(list, n, identity, key))
    && (forall run :: credits[run] == |GivenTo(list, n, run)|)
  }

  method Tally(candidates: seq<Candidate>, list: seq<Credit>) returns (t: Tallies)
    ensures TalliesClaims(candidates, |candidates|, t.claims) && TalliesCredits(list, |list|, t.matches, t.credits)
  {
    var claims := TallyClaims(candidates);
    var matches: map<(Identity, Text), seq<Credit>>, credits: multiset<Run> := map[], multiset{};
    var n := 0;
    while n < |list|
      invariant n <= |list| && TalliesCredits(list, n, matches, credits)
    {
      var more := Appended(matches, (list[n].identity, list[n].key), list[n]);
      OneMoreTallied(list, n, matches, credits, more);
      matches, credits, n := more, credits + multiset{list[n].run}, n + 1;
    }
    t := Tallies(claims, matches, credits);
  }

  method TallyClaims(candidates: seq<Candidate>) returns (claims: multiset<(Run, Identity)>)
    ensures TalliesClaims(candidates, |candidates|, claims)
  {
    claims := multiset{};
    for n := 0 to |candidates|
      invariant TalliesClaims(candidates, n, claims)
    {
      claims := claims + multiset{(candidates[n].target.run, candidates[n].identity)};
    }
  }

  lemma OneMoreTallied(list: seq<Credit>, n: nat, matches: map<(Identity, Text), seq<Credit>>, credits: multiset<Run>,
                       more: map<(Identity, Text), seq<Credit>>)
    requires n < |list| && TalliesCredits(list, n, matches, credits)
    requires more == Appended(matches, (list[n].identity, list[n].key), list[n])
    ensures TalliesCredits(list, n + 1, more, credits + multiset{list[n].run})
  {
    forall identity, key ensures Found(more, (identity, key)) == ReadAs(list, n + 1, identity, key) {
      FoundAfter(matches, (list[n].identity, list[n].key), list[n], (identity, key));
    }
    forall run ensures (credits + multiset{list[n].run})[run] == |GivenTo(list, n + 1, run)| {
      assert |GivenTo(list, n + 1, run)| == |GivenTo(list, n, run)| + if list[n].run == run then 1 else 0;
    }
  }

  predicate Decided(t: Tallies, candidate: Candidate, batch: Batch) {
    var matched := Found(t.matches, (candidate.identity, candidate.target.key));
    && t.claims[(candidate.target.run, candidate.identity)] == 1 && |matched| == 1 && t.credits[matched[0].run] == 1
    && Covers(batch, candidate.target.number, matched[0].offset)
  }

  lemma ClaimedByOne(candidates: seq<Candidate>, candidate: Candidate)
    requires candidate in candidates
    ensures |Claiming(candidates, |candidates|, candidate.target.run, candidate.identity)| == 1
       <==> OnlyCandidate(candidates, candidate.target.run, candidate.identity)
  {
    var run, identity := candidate.target.run, candidate.identity;
    var p := (c: Candidate) => Claims(c, run, identity);
    OneLeft(candidates, |candidates|, p);
    var i :| 0 <= i < |candidates| && candidates[i] == candidate;
    if OnlyCandidate(candidates, run, identity) {
      assert OnlyAt(candidates, |candidates|, p, i);
    }
    if k :| OnlyAt(candidates, |candidates|, p, k) {
      forall a, b | 0 <= a < |candidates| && 0 <= b < |candidates|
        ensures Claims(candidates[a], run, identity) && Claims(candidates[b], run, identity) ==> a == b
      {
        assert p(candidates[a]) == Claims(candidates[a], run, identity) && p(candidates[b]) == Claims(candidates[b], run, identity);
      }
    }
  }

  /** Entry `i` alone reads as the candidate, and alone is given to its native run. */
  ghost predicate OnlyCredit(list: seq<Credit>, candidate: Candidate, i: int) {
    && 0 <= i < |list| && Matches(list[i], candidate)
    && (forall j | 0 <= j < |list| :: Matches(list[j], candidate) || list[j].run == list[i].run ==> j == i)
  }

  lemma TalliesDecide(list: seq<Credit>, candidate: Candidate, t: Tallies)
    requires TalliesCredits(list, |list|, t.matches, t.credits)
    ensures var matched := Found(t.matches, (candidate.identity, candidate.target.key));
      && (|matched| == 1 && t.credits[matched[0].run] == 1 <==> exists i :: OnlyCredit(list, candidate, i))
      && (forall i :: OnlyCredit(list, candidate, i) ==> matched == [list[i]])
  {
    var identity, key := candidate.identity, candidate.target.key;
    var matched := Found(t.matches, (identity, key));
    var p := (c: Credit) => c.identity == identity && c.key == key;
    OneLeft(list, |list|, p);
    if |matched| == 1 && t.credits[matched[0].run] == 1 {
      var i :| OnlyAt(list, |list|, p, i);
      var run := list[i].run;
      var q := (c: Credit) => c.run == run;
      OneLeft(list, |list|, q);
      var g :| OnlyAt(list, |list|, q, g);
      assert q(list[i]);
      assert OnlyCredit(list, candidate, i) by {
        forall j | 0 <= j < |list| ensures Matches(list[j], candidate) || list[j].run == run ==> j == i {
          assert p(list[j]) == Matches(list[j], candidate) && q(list[j]) == (list[j].run == run);
        }
      }
    }
    forall i | OnlyCredit(list, candidate, i) ensures matched == [list[i]] && t.credits[list[i].run] == 1 {
      var run := list[i].run;
      var q := (c: Credit) => c.run == run;
      assert OnlyAt(list, |list|, p, i) && OnlyAt(list, |list|, q, i);
      OneLeft(list, |list|, q);
    }
  }

  /** In a list of all credits, one credit alone stands for one pair of native run and record alone. */
  lemma OnlyCreditExactlyWhen(window: seq<Row>, records: seq<Record>, kind: Collector, list: seq<Credit>, candidate: Candidate, i: int)
    requires ListsAllBut(window, records, kind, list, {}) && 0 <= i < |list|
    ensures OnlyCredit(list, candidate, i) <==>
      Matches(list[i], candidate) && NoOtherCredit(window, records, kind, candidate, list[i].run, list[i].place)
  {
    if OnlyCredit(list, candidate, i) {
      forall other, j | CreditedBy(window, records, kind, other, j)
        ensures Matches(CreditAt(records, other, j), candidate) || other == list[i].run ==> other == list[i].run && j == list[i].place
      {
        assert Has(list, other, j);
        var m :| 0 <= m < |list| && list[m].run == other && list[m].place == j;
        assert list[m] == CreditAt(records, other, j);
      }
    }
  }

  lemma CreditDelivers(window: seq<Row>, records: seq<Record>, kind: Collector, list: seq<Credit>, candidate: Candidate, batch: Batch, i: int)
    requires ListsAllBut(window, records, kind, list, {}) && 0 <= i < |list|
    ensures OnlyCredit(list, candidate, i) && Covers(batch, candidate.target.number, list[i].offset)
       <==> DeliveredBy(window, records, kind, candidate, batch, list[i].run, list[i].place)
  {
    OnlyCreditExactlyWhen(window, records, kind, list, candidate, i);
    assert list[i] == CreditAt(records, list[i].run, list[i].place);
  }

  /** The tallies decide exactly whether one record answers one native run for the candidate, and nothing else does. */
  lemma DecidedExactlyWhenDelivered(window: seq<Row>, records: seq<Record>, kind: Collector, list: seq<Credit>, t: Tallies,
                                    candidate: Candidate, batch: Batch)
    requires ListsAllBut(window, records, kind, list, {}) && candidate in DeliveriesOf(window, |window|)
    requires TalliesClaims(DeliveriesOf(window, |window|), |DeliveriesOf(window, |window|)|, t.claims)
    requires TalliesCredits(list, |list|, t.matches, t.credits)
    ensures Decided(t, candidate, batch) <==> InputDelivered(window, records, kind, candidate, batch)
  {
    ClaimedByOne(DeliveriesOf(window, |window|), candidate);
    TalliesDecide(list, candidate, t);
    if Decided(t, candidate, batch) {
      var i :| OnlyCredit(list, candidate, i);
      CreditDelivers(window, records, kind, list, candidate, batch, i);
    }
    if run, k :| DeliveredBy(window, records, kind, candidate, batch, run, k) {
      assert Has(list, run, k);
      var i :| 0 <= i < |list| && list[i].run == run && list[i].place == k;
      CreditDelivers(window, records, kind, list, candidate, batch, i);
    }
  }

  ghost predicate DeliversTarget(window: seq<Row>, records: seq<Record>, kind: Collector, c: Candidate, eligible: map<Run, Batch>, target: Target) {
    c.target == target && target.run in eligible && InputDelivered(window, records, kind, c, eligible[target.run])
  }

  method DecideAll(kind: Collector, candidates: seq<Candidate>, eligible: map<Run, Batch>, tallies: Tallies,
                   ghost window: seq<Row>, ghost records: seq<Record>, ghost list: seq<Credit>)
    returns (proven: set<Target>)
    requires ListsAllBut(window, records, kind, list, {}) && candidates == DeliveriesOf(window, |window|)
    requires TalliesClaims(candidates, |candidates|, tallies.claims) && TalliesCredits(list, |list|, tallies.matches, tallies.credits)
    ensures forall target :: target in proven <==>
              exists i :: 0 <= i < |candidates| && DeliversTarget(window, records, kind, candidates[i], eligible, target)
  {
    proven := {};
    for n := 0 to |candidates|
      invariant forall target :: target in proven <==>
                  exists i :: 0 <= i < n && DeliversTarget(window, records, kind, candidates[i], eligible, target)
    {
      var ok := DecideOne(kind, candidates[n], eligible, tallies, window, records, list);
      if ok {
        proven := proven + {candidates[n].target};
      }
    }
  }

  method DecideOne(kind: Collector, candidate: Candidate, eligible: map<Run, Batch>, tallies: Tallies,
                   ghost window: seq<Row>, ghost records: seq<Record>, ghost list: seq<Credit>)
    returns (ok: bool)
    requires ListsAllBut(window, records, kind, list, {}) && candidate in DeliveriesOf(window, |window|)
    requires TalliesClaims(DeliveriesOf(window, |window|), |DeliveriesOf(window, |window|)|, tallies.claims)
    requires TalliesCredits(list, |list|, tallies.matches, tallies.credits)
    ensures ok <==> DeliversTarget(window, records, kind, candidate, eligible, candidate.target)
  {
    ok := false;
    if candidate.target.run in eligible {
      DecidedExactlyWhenDelivered(window, records, kind, list, tallies, candidate, eligible[candidate.target.run]);
      ok := Decided(tallies, candidate, eligible[candidate.target.run]);
    }
  }

  /** `prove` of either collector: the targets of exactly the delivered candidates; nothing when the records are too many. */
  method ProveCollected(kind: Collector, t: Tables, records: seq<Record>, eligible: map<Run, Batch>, ghost window: seq<Row>)
    returns (targets: Option<set<Target>>)
    requires Working(window, |window|, t.work) && t.deliveries == DeliveriesOf(window, |window|)
    ensures targets.Some? ==> forall target :: target in targets.value <==>
              exists c: Candidate :: c in t.deliveries && c.target == target && target.run in eligible
                && InputDelivered(window, records, kind, c, eligible[target.run])
  {
    var within, counts, sources := ReadRecords(kind, WakesIn(t.work), records);
    if !within {
      return None;
    }
    var list := CreditRuns(kind, t.work, records, counts, sources, window);
    var tallies := Tally(t.deliveries, list);
    var proven := DecideAll(kind, t.deliveries, eligible, tallies, window, records, list);
    return Some(proven);
  }
}
