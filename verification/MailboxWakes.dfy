/** Wake reservations: what is claimed, what is admitted, and what Stop silences. */
module MailboxWakes {
  import opened Options
  import opened MailboxModel
  import opened MailboxReads
  import opened MailboxRuns

  /** One admitted wake, with the interval it was admitted for and a message that justified it. */
  datatype Admission = Admission(chat: Chat, claim: nat, cutoff: nat, through: nat, cause: nat)

  /** A ledger together with every admission so far. */
  datatype Recorded = Recorded(ledger: Ledger, log: seq<Admission>)

  function Eligible(l: Ledger, chat: Chat, pairs: set<Pair>): seq<nat> {
    Rows(l, PendingFilter(l, chat, pairs, WakeOf(l, chat).Cutoff(), WakeOf(l, chat).through))
  }

  function Admits(l: Ledger, c: Command): bool {
    c.AdmitFor? && AdmitWake(l, c.chat, c.claim, c.run, c.pairs).1
  }

  function Record(h: Recorded, c: Command): Recorded {
    var l := h.ledger;
    Recorded(Apply(l, c),
             if Admits(l, c) then
               h.log + [Admission(c.chat, c.claim, WakeOf(l, c.chat).Cutoff(), WakeOf(l, c.chat).through,
                                  Eligible(l, c.chat, c.pairs)[0])]
             else h.log)
  }

  function RecordAll(h: Recorded, run: seq<Command>): Recorded
    decreases |run|
  {
    if run == [] then h else RecordAll(Record(h, run[0]), run[1..])
  }

  lemma {:induction false} RecordingIsExecuting(h: Recorded, run: seq<Command>)
    ensures RecordAll(h, run).ledger == Execute(h.ledger, run)
    decreases |run|
  {
    if run != [] {
      RecordingIsExecuting(Record(h, run[0]), run[1..]);
    }
  }

  // ---------- the two decisions ----------

  /** A claim reserves exactly up to the newest unread, authorised message above the cutoff,
      and nothing is claimed when there is none or a reservation is outstanding. */
  lemma ClaimReservesTheNewest(l: Ledger, chat: Chat, pairs: set<Pair>)
    ensures var (next, wake) := ClaimWake(l, chat, pairs);
      var f := PendingFilter(l, chat, pairs, WakeOf(l, chat).Cutoff(), |l.messages|);
      && (wake.Some? <==> !WakeOf(l, chat).state.Reserved? && exists n :: Known(l, n) && Selected(l, f, n))
      && (wake.Some? ==>
            && WakeOf(next, chat) == wake.value
            && wake.value.state.Reserved? && wake.value.claim == Some(l.claims) && next.claims == l.claims + 1
            && wake.value.last == WakeOf(l, chat).last && wake.value.suppressed == WakeOf(l, chat).suppressed
            && Known(l, wake.value.through) && Selected(l, f, wake.value.through)
            && (forall n: nat :: Known(l, n) && Selected(l, f, n) ==> n <= wake.value.through))
      && (wake.None? ==> next == l)
  {
    var f := PendingFilter(l, chat, pairs, WakeOf(l, chat).Cutoff(), |l.messages|);
    var rows := Rows(l, f);
    SelectSpec(l, f, 1);
    if rows != [] {
      var latest := rows[|rows| - 1];
      assert latest in rows;
      forall n | Known(l, n) && Selected(l, f, n) ensures n <= latest {
        assert n in rows;
      }
    } else {
      forall n ensures !(Known(l, n) && Selected(l, f, n)) {
        assert n !in rows;
      }
    }
  }

  /** An admission consumes the reservation, and some unread, authorised message inside the
      claimed interval justifies it at that moment. */
  lemma AdmissionIsJustified(l: Ledger, chat: Chat, claim: nat, run: string, pairs: set<Pair>)
    requires AdmitWake(l, chat, claim, run, pairs).1
    ensures var wake := WakeOf(l, chat);
      var next := AdmitWake(l, chat, claim, run, pairs).0;
      && wake.state.Reserved? && wake.claim == Some(claim)
      && Eligible(l, chat, pairs) != []
      && Known(l, Eligible(l, chat, pairs)[0])
      && Selected(l, PendingFilter(l, chat, pairs, wake.Cutoff(), wake.through), Eligible(l, chat, pairs)[0])
      && wake.Cutoff() < Eligible(l, chat, pairs)[0] <= wake.through
      && WakeOf(next, chat).state.Admitted?
      && WakeOf(next, chat).last >= wake.through && WakeOf(next, chat).last >= wake.last
      && WakeOf(next, chat).suppressed == wake.suppressed
  {
    var f := PendingFilter(l, chat, pairs, WakeOf(l, chat).Cutoff(), WakeOf(l, chat).through);
    SelectSpec(l, f, 1);
    assert Rows(l, f)[0] in Rows(l, f);
  }

  // ---------- wake discipline ----------

  ghost predicate ReservationOk(h: Recorded, chat: Chat) {
    var wake := WakeOf(h.ledger, chat);
    wake.state.Reserved? ==>
      && wake.claim.Some?
      && wake.claim.value < h.ledger.claims
      && wake.Cutoff() < wake.through
      && (forall i :: 0 <= i < |h.log| ==> h.log[i].claim != wake.claim.value)
  }

  ghost predicate ReservationsDiffer(l: Ledger, a: Chat, b: Chat) {
    a != b && WakeOf(l, a).state.Reserved? && WakeOf(l, b).state.Reserved? ==> WakeOf(l, a).claim != WakeOf(l, b).claim
  }

  ghost predicate EntryOk(h: Recorded, i: nat) {
    i < |h.log| ==>
      var e := h.log[i];
      && e.claim < h.ledger.claims
      && e.cutoff < e.cause <= e.through
      && Known(h.ledger, e.cause)
      && At(h.ledger, e.cause).target == e.chat
      && e.through <= WakeOf(h.ledger, e.chat).last
  }

  /** Two admissions have different claims, and for one chat the later one starts behind the earlier one. */
  ghost predicate EntriesOrdered(log: seq<Admission>, i: nat, j: nat) {
    i < j < |log| ==>
      && log[i].claim != log[j].claim
      && (log[i].chat == log[j].chat ==> log[i].through <= log[j].cutoff)
  }

  ghost predicate WakesOk(h: Recorded) {
    && Inv(h.ledger)
    && (forall chat :: ReservationOk(h, chat))
    && (forall a, b :: ReservationsDiffer(h.ledger, a, b))
    && (forall i :: EntryOk(h, i))
    && (forall i, j :: EntriesOrdered(h.log, i, j))
  }

  lemma NothingAdmittedYet()
    ensures WakesOk(Recorded(EMPTY, []))
  {
    EmptyIsOk();
  }

  /** What the wake commands may do to the wake of one chat. */
  ghost predicate WakeKept(l: Ledger, next: Ledger, chat: Chat) {
    var a, b := WakeOf(l, chat), WakeOf(next, chat);
    && a.last <= b.last && a.suppressed <= b.suppressed
    && (b.state.Reserved? && !(a.state.Reserved? && a == b) ==>
          b.claim == Some(l.claims) && next.claims == l.claims + 1 && b.Cutoff() < b.through)
  }

  /** Marks only rise, and a reservation is either the one that was there or one newly drawn. */
  ghost predicate WakesKept(l: Ledger, next: Ledger) {
    && l.claims <= next.claims
    && (forall chat :: WakeKept(l, next, chat))
    && (forall a, b :: a != b && WakeOf(next, a) != WakeOf(l, a) && WakeOf(next, a).state.Reserved? ==>
          WakeOf(next, b) == WakeOf(l, b))
  }

  lemma ReadLeavesWakes(l: Ledger, r: Request)
    ensures ReadSender(l, r).0.wakes == l.wakes && ReadSender(l, r).0.claims == l.claims
  {
    MatchingInRange(l.batches, r.target, r.request, 0);
    var found := Matching(l.batches, r.target, r.request, 0);
    if 1 <= r.limit {
      if found == [] {
        ReadBatchEffect(Opened(l, r), |l.batches|, r);
      } else {
        ReadBatchEffect(l, found[0], r);
      }
    }
  }

  lemma MailCommandsLeaveWakes(l: Ledger, c: Command)
    requires !IsWakeCommand(c)
    ensures Apply(l, c).wakes == l.wakes && Apply(l, c).claims == l.claims
  {
    if c.CancelMessage? {
      CancelEffect(l, c.id);
    } else if c.ReadPage? {
      ReadLeavesWakes(l, c.request);
    }
  }

  lemma CommandKeepsWakes(l: Ledger, c: Command)
    ensures WakesKept(l, Apply(l, c))
  {
    if !IsWakeCommand(c) {
      MailCommandsLeaveWakes(l, c);
    } else if c.ClaimFor? {
      ClaimReservesTheNewest(l, c.chat, c.pairs);
    }
  }

  lemma QuietRecordKeepsWakesOk(h: Recorded, c: Command)
    requires WakesOk(h) && !Admits(h.ledger, c)
    ensures WakesOk(Record(h, c))
  {
    var l, next := h.ledger, Apply(h.ledger, c);
    var k := Record(h, c);
    ApplyKeepsInv(l, c);
    CommandEvolves(l, c);
    CommandKeepsWakes(l, c);
    forall chat ensures ReservationOk(k, chat) {
      assert ReservationOk(h, chat) && WakeKept(l, next, chat);
      forall i | 0 <= i < |h.log| ensures WakeOf(next, chat).state.Reserved? ==> h.log[i].claim != WakeOf(next, chat).claim.value {
        assert EntryOk(h, i);
      }
    }
    forall a, b ensures ReservationsDiffer(next, a, b) {
      assert ReservationsDiffer(l, a, b) && WakeKept(l, next, a) && WakeKept(l, next, b);
      assert ReservationOk(h, a) && ReservationOk(h, b);
    }
    forall i: nat ensures EntryOk(k, i) {
      assert EntryOk(h, i);
      if i < |h.log| {
        assert SameRow(l, next, h.log[i].cause) && WakeKept(l, next, h.log[i].chat);
      }
    }
  }

  lemma AdmissionKeepsWakesOk(h: Recorded, c: Command)
    requires WakesOk(h) && Admits(h.ledger, c)
    ensures WakesOk(Record(h, c))
  {
    var l, next := h.ledger, Apply(h.ledger, c);
    var k := Record(h, c);
    ApplyKeepsInv(l, c);
    CommandEvolves(l, c);
    AdmissionIsJustified(l, c.chat, c.claim, c.run, c.pairs);
    assert ReservationOk(h, c.chat);
    forall chat ensures ReservationOk(k, chat) {
      assert ReservationOk(h, chat) && ReservationsDiffer(l, chat, c.chat);
      if chat == c.chat {
        assert WakeOf(next, chat).state.Admitted?;
      } else {
        assert WakeOf(next, chat) == WakeOf(l, chat);
      }
    }
    forall a, b ensures ReservationsDiffer(next, a, b) {
      assert ReservationsDiffer(l, a, b);
    }
    forall i: nat ensures EntryOk(k, i) {
      assert EntryOk(h, i);
      if i < |h.log| {
        assert SameRow(l, next, h.log[i].cause);
      }
    }
    forall i: nat, j: nat ensures EntriesOrdered(k.log, i, j) {
      assert EntriesOrdered(h.log, i, j) && EntryOk(h, i);
    }
  }

  lemma {:induction false} RunKeepsWakesOk(h: Recorded, run: seq<Command>)
    requires WakesOk(h)
    ensures WakesOk(RecordAll(h, run))
    decreases |run|
  {
    if run != [] {
      if Admits(h.ledger, run[0]) {
        AdmissionKeepsWakesOk(h, run[0]);
      } else {
        QuietRecordKeepsWakesOk(h, run[0]);
      }
      RunKeepsWakesOk(Record(h, run[0]), run[1..]);
    }
  }

  /** How many wakes of a chat were admitted, and how many messages it was ever sent. */
  function AdmittedFor(log: seq<Admission>, chat: Chat): nat
    decreases |log|
  {
    if log == [] then 0
    else AdmittedFor(log[..|log| - 1], chat) + (if log[|log| - 1].chat == chat then 1 else 0)
  }

  function StoredFor(l: Ledger, chat: Chat, n: nat): nat
    requires n <= |l.messages|
  {
    if n == 0 then 0 else StoredFor(l, chat, n - 1) + (if l.messages[n - 1].target == chat then 1 else 0)
  }

  lemma {:induction false} StoredForGrows(l: Ledger, chat: Chat, low: nat, n: nat, high: nat)
    requires low < n <= high <= |l.messages| && l.messages[n - 1].target == chat
    ensures StoredFor(l, chat, low) + 1 <= StoredFor(l, chat, high)
    decreases high
  {
    if n < high {
      StoredForGrows(l, chat, low, n, high - 1);
    } else if low < n - 1 {
      StoredForMonotone(l, chat, low, n - 1);
    }
  }

  lemma {:induction false} StoredForMonotone(l: Ledger, chat: Chat, low: nat, high: nat)
    requires low <= high <= |l.messages|
    ensures StoredFor(l, chat, low) <= StoredFor(l, chat, high)
    decreases high
  {
    if low < high {
      StoredForMonotone(l, chat, low, high - 1);
    }
  }

  lemma {:induction false} AdmissionsAreCovered(h: Recorded, count: nat, chat: Chat, bound: nat)
    requires WakesOk(h) && count <= |h.log| && bound <= |h.ledger.messages|
    requires forall i :: 0 <= i < count && h.log[i].chat == chat ==> h.log[i].cause <= bound
    ensures AdmittedFor(h.log[..count], chat) <= StoredFor(h.ledger, chat, bound)
    decreases count
  {
    if count > 0 {
      var e := h.log[count - 1];
      assert h.log[..count][..count - 1] == h.log[..count - 1];
      if e.chat == chat {
        assert EntryOk(h, count - 1);
        forall i | 0 <= i < count - 1 && h.log[i].chat == chat ensures h.log[i].cause <= e.cause - 1 {
          assert EntryOk(h, i) && EntriesOrdered(h.log, i, count - 1);
        }
        AdmissionsAreCovered(h, count - 1, chat, e.cause - 1);
        StoredForGrows(h.ledger, chat, e.cause - 1, e.cause, bound);
      } else {
        AdmissionsAreCovered(h, count - 1, chat, bound);
      }
    }
  }

  /** Wake discipline, for any run from the empty ledger: no claim is admitted twice, the
      admitted intervals of a chat lie strictly behind each other, and a chat is never woken
      more often than messages were stored for it. */
  lemma WakeDiscipline(run: seq<Command>, i: nat, j: nat, chat: Chat)
    ensures var h := RecordAll(Recorded(EMPTY, []), run);
      && h.ledger == Execute(EMPTY, run)
      && (i < j < |h.log| ==>
            && h.log[i].claim != h.log[j].claim
            && (h.log[i].chat == h.log[j].chat ==>
                  h.log[i].cutoff < h.log[i].through <= h.log[j].cutoff < h.log[j].through))
      && AdmittedFor(h.log, chat) <= StoredFor(h.ledger, chat, |h.ledger.messages|)
  {
    NothingAdmittedYet();
    RunKeepsWakesOk(Recorded(EMPTY, []), run);
    RecordingIsExecuting(Recorded(EMPTY, []), run);
    var h := RecordAll(Recorded(EMPTY, []), run);
    assert EntryOk(h, i) && EntryOk(h, j) && EntriesOrdered(h.log, i, j);
    forall k | 0 <= k < |h.log| && h.log[k].chat == chat ensures h.log[k].cause <= |h.ledger.messages| {
      assert EntryOk(h, k);
    }
    AdmissionsAreCovered(h, |h.log|, chat, |h.ledger.messages|);
    assert h.log[..|h.log|] == h.log;
  }

  // ---------- Stop ----------

  /** Nothing up to `mark` can justify a wake of this chat: it is below the suppressed mark,
      read, or no longer valid. */
  ghost predicate Silenced(l: Ledger, chat: Chat, mark: nat, n: nat) {
    Known(l, n) && n <= mark && At(l, n).target == chat && WakeOf(l, chat).suppressed < n ==>
      !(Valid(l, At(l, n)) && At(l, n).receipt.None?)
  }

  lemma {:induction false} UnreadMarkSpec(l: Ledger, chat: Chat, n: nat)
    requires n <= |l.messages|
    ensures UnreadMark(l, chat, n) <= n
    ensures forall k :: 1 <= k <= n && UnreadMark(l, chat, n) < k && At(l, k).target == chat ==>
              !(Valid(l, At(l, k)) && At(l, k).receipt.None?)
  {
    if n > 0 && UnreadMark(l, chat, n) != n {
      UnreadMarkSpec(l, chat, n - 1);
    }
  }

  lemma SuppressSilences(l: Ledger, chat: Chat, n: nat)
    ensures Silenced(SuppressWake(l, chat), chat, |l.messages|, n)
    ensures !WakeOf(SuppressWake(l, chat), chat).state.Reserved?
  {
    UnreadMarkSpec(l, chat, |l.messages|);
    var next := SuppressWake(l, chat);
    if Known(l, n) {
      assert At(next, n) == At(l, n);
      assert Valid(next, At(next, n)) <==> Valid(l, At(l, n));
    }
  }

  lemma CommandKeepsSilence(l: Ledger, c: Command, chat: Chat, mark: nat, n: nat)
    requires Inv(l) && mark <= |l.messages| && Silenced(l, chat, mark, n)
    ensures Silenced(Apply(l, c), chat, mark, n)
  {
    CommandEvolves(l, c);
    CommandKeepsWakes(l, c);
    assert SameRow(l, Apply(l, c), n) && WakeKept(l, Apply(l, c), chat);
  }

  lemma {:induction false} RunKeepsSilence(l: Ledger, run: seq<Command>, chat: Chat, mark: nat, n: nat)
    requires Inv(l) && mark <= |l.messages| && Silenced(l, chat, mark, n)
    ensures Silenced(Execute(l, run), chat, mark, n)
    decreases |run|
  {
    if run != [] {
      CommandKeepsSilence(l, run[0], chat, mark, n);
      ApplyKeepsInv(l, run[0]);
      CommandEvolves(l, run[0]);
      RunKeepsSilence(Apply(l, run[0]), run[1..], chat, mark, n);
    }
  }

  /** After Stop, and whatever runs afterwards, a wake is never claimed or admitted on account
      of a message that was already stored when Stop was pressed. */
  lemma StopSilencesStoredMail(l: Ledger, chat: Chat, run: seq<Command>, pairs: set<Pair>, claim: nat, name: string, n: nat)
    requires Inv(l)
    ensures var later := Execute(SuppressWake(l, chat), run);
      && (Known(later, n)
          && Selected(later, PendingFilter(later, chat, pairs, WakeOf(later, chat).Cutoff(), |later.messages|), n) ==>
            n > |l.messages|)
      && (ClaimWake(later, chat, pairs).1.Some? ==> ClaimWake(later, chat, pairs).1.value.through > |l.messages|)
      && (AdmitWake(later, chat, claim, name, pairs).1 ==> Eligible(later, chat, pairs)[0] > |l.messages|)
  {
    var stopped := SuppressWake(l, chat);
    WakeStepKeepsInv(l, stopped);
    SuppressSilences(l, chat, n);
    RunKeepsSilence(stopped, run, chat, |l.messages|, n);
    var later := Execute(stopped, run);
    if ClaimWake(later, chat, pairs).1.Some? {
      ClaimReservesTheNewest(later, chat, pairs);
      var through := ClaimWake(later, chat, pairs).1.value.through;
      SuppressSilences(l, chat, through);
      RunKeepsSilence(stopped, run, chat, |l.messages|, through);
    }
    if AdmitWake(later, chat, claim, name, pairs).1 {
      AdmissionIsJustified(later, chat, claim, name, pairs);
      var cause := Eligible(later, chat, pairs)[0];
      SuppressSilences(l, chat, cause);
      RunKeepsSilence(stopped, run, chat, |l.messages|, cause);
    }
  }
}
