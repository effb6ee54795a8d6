/** The retry flag is honest in every interleaving, as long as the process has a stdout. */
module CodexDeliveryRuns {
  import opened Options
  import opened CodexDeliveryModel

  datatype Event =
    | DoSpawn
    | DoBegin
    | DoLockTimeout(id: nat)
    | DoAcquire(id: nat, late: bool, guard: Guard, write: WriteResult)
    | DoDrained(id: nat)
    | DoDrainFails(id: nat)
    | DoDrainTimeout(id: nat, discard: bool)
    | DoAnswer(id: nat, rejects: bool)
    | DoReaderEnds(exited: bool)
    | DoStdoutMissing
    | DoRetire
    | DoResume(id: nat)
    | DoAnswerTimeout(id: nat)

  function Happen(t: Transport, e: Event): Transport {
    match e
    case DoSpawn => Spawn(t)
    case DoBegin => Begin(t)
    case DoLockTimeout(id) => LockTimesOut(t, id)
    case DoAcquire(id, late, guard, write) => Acquire(t, id, late, guard, write)
    case DoDrained(id) => Drained(t, id)
    case DoDrainFails(id) => DrainFails(t, id)
    case DoDrainTimeout(id, discard) => DrainTimesOut(t, id, discard)
    case DoAnswer(id, rejects) => Answer(t, id, rejects)
    case DoReaderEnds(exited) => ReaderEnds(t, exited)
    case DoStdoutMissing => StdoutMissing(t)
    case DoRetire => Retire(t)
    case DoResume(id) => Resume(t, id)
    case DoAnswerTimeout(id) => AnswerTimesOut(t, id)
  }

  function Run(t: Transport, events: seq<Event>): Transport
    decreases |events|
  {
    if events == [] then t else Run(Happen(t, events[0]), events[1..])
  }

  /** No byte was written, or the server itself rejected the request. */
  predicate Harmless(t: Transport, id: nat) {
    id !in t.written || id in t.rejected
  }

  /** Waiting for a process that is gone; such a request can never be written any more. */
  predicate Stranded(t: Transport, id: nat) {
    In(t, id, WaitingForLock) && (t.process != Some(t.requests[id].process) || !t.running)
  }

  /** Everything a caller may conclude from the flag is, or will be, true of the request. */
  ghost predicate RequestHonest(t: Transport, id: nat) {
    id < |t.requests| ==>
      var r := t.requests[id];
      && (r.phase.WaitingForLock? ==> id !in t.written && r.process < t.spawned)
      && (r.phase.Draining? || r.phase.Awaiting? ==> id in t.written)
      && (r.phase.Raised? && r.phase.error.safe ==> Harmless(t, id))
      && (r.phase.Raised? && !r.phase.error.safe ==> id in t.written)
      && (r.reply.Some? && r.reply.value.Failed? && r.reply.value.error.safe ==>
            id in t.rejected || r.phase.Raised? || r.phase.Returned? || Stranded(t, id))
      && (r.phase.Raised? || r.phase.Returned? ==> id !in t.pending)
      && (id in t.rejected ==> r.reply.Some?)
  }

  ghost predicate Inv(t: Transport) {
    && (forall id :: RequestHonest(t, id))
    && (forall id :: id in t.pending ==> id < |t.requests|)
    && (forall id :: id in t.written ==> id < |t.requests|)
    && (forall id :: id in t.rejected ==> id < |t.requests|)
    && (t.process.Some? ==> t.process.value < t.spawned)
    && (t.lock.Some? ==> In(t, t.lock.value, Draining))
  }

  lemma FailAllKeepsInv(t: Transport, error: Error)
    requires Inv(t) && (t.pending != {} ==> !error.safe)
    ensures Inv(FailAll(t, error))
  {
    var next := FailAll(t, error);
    forall id: nat ensures RequestHonest(next, id) {
      assert RequestHonest(t, id);
    }
  }

  lemma RetireKeepsInv(t: Transport)
    requires Inv(t)
    ensures Inv(Retire(t))
  {
    FailAllKeepsInv(t, ClosedError(t));
    var next := Retire(t);
    forall id: nat ensures RequestHonest(next, id) {
      assert RequestHonest(FailAll(t, ClosedError(t)), id);
    }
  }

  lemma UnlockKeepsInv(t: Transport, id: nat)
    requires Inv(t)
    ensures Inv(Unlocked(t, id))
  {
    forall k: nat ensures RequestHonest(Unlocked(t, id), k) {
      assert RequestHonest(t, k);
    }
  }

  lemma UncertainKeepsInv(t: Transport, id: nat)
    requires Inv(t) && id < |t.requests| && t.lock != Some(id) && id in t.written
    ensures Inv(Raise(t, id, UNCERTAIN))
  {
    forall k: nat ensures RequestHonest(Raise(t, id, UNCERTAIN), k) {
      assert RequestHonest(t, k);
    }
  }

  lemma DrainTimeoutKeepsInv(t: Transport, id: nat, discard: bool)
    requires Inv(t)
    ensures Inv(DrainTimesOut(t, id, discard))
  {
    if In(t, id, Draining) {
      var released := Unlocked(t, id);
      assert RequestHonest(t, id);
      UnlockKeepsInv(t, id);
      RetireKeepsInv(released);
      var retired := if discard && t.process == Some(t.requests[id].process) then Retire(released) else released;
      UncertainKeepsInv(retired, id);
    }
  }

  lemma ReaderEndKeepsInv(t: Transport, exited: bool)
    requires Inv(t)
    ensures Inv(ReaderEnds(t, exited))
  {
    if t.process.Some? {
      FailAllKeepsInv(t, ClosedError(t));
      forall k: nat ensures RequestHonest(ReaderEnds(t, exited), k) {
        assert RequestHonest(FailAll(t, ClosedError(t)), k);
      }
    }
  }

  lemma OpeningKeepsInv(t: Transport, e: Event)
    requires Inv(t) && (e.DoSpawn? || e.DoBegin? || e.DoLockTimeout?)
    ensures Inv(Happen(t, e))
  {
    forall k: nat ensures RequestHonest(Happen(t, e), k) {
      assert RequestHonest(t, k);
    }
  }

  lemma AcquireKeepsInv(t: Transport, e: Event)
    requires Inv(t) && e.DoAcquire?
    ensures Inv(Happen(t, e))
  {
    forall k: nat ensures RequestHonest(Happen(t, e), k) {
      assert RequestHonest(t, k);
    }
  }

  lemma DrainingKeepsInv(t: Transport, e: Event)
    requires Inv(t) && (e.DoDrained? || e.DoDrainFails?)
    ensures Inv(Happen(t, e))
  {
    forall k: nat ensures RequestHonest(Happen(t, e), k) {
      assert RequestHonest(t, k);
    }
  }

  lemma AnswerKeepsInv(t: Transport, e: Event)
    requires Inv(t) && e.DoAnswer?
    ensures Inv(Happen(t, e))
  {
    forall k: nat ensures RequestHonest(Happen(t, e), k) {
      assert RequestHonest(t, k);
    }
  }

  lemma AnsweringKeepsInv(t: Transport, e: Event)
    requires Inv(t) && (e.DoResume? || e.DoAnswerTimeout?)
    ensures Inv(Happen(t, e))
  {
    forall k: nat ensures RequestHonest(Happen(t, e), k) {
      assert RequestHonest(t, k);
    }
  }

  lemma EventKeepsInv(t: Transport, e: Event)
    requires Inv(t) && !e.DoStdoutMissing?
    ensures Inv(Happen(t, e))
  {
    match e
    case DoRetire => RetireKeepsInv(t);
    case DoReaderEnds(exited) => ReaderEndKeepsInv(t, exited);
    case DoDrainTimeout(id, discard) => DrainTimeoutKeepsInv(t, id, discard);
    case DoSpawn => OpeningKeepsInv(t, e);
    case DoBegin => OpeningKeepsInv(t, e);
    case DoLockTimeout(_) => OpeningKeepsInv(t, e);
    case DoAcquire(_, _, _, _) => AcquireKeepsInv(t, e);
    case DoDrained(_) => DrainingKeepsInv(t, e);
    case DoDrainFails(_) => DrainingKeepsInv(t, e);
    case DoAnswer(_, _) => AnswerKeepsInv(t, e);
    case DoResume(_) => AnsweringKeepsInv(t, e);
    case DoAnswerTimeout(_) => AnsweringKeepsInv(t, e);
  }

  lemma {:induction false} RunKeepsInv(t: Transport, events: seq<Event>)
    requires Inv(t) && forall i :: 0 <= i < |events| ==> !events[i].DoStdoutMissing?
    ensures Inv(Run(t, events))
    decreases |events|
  {
    if events != [] {
      EventKeepsInv(t, events[0]);
      RunKeepsInv(Happen(t, events[0]), events[1..]);
    }
  }

  /** Honest retry flag.  Over every interleaving of lock waits, guards, writes, drains,
      answers, timeouts and process retirement, a request whose error is marked safe to retry
      was never written, or was rejected by the server itself. */
  lemma SafeMeansHarmless(events: seq<Event>, id: nat)
    requires forall i :: 0 <= i < |events| ==> !events[i].DoStdoutMissing?
    ensures var t := Run(FRESH, events);
      id < |t.requests| && t.requests[id].phase.Raised? && t.requests[id].phase.error.safe ==> Harmless(t, id)
  {
    assert Inv(FRESH);
    RunKeepsInv(FRESH, events);
    assert RequestHonest(Run(FRESH, events), id);
  }

  /** And the flag is not needlessly pessimistic: over every interleaving, a request that failed without a byte of it
      having been written is always reported as safe to retry. */
  lemma UnwrittenIsAlwaysSafe(events: seq<Event>, id: nat)
    requires forall i :: 0 <= i < |events| ==> !events[i].DoStdoutMissing?
    ensures var t := Run(FRESH, events);
      id < |t.requests| && t.requests[id].phase.Raised? && id !in t.written ==> t.requests[id].phase.error.safe
  {
    assert Inv(FRESH);
    RunKeepsInv(FRESH, events);
    assert RequestHonest(Run(FRESH, events), id);
  }

  // ---------- a process without stdout ----------

  /** An unanswered request that has been written, or still can be. */
  predicate Exposed(t: Transport, id: nat) {
    && id < |t.requests| && id in t.pending && t.requests[id].reply.None?
    && (In(t, id, Draining) || In(t, id, Awaiting) || (In(t, id, WaitingForLock) && !Stranded(t, id)))
  }

  ghost predicate HonestForever(t: Transport) {
    forall events: seq<Event>, id ::
      (forall i :: 0 <= i < |events| ==> !events[i].DoStdoutMissing?) ==> HonestAt(Run(t, events), id)
  }

  ghost predicate HonestAt(t: Transport, id: nat) {
    id < |t.requests| && t.requests[id].phase.Raised? && t.requests[id].phase.error.safe ==> Harmless(t, id)
  }

  lemma UnexposedReportKeepsInv(t: Transport)
    requires Inv(t) && forall id :: !Exposed(t, id)
    ensures Inv(StdoutMissing(t))
  {
    var next := StdoutMissing(t);
    forall id: nat ensures RequestHonest(next, id) {
      assert RequestHonest(t, id) && !Exposed(t, id);
    }
  }

  /** What happens after the report so that an exposed request raises its dishonest error. */
  function Exposure(t: Transport, id: nat): seq<Event>
    requires id < |t.requests|
  {
    var finish := if t.requests[id].phase.Awaiting? then [DoResume(id)] else [DoDrained(id), DoResume(id)];
    if !t.requests[id].phase.WaitingForLock? then finish
    else (if t.lock.Some? then [DoDrainFails(t.lock.value)] else []) + [DoAcquire(id, false, NoGuard, Wrote)] + finish
  }

  lemma ResumesDishonestly(t: Transport, id: nat)
    requires In(t, id, Awaiting) && t.requests[id].reply == Some(Failed(NOT_DELIVERED)) && id in t.written && id !in t.rejected
    ensures !HonestAt(Run(t, [DoResume(id)]), id)
  {
    assert Run(t, [DoResume(id)]) == Run(Resume(t, id), []);
  }

  lemma DrainsDishonestly(t: Transport, id: nat)
    requires In(t, id, Draining) && t.requests[id].reply == Some(Failed(NOT_DELIVERED)) && id in t.written && id !in t.rejected
    ensures !HonestAt(Run(t, [DoDrained(id), DoResume(id)]), id)
  {
    ResumesDishonestly(Drained(t, id), id);
    assert [DoDrained(id), DoResume(id)][1..] == [DoResume(id)];
  }

  lemma AcquiresDishonestly(t: Transport, id: nat)
    requires In(t, id, WaitingForLock) && !Stranded(t, id) && t.lock.None?
    requires t.requests[id].reply == Some(Failed(NOT_DELIVERED)) && id !in t.rejected
    ensures !HonestAt(Run(t, [DoAcquire(id, false, NoGuard, Wrote)] + [DoDrained(id), DoResume(id)]), id)
  {
    var acquired := Acquire(t, id, false, NoGuard, Wrote);
    DrainsDishonestly(acquired, id);
    assert ([DoAcquire(id, false, NoGuard, Wrote)] + [DoDrained(id), DoResume(id)])[1..] == [DoDrained(id), DoResume(id)];
  }

  lemma ExposedBecomesDishonest(t: Transport, id: nat)
    requires Inv(t) && t.process.Some? && Exposed(t, id)
    ensures !HonestAt(Run(StdoutMissing(t), Exposure(t, id)), id)
  {
    assert RequestHonest(t, id);
    var next := StdoutMissing(t);
    if In(t, id, Awaiting) {
      ResumesDishonestly(next, id);
    } else if In(t, id, Draining) {
      DrainsDishonestly(next, id);
    } else {
      var tail := [DoAcquire(id, false, NoGuard, Wrote)] + [DoDrained(id), DoResume(id)];
      if t.lock.None? {
        assert Exposure(t, id) == tail;
        AcquiresDishonestly(next, id);
      } else {
        var freed := DrainFails(next, t.lock.value);
        AcquiresDishonestly(freed, id);
        assert Exposure(t, id) == [DoDrainFails(t.lock.value)] + tail;
        assert ([DoDrainFails(t.lock.value)] + tail)[1..] == tail;
      }
    }
  }

  /** The reader reports a process without stdout as if nothing had been sent.  That report is
      honest in every continuation exactly when no unanswered request has been written to the
      process or is still waiting to be. */
  lemma StdoutReportIsHonestExactlyWhen(t: Transport)
    requires Inv(t) && t.process.Some?
    ensures HonestForever(StdoutMissing(t)) <==> forall id :: !Exposed(t, id)
  {
    var next := StdoutMissing(t);
    if forall id :: !Exposed(t, id) {
      UnexposedReportKeepsInv(t);
      forall events: seq<Event>, id | forall i :: 0 <= i < |events| ==> !events[i].DoStdoutMissing?
        ensures HonestAt(Run(next, events), id)
      {
        RunKeepsInv(next, events);
        assert RequestHonest(Run(next, events), id);
      }
    } else {
      var id :| Exposed(t, id);
      ExposedBecomesDishonest(t, id);
      var events := Exposure(t, id);
      assert forall i :: 0 <= i < |events| ==> !events[i].DoStdoutMissing?;
      assert !HonestAt(Run(next, events), id);
    }
  }
}
