/**
 Delivery of requests to the app-server process.  A request is cut into the pieces between
 its awaits; the pieces of different requests, the reader and the retirement of the process
 interleave freely.
 */
module CodexDeliveryModel {
  import opened Options

  /** What an app-server error tells the caller. */
  datatype Error = Error(sent: bool, safe: bool)

  const NOT_DELIVERED := Error(false, true)
  const UNCERTAIN := Error(true, false)
  const REJECTED := Error(true, true)

  datatype Reply = Value | Failed(error: Error)

  datatype Phase = WaitingForLock | Draining | Awaiting | Raised(error: Error) | Returned

  /** A request, the process it was begun for, and what its future holds. */
  datatype Request = Request(process: nat, phase: Phase, reply: Option<Reply>)

  datatype Guard = NoGuard | Allows | Refuses | GuardRaises

  datatype WriteResult = Wrote | WriteRaised

  /** `pending` is the table the reader answers from; `written` are the requests of which a
      byte may have reached a pipe; `rejected` are those the server answered with an error. */
  datatype Transport = Transport(
    process: Option<nat>,
    running: bool,
    spawned: nat,
    lock: Option<nat>,
    requests: seq<Request>,
    pending: set<nat>,
    written: set<nat>,
    rejected: set<nat>)

  const FRESH := Transport(None, false, 0, None, [], {}, {}, {})

  predicate In(t: Transport, id: nat, phase: Phase) {
    id < |t.requests| && t.requests[id].phase == phase
  }

  function WithPhase(t: Transport, id: nat, phase: Phase): Transport
    requires id < |t.requests|
  {
    t.(requests := t.requests[id := t.requests[id].(phase := phase)])
  }

  /** The request leaves the table and its caller sees the error. */
  function Raise(t: Transport, id: nat, error: Error): Transport
    requires id < |t.requests|
  {
    WithPhase(t, id, Raised(error)).(pending := t.pending - {id})
  }

  function Unlocked(t: Transport, id: nat): Transport {
    if t.lock == Some(id) then t.(lock := None) else t
  }

  function Spawn(t: Transport): Transport {
    if t.process.Some? then t else t.(process := Some(t.spawned), running := true, spawned := t.spawned + 1)
  }

  /** Up to the wait for the write lock. */
  function Begin(t: Transport): Transport {
    var id := |t.requests|;
    if t.process.None? || !t.running then
      t.(requests := t.requests + [Request(t.spawned, Raised(NOT_DELIVERED), None)])
    else
      t.(requests := t.requests + [Request(t.process.value, WaitingForLock, None)], pending := t.pending + {id})
  }

  function LockTimesOut(t: Transport, id: nat): Transport {
    if !In(t, id, WaitingForLock) then t else Raise(t, id, NOT_DELIVERED)
  }

  /** From the lock to the write: stale process, deadline and guard are checked with no await
      between the last check and the write. */
  function Acquire(t: Transport, id: nat, late: bool, guard: Guard, write: WriteResult): Transport {
    if !In(t, id, WaitingForLock) || t.lock.Some? then t
    else if t.process != Some(t.requests[id].process) || !t.running then Raise(t, id, NOT_DELIVERED)
    else if late then Raise(t, id, NOT_DELIVERED)
    else if guard.Refuses? || guard.GuardRaises? then Raise(t, id, NOT_DELIVERED)
    else if write.WriteRaised? then Raise(t.(written := t.written + {id}), id, UNCERTAIN)
    else WithPhase(t, id, Draining).(lock := Some(id), written := t.written + {id})
  }

  function Drained(t: Transport, id: nat): Transport {
    if !In(t, id, Draining) then t else Unlocked(WithPhase(t, id, Awaiting), id)
  }

  function DrainFails(t: Transport, id: nat): Transport {
    if !In(t, id, Draining) then t else Unlocked(Raise(t, id, UNCERTAIN), id)
  }

  /** `_fail_all`: every future that is still open gets the same error. */
  function FailAll(t: Transport, error: Error): Transport {
    t.(requests := seq(|t.requests|, i requires 0 <= i < |t.requests| =>
         if i in t.pending && t.requests[i].reply.None? then t.requests[i].(reply := Some(Failed(error))) else t.requests[i]),
       pending := {})
  }

  /** The error of a retired or exited process. */
  function ClosedError(t: Transport): Error {
    Error(t.pending != {}, t.pending == {})
  }

  function Retire(t: Transport): Transport {
    FailAll(t, ClosedError(t)).(process := None, running := false)
  }

  /** A write that missed its deadline retires exactly the process it was written to. */
  function DrainTimesOut(t: Transport, id: nat, discard: bool): Transport {
    if !In(t, id, Draining) then t
    else
      var released := Unlocked(t, id);
      var retired := if discard && t.process == Some(t.requests[id].process) then Retire(released) else released;
      Raise(retired, id, UNCERTAIN)
  }

  /** The reader answers from the table, whether or not the writer has drained yet. */
  function Answer(t: Transport, id: nat, rejects: bool): Transport {
    if id >= |t.requests| || id !in t.pending || t.requests[id].reply.Some? then t
    else
      var reply := if rejects then Failed(REJECTED) else Value;
      t.(requests := t.requests[id := t.requests[id].(reply := Some(reply))],
         rejected := if rejects then t.rejected + {id} else t.rejected)
  }

  /** The end of the process's stdout; its exit status may not be known yet. */
  function ReaderEnds(t: Transport, exited: bool): Transport {
    if t.process.None? then t else FailAll(t, ClosedError(t)).(running := t.running && !exited)
  }

  /** A process without stdout: the reader reports it as if nothing had been sent. */
  function StdoutMissing(t: Transport): Transport {
    if t.process.None? then t else FailAll(t, NOT_DELIVERED)
  }

  function Resume(t: Transport, id: nat): Transport {
    if !In(t, id, Awaiting) || t.requests[id].reply.None? then t
    else
      match t.requests[id].reply.value
      case Value => WithPhase(t, id, Returned).(pending := t.pending - {id})
      case Failed(error) => Raise(t, id, error)
  }

  function AnswerTimesOut(t: Transport, id: nat): Transport {
    if !In(t, id, Awaiting) then t else Raise(t, id, UNCERTAIN)
  }
}
