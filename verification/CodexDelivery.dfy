/** The client's side of the pipe as an object. */
module CodexDelivery {
  import opened Options
  import opened CodexDeliveryModel

  class Pipe {
    var process: Option<nat>
    var running: bool
    var spawned: nat
    var lock: Option<nat>
    var requests: seq<Request>
    var pending: set<nat>
    var written: set<nat>
    var rejected: set<nat>

    function Now(): Transport
      reads this
    {
      Transport(process, running, spawned, lock, requests, pending, written, rejected)
    }

    constructor ()
      ensures Now() == FRESH
    {
      process, running, spawned, lock := None, false, 0, None;
      requests, pending, written, rejected := [], {}, {}, {};
    }

    method SpawnProcess()
      modifies this
      ensures Now() == Spawn(old(Now()))
    {
      if process.None? {
        process, running, spawned := Some(spawned), true, spawned + 1;
      }
    }

    method SetPhase(id: nat, phase: Phase)
      requires id < |requests|
      modifies this`requests
      ensures Now() == WithPhase(old(Now()), id, phase)
    {
      requests := requests[id := requests[id].(phase := phase)];
    }

    /** The caller sees the error, and the request leaves the table. */
    method RaiseError(id: nat, error: Error)
      requires id < |requests|
      modifies this
      ensures Now() == Raise(old(Now()), id, error)
    {
      SetPhase(id, Raised(error));
      pending := pending - {id};
    }

    method ReleaseLock(id: nat)
      modifies this`lock
      ensures Now() == Unlocked(old(Now()), id)
    {
      if lock == Some(id) {
        lock := None;
      }
    }

    method BeginRequest() returns (id: nat)
      modifies this
      ensures id == |old(requests)| && Now() == Begin(old(Now()))
    {
      id := |requests|;
      if process.None? || !running {
        requests := requests + [Request(spawned, Raised(NOT_DELIVERED), None)];
        return;
      }
      requests := requests + [Request(process.value, WaitingForLock, None)];
      pending := pending + {id};
    }

    method MissLock(id: nat)
      modifies this
      ensures Now() == LockTimesOut(old(Now()), id)
    {
      if id < |requests| && requests[id].phase.WaitingForLock? {
        RaiseError(id, NOT_DELIVERED);
      }
    }

    method WriteUnderLock(id: nat, late: bool, guard: Guard, write: WriteResult)
      modifies this
      ensures Now() == Acquire(old(Now()), id, late, guard, write)
    {
      if id >= |requests| || !requests[id].phase.WaitingForLock? || lock.Some? {
        return;
      }
      lock := Some(id);
      if process != Some(requests[id].process) || !running {
        lock := None;
        RaiseError(id, NOT_DELIVERED);
        return;
      }
      if late {
        lock := None;
        RaiseError(id, NOT_DELIVERED);
        return;
      }
      if guard.Refuses? || guard.GuardRaises? {
        lock := None;
        RaiseError(id, NOT_DELIVERED);
        return;
      }
      written := written + {id};
      if write.WriteRaised? {
        lock := None;
        RaiseError(id, UNCERTAIN);
        return;
      }
      SetPhase(id, Draining);
    }

    method FinishDrain(id: nat)
      modifies this
      ensures Now() == Drained(old(Now()), id)
    {
      if id < |requests| && requests[id].phase.Draining? {
        SetPhase(id, Awaiting);
        ReleaseLock(id);
      }
    }

    method FailDrain(id: nat)
      modifies this
      ensures Now() == DrainFails(old(Now()), id)
    {
      if id < |requests| && requests[id].phase.Draining? {
        RaiseError(id, UNCERTAIN);
        ReleaseLock(id);
      }
    }

    /** Gives every open future the same error and empties the table. */
    method FailOpenRequests(error: Error)
      modifies this
      ensures Now() == FailAll(old(Now()), error)
    {
      var start := requests;
      var k := 0;
      while k < |requests|
        invariant k <= |requests| == |start|
        invariant forall i :: 0 <= i < |start| ==>
          requests[i] == (if i < k && i in pending && start[i].reply.None? then start[i].(reply := Some(Failed(error))) else start[i])
        invariant Now() == old(Now()).(requests := requests)
      {
        if k in pending && requests[k].reply.None? {
          requests := requests[k := requests[k].(reply := Some(Failed(error)))];
        }
        k := k + 1;
      }
      pending := {};
      assert requests == FailAll(old(Now()), error).requests;
    }

    method RetireProcess()
      modifies this
      ensures Now() == Retire(old(Now()))
    {
      FailOpenRequests(Error(pending != {}, pending == {}));
      process := None;
      running := false;
    }

    method MissDrain(id: nat, discard: bool)
      modifies this
      ensures Now() == DrainTimesOut(old(Now()), id, discard)
    {
      if id >= |requests| || !requests[id].phase.Draining? {
        return;
      }
      ReleaseLock(id);
      if discard && process == Some(requests[id].process) {
        RetireProcess();
      }
      RaiseError(id, UNCERTAIN);
    }

    method ReadAnswer(id: nat, rejects: bool)
      modifies this
      ensures Now() == Answer(old(Now()), id, rejects)
    {
      if id >= |requests| || id !in pending || requests[id].reply.Some? {
        return;
      }
      if rejects {
        requests := requests[id := requests[id].(reply := Some(Failed(REJECTED)))];
        rejected := rejected + {id};
      } else {
        requests := requests[id := requests[id].(reply := Some(Value))];
      }
    }

    method ReadEnd(exited: bool)
      modifies this
      ensures Now() == ReaderEnds(old(Now()), exited)
    {
      if process.Some? {
        FailOpenRequests(Error(pending != {}, pending == {}));
        if exited {
          running := false;
        }
      }
    }

    method ReadWithoutStdout()
      modifies this
      ensures Now() == StdoutMissing(old(Now()))
    {
      if process.Some? {
        FailOpenRequests(NOT_DELIVERED);
      }
    }

    method TakeAnswer(id: nat)
      modifies this
      ensures Now() == Resume(old(Now()), id)
    {
      if id >= |requests| || !requests[id].phase.Awaiting? || requests[id].reply.None? {
        return;
      }
      match requests[id].reply.value
      case Value =>
        SetPhase(id, Returned);
        pending := pending - {id};
      case Failed(error) =>
        RaiseError(id, error);
    }

    method MissAnswer(id: nat)
      modifies this
      ensures Now() == AnswerTimesOut(old(Now()), id)
    {
      if id < |requests| && requests[id].phase.Awaiting? {
        RaiseError(id, UNCERTAIN);
      }
    }
  }
}
