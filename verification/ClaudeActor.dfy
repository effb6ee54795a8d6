/** The actor and its run handles as objects. */
module ClaudeActor {
  import opened Options
  import opened ClaudeActorModel

  class RunHandle {
    const run: string
    const correlation: nat
    const connection: nat
    var items: seq<Item>
    var acknowledged: bool
    var done: bool

    function Value(): Handle
      reads this
    {
      Handle(run, correlation, connection, items, acknowledged, done)
    }

    constructor (run: string, correlation: nat, connection: nat)
      ensures Value() == Handle(run, correlation, connection, [], false, false)
    {
      this.run, this.correlation, this.connection := run, correlation, connection;
      items, acknowledged, done := [], false, false;
    }

    method Deliver(frame: Frame)
      modifies this
      ensures Value() == old(Value()).Deliver(frame)
    {
      if !done {
        items := items + [Message(frame)];
      }
    }

    method Acknowledge(frame: Frame) returns (accepted: bool)
      modifies this
      ensures accepted == (!old(acknowledged) && Replays(frame, correlation))
      ensures Value() == old(Value()).(acknowledged := old(acknowledged) || accepted)
    {
      if acknowledged || !Replays(frame, correlation) {
        return false;
      }
      acknowledged := true;
      return true;
    }

    method Finish()
      modifies this
      ensures Value() == old(Value()).Finish()
    {
      if !done {
        done := true;
        items := items + [End];
      }
    }

    method Fail()
      modifies this
      ensures Value() == old(Value()).Fail()
    {
      if !done {
        done := true;
        items := items + [Failure];
        items := items + [End];
      }
    }
  }

  class Supervisor {
    var generation: nat
    var connected: bool
    var active: RunHandle?
    var inflight: set<string>
    var closed: bool

    function Now(): State
      reads this, active
    {
      State(generation, connected, if active == null then None else Some(active.Value()), inflight, closed)
    }

    constructor ()
      ensures Now() == IDLE
    {
      generation, connected, active, inflight, closed := 0, false, null, {}, false;
    }

    /** The handle a command ended, as the model reports it. */
    static function Report(ended: RunHandle?): Option<Handle>
      reads ended
    {
      if ended == null then None else Some(ended.Value())
    }

    method EnsureConnected()
      modifies this
      ensures active == old(active) && Now() == EnsureClient(old(Now()))
    {
      if !connected {
        generation := generation + 1;
        connected := true;
      }
    }

    method FailActiveRun() returns (ended: RunHandle?)
      modifies this, active
      ensures ended == old(active) && active == null
      ensures Effect(Now(), Report(ended)) == FailActive(old(Now()))
    {
      ended := active;
      active := null;
      inflight := {};
      if ended != null {
        ended.Fail();
      }
    }

    method StartRun(run: string, correlation: nat, facts: StartFacts) returns (ended: RunHandle?)
      modifies this
      ensures Effect(Now(), Report(ended)) == HandleStart(old(Now()), run, correlation, facts)
      ensures active == old(active) || active == null || fresh(active)
      ensures ended == null || fresh(ended)
    {
      if active != null && !active.done {
        return null;
      }
      active := null;
      if facts.hookPending {
        connected := false;
      }
      if !connected && !facts.connects {
        return null;
      }
      EnsureConnected();
      if !facts.generationExpected || facts.hookMissing {
        return null;
      }
      var handle := new RunHandle(run, correlation, generation);
      active := handle;
      if !facts.admitted {
        active := null;
        handle.Fail();
        return handle;
      }
      if !facts.delivered {
        active := null;
        handle.Fail();
        connected := false;
        return handle;
      }
      return null;
    }

    method InterruptRun(target: Option<string>, sent: bool) returns (ended: RunHandle?)
      modifies this, active
      ensures Effect(Now(), Report(ended)) == HandleInterrupt(old(Now()), target, sent)
      ensures ended == null || ended == old(active)
    {
      if active == null || active.done || (target.Some? && target.value != active.run) {
        return null;
      }
      if !connected || !sent || active.acknowledged {
        return null;
      }
      ended := FailActiveRun();
      connected := false;
    }

    method Receive(from: nat, frame: Frame) returns (ended: RunHandle?)
      modifies this, active
      ensures Effect(Now(), Report(ended)) == HandleReceived(old(Now()), from, frame)
      ensures ended == null || ended == old(active)
    {
      if from != generation || active == null || active.done {
        return null;
      }
      if !active.acknowledged {
        var accepted := active.Acknowledge(frame);
        return null;
      }
      if Replays(frame, active.correlation) {
        return null;
      }
      if frame.result {
        var hadTasks := inflight != {};
        if hadTasks && !frame.forced {
          return null;
        }
        ended := active;
        ended.Deliver(frame);
        ended.Finish();
        active := null;
        inflight := {};
        if hadTasks && frame.forced {
          connected := false;
        }
        return;
      }
      if frame.task != "" {
        if frame.event.TaskStarted? && frame.deferring {
          inflight := inflight + {frame.task};
        } else if frame.event.TaskNotified? {
          inflight := inflight - {frame.task};
        } else if frame.event.TaskUpdated? && frame.terminal {
          inflight := inflight - {frame.task};
        }
      }
      active.Deliver(frame);
      return null;
    }

    method StopReceiver(from: nat) returns (ended: RunHandle?)
      modifies this, active
      ensures Effect(Now(), Report(ended)) == HandleReceiverStopped(old(Now()), from)
      ensures ended == null || ended == old(active)
    {
      if from != generation {
        return null;
      }
      ended := FailActiveRun();
      connected := false;
    }

    method CloseActor() returns (ended: RunHandle?)
      modifies this, active
      ensures Effect(Now(), Report(ended)) == HandleClose(old(Now()))
      ensures ended == old(active)
    {
      ended := FailActiveRun();
      connected := false;
      closed := true;
    }

    /** One round of the actor loop. */
    method Consume(c: Command) returns (ended: RunHandle?)
      modifies this, active
      ensures Effect(Now(), Report(ended)) == Handled(old(Now()), c)
    {
      match c
      case Start(run, correlation, facts) => ended := StartRun(run, correlation, facts);
      case Interrupt(target, sent) => ended := InterruptRun(target, sent);
      case Received(from, frame) => ended := Receive(from, frame);
      case ReceiverStopped(from) => ended := StopReceiver(from);
      case AckTimeout(_) => ended := null;
      case Close => ended := CloseActor();
    }
  }
}
