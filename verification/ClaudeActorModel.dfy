/**
 The Claude SDK actor of one chat: one consumer of a command queue, one connection at a
 time, and the handle of the run that owns it.
 */
module ClaudeActorModel {
  import opened Options

  datatype TaskEvent = NoTask | TaskStarted | TaskNotified | TaskUpdated

  /** The fields of a stream message the actor looks at; `body` is everything else. */
  datatype Frame = Frame(
    replay: Option<nat>,
    result: bool,
    forced: bool,
    event: TaskEvent,
    task: string,
    deferring: bool,
    terminal: bool,
    body: nat)

  /** The exact-UUID acknowledgement of one query. */
  predicate Replays(f: Frame, correlation: nat) {
    f.replay == Some(correlation)
  }

  predicate Starts(f: Frame, task: string) {
    !f.result && task != "" && f.task == task && f.event.TaskStarted? && f.deferring
  }

  predicate Settles(f: Frame, task: string) {
    !f.result && task != "" && f.task == task && (f.event.TaskNotified? || (f.event.TaskUpdated? && f.terminal))
  }

  datatype Item = Message(frame: Frame) | Failure | End

  datatype Handle = Handle(run: string, correlation: nat, connection: nat, items: seq<Item>, acknowledged: bool, done: bool) {
    function Deliver(frame: Frame): Handle {
      if done then this else this.(items := items + [Message(frame)])
    }

    function Finish(): Handle {
      if done then this else this.(items := items + [End], done := true)
    }

    function Fail(): Handle {
      if done then this else this.(items := items + [Failure, End], done := true)
    }
  }

  datatype State = State(generation: nat, connected: bool, active: Option<Handle>, inflight: set<string>, closed: bool)

  const IDLE := State(0, false, None, {}, false)

  /** How the awaited parts of a start turn out. */
  datatype StartFacts = StartFacts(
    hookPending: bool,
    connects: bool,
    generationExpected: bool,
    hookMissing: bool,
    admitted: bool,
    delivered: bool)

  datatype Command =
    | Start(run: string, correlation: nat, facts: StartFacts)
    | Interrupt(target: Option<string>, sent: bool)
    | Received(generation: nat, frame: Frame)
    | ReceiverStopped(generation: nat)
    | AckTimeout(generation: nat)
    | Close

  /** The new state, and the handle that ended with this command. */
  datatype Effect = Effect(state: State, ended: Option<Handle>)

  function Disconnected(s: State): State {
    s.(connected := false)
  }

  function EnsureClient(s: State): State {
    if s.connected then s else s.(generation := s.generation + 1, connected := true)
  }

  /** `_fail_active`: the ledger of delegated tasks is emptied with the run. */
  function FailActive(s: State): Effect {
    Effect(s.(active := None, inflight := {}), if s.active.Some? then Some(s.active.value.Fail()) else None)
  }

  function HandleStart(s: State, run: string, correlation: nat, facts: StartFacts): Effect {
    if s.active.Some? && !s.active.value.done then Effect(s, None)
    else
      var ready := (if facts.hookPending then Disconnected(s) else s).(active := None);
      if !ready.connected && !facts.connects then Effect(ready, None)
      else
        var live := EnsureClient(ready);
        var handle := Handle(run, correlation, live.generation, [], false, false);
        if !facts.generationExpected || facts.hookMissing then Effect(live, None)
        else if !facts.admitted then Effect(live, Some(handle.Fail()))
        else if !facts.delivered then Effect(Disconnected(live), Some(handle.Fail()))
        else Effect(live.(active := Some(handle)), None)
  }

  function HandleInterrupt(s: State, target: Option<string>, sent: bool): Effect {
    if s.active.None? || s.active.value.done || (target.Some? && target.value != s.active.value.run) then Effect(s, None)
    else if !s.connected || !sent || s.active.value.acknowledged then Effect(s, None)
    else
      var failed := FailActive(s);
      Effect(Disconnected(failed.state), failed.ended)
  }

  function Ledger(inflight: set<string>, f: Frame): set<string> {
    if f.task == "" then inflight
    else if f.event.TaskStarted? && f.deferring then inflight + {f.task}
    else if f.event.TaskNotified? || (f.event.TaskUpdated? && f.terminal) then inflight - {f.task}
    else inflight
  }

  function HandleReceived(s: State, generation: nat, f: Frame): Effect {
    if generation != s.generation || s.active.None? || s.active.value.done then Effect(s, None)
    else
      var active := s.active.value;
      if !active.acknowledged then
        Effect(s.(active := Some(active.(acknowledged := Replays(f, active.correlation)))), None)
      else if Replays(f, active.correlation) then Effect(s, None)
      else if f.result then
        if s.inflight != {} && !f.forced then Effect(s, None)
        else
          var idle := s.(active := None, inflight := {});
          Effect(if s.inflight != {} && f.forced then Disconnected(idle) else idle,
                 Some(active.Deliver(f).Finish()))
      else Effect(s.(active := Some(active.Deliver(f)), inflight := Ledger(s.inflight, f)), None)
  }

  function HandleReceiverStopped(s: State, generation: nat): Effect {
    if generation != s.generation then Effect(s, None)
    else
      var failed := FailActive(s);
      Effect(Disconnected(failed.state), failed.ended)
  }

  function HandleClose(s: State): Effect {
    var failed := FailActive(s);
    Effect(Disconnected(failed.state).(closed := true), failed.ended)
  }

  function Handled(s: State, c: Command): Effect {
    match c
    case Start(run, correlation, facts) => HandleStart(s, run, correlation, facts)
    case Interrupt(target, sent) => HandleInterrupt(s, target, sent)
    case Received(generation, frame) => HandleReceived(s, generation, frame)
    case ReceiverStopped(generation) => HandleReceiverStopped(s, generation)
    case AckTimeout(_) => Effect(s, None)
    case Close => HandleClose(s)
  }
}
