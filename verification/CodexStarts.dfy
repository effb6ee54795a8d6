/** Starting turns over the wire: what a failed start may conclude about its thread. */
module CodexStarts {
  import opened Options
  import opened CodexTurnModel
  import Turns = CodexTurnRuns
  import Wire = CodexDeliveryRuns
  import opened CodexDeliveryModel

  /** `sent` is the request a turn's last start or continuation went out as; `open` says whether its subscription
      is; `accepted` and `freed` are requests the provider has accepted, and starts whose failure gave up the thread. */
  datatype Joint = Joint(
    client: Turns.Client, wire: Transport, sent: seq<nat>, open: seq<bool>, accepted: set<nat>, freed: set<nat>)

  datatype Event =
    | Start(thread: string, retain: bool)
    | Continue(turn: nat)
    | OnWire(event: Wire.Event)
    | Accept(turn: nat, id: TurnId)
    | Begins(id: TurnId)
    | Conclude(turn: nat)
    | Notify(thread: string, notice: Notice, id: TurnId)
    | Adopt(turn: nat, id: TurnId)
    | Release(turn: nat)

  const IDLE := Joint(Turns.FRESH, CodexDeliveryModel.FRESH, [], [], {}, {})

  predicate Matched(j: Joint) {
    |j.sent| == |j.open| == |j.client.turns| == |j.client.requests|
  }

  predicate Begun(j: Joint, turn: nat) {
    Matched(j) && turn < |j.sent| && j.sent[turn] < |j.wire.requests|
  }

  predicate Owns(j: Joint, turn: nat) {
    Turns.Owns(j.client, turn)
  }

  /** The registered handle and its subscription go together. */
  function WithClosed(j: Joint, turn: nat): Joint
    requires turn < |j.open|
  {
    j.(open := j.open[turn := false])
  }

  // ---------- the wire ----------

  /** The process is gone: every handle is dropped and every subscription ended. */
  predicate LosesTransport(t: Transport, e: Wire.Event) {
    match e
    case DoRetire => true
    case DoReaderEnds(_) | DoStdoutMissing => t.process.Some?
    case DoDrainTimeout(id, discard) => In(t, id, Draining) && discard && t.process == Some(t.requests[id].process)
    case _ => false
  }

  /** The provider does not answer a request it has accepted with an error. */
  predicate Possible(j: Joint, e: Wire.Event) {
    e.DoAnswer? && e.rejects ==> e.id !in j.accepted
  }

  function OverWire(j: Joint, e: Wire.Event): Joint {
    if !Possible(j, e) then j
    else
      var next := j.(wire := Wire.Happen(j.wire, e));
      if LosesTransport(j.wire, e)
      then next.(client := Turns.Happen(j.client, Turns.LoseTransport), open := seq(|j.open|, _ => false))
      else next
  }

  // ---------- a turn's request ----------

  function Started(j: Joint, thread: string, retain: bool): Joint {
    if !Matched(j) || thread in j.client.registered then j
    else j.(client := Turns.Happen(j.client, Turns.StartTurn(thread, retain)), wire := Begin(j.wire),
            sent := j.sent + [|j.wire.requests|], open := j.open + [true])
  }

  function Continued(j: Joint, turn: nat): Joint {
    if !Matched(j) || turn >= |j.sent| || j.client.requests[turn].Some? || !MayContinue(j.client.turns[turn], Owns(j, turn)) then j
    else j.(client := Turns.Happen(j.client, Turns.Continue(turn)), wire := Begin(j.wire), sent := j.sent[turn := |j.wire.requests|])
  }

  /** Whether or not the caller is still waiting: a request that was written and not rejected may be accepted. */
  function AcceptedBy(j: Joint, turn: nat, id: TurnId): Joint {
    if !Begun(j, turn) || j.sent[turn] !in j.wire.written || j.sent[turn] in j.wire.rejected then j
    else j.(client := Turns.Happen(j.client, Turns.ProviderAccepts(turn, id)), accepted := j.accepted + {j.sent[turn]})
  }

  predicate IsStart(j: Joint, turn: nat) {
    Begun(j, turn) && j.client.requests[turn].Some? && j.client.requests[turn].value.from.None?
  }

  /** The error handling of `start_turn`; a failed continuation touches neither handle nor subscription. */
  function Ended(j: Joint, turn: nat, safe: bool): Joint
    requires Begun(j, turn)
  {
    var next := j.(client := Turns.Happen(j.client, Turns.Fail(turn, safe)));
    if !IsStart(j, turn) then next
    else
      var finished := if safe || !Owns(j, turn) then WithClosed(next, turn) else next;
      if safe then finished.(freed := j.freed + {j.sent[turn]}) else finished
  }

  function Verdict(j: Joint, turn: nat): Option<bool>
    requires Begun(j, turn)
  {
    match j.wire.requests[j.sent[turn]].phase
    case Raised(error) => Some(error.safe)
    case Returned => if j.client.requests[turn].Some? && j.client.requests[turn].value.accepted.Some? then None else Some(false)
    case _ => None
  }

  /** The answer names no turn, or one the handle cannot stand for. */
  predicate AnswerFails(j: Joint, turn: nat)
    requires Begun(j, turn)
  {
    && IsStart(j, turn) && j.client.requests[turn].value.accepted.Some?
    && StartAnswered(j.client.turns[turn], j.client.requests[turn].value.accepted.value, Owns(j, turn)).Ambiguous?
  }

  /** The caller of the turn's request sees how it ended, once it has. */
  function Concluded(j: Joint, turn: nat): Joint {
    if !Begun(j, turn) || j.client.requests[turn].None? then j
    else
      var verdict := Verdict(j, turn);
      if verdict.Some? then Ended(j, turn, verdict.value)
      else if !j.wire.requests[j.sent[turn]].phase.Returned? then j
      else
        var next := j.(client := Turns.Happen(j.client, Turns.Answer(turn)));
        if AnswerFails(j, turn) && !Owns(j, turn) then WithClosed(next, turn) else next
  }

  function Notified(j: Joint, thread: string, notice: Notice, id: TurnId): Joint {
    var next := j.(client := Turns.Happen(j.client, Turns.Notify(thread, notice, id)));
    if Matched(j) && thread in j.client.registered && j.client.registered[thread] < |j.open|
       && thread !in next.client.registered
    then WithClosed(next, j.client.registered[thread]) else next
  }

  function Happen(j: Joint, e: Event): Joint {
    match e
    case Start(thread, retain) => Started(j, thread, retain)
    case Continue(turn) => Continued(j, turn)
    case OnWire(event) => OverWire(j, event)
    case Accept(turn, id) => AcceptedBy(j, turn, id)
    case Begins(id) => j.(client := Turns.Happen(j.client, Turns.ProviderBegins(id)))
    case Conclude(turn) => Concluded(j, turn)
    case Notify(thread, notice, id) => Notified(j, thread, notice, id)
    case Adopt(turn, id) => j.(client := Turns.Happen(j.client, Turns.Adopt(turn, id)))
    case Release(turn) =>
      if Matched(j) && turn < |j.open| then WithClosed(j.(client := Turns.Happen(j.client, Turns.Close(turn))), turn) else j
  }

  function Run(j: Joint, events: seq<Event>): Joint
    decreases |events|
  {
    if events == [] then j else Run(Happen(j, events[0]), events[1..])
  }

  predicate KeepsStdout(events: seq<Event>) {
    forall i :: 0 <= i < |events| ==> events[i] != OnWire(Wire.DoStdoutMissing)
  }

  // ---------- what the wire keeps ----------

  /** Requests are never forgotten; an error, once raised, stays; and only an answer rejects. */
  ghost predicate Lasts(t: Transport, next: Transport) {
    && |t.requests| <= |next.requests|
    && t.written <= next.written && t.rejected <= next.rejected
    && (forall id :: 0 <= id < |t.requests| && t.requests[id].phase.Raised? ==> next.requests[id].phase == t.requests[id].phase)
  }

  lemma WireLasts(t: Transport, e: Wire.Event)
    ensures Lasts(t, Wire.Happen(t, e))
    ensures Wire.Happen(t, e).rejected <= t.rejected + if e.DoAnswer? && e.rejects then {e.id} else {}
  {
  }

  // ---------- the invariant ----------

  ghost predicate Honest(j: Joint) {
    && Wire.Inv(j.wire)
    && j.accepted <= j.wire.written && j.accepted !! j.wire.rejected
    && (forall id :: id in j.freed ==>
          id < |j.wire.requests| && j.wire.requests[id].phase.Raised? && j.wire.requests[id].phase.error.safe)
  }

  ghost predicate Paired(j: Joint) {
    && Matched(j) && Turns.Inv(j.client)
    && (forall turn :: 0 <= turn < |j.sent| ==> j.sent[turn] < |j.wire.requests|)
  }

  lemma HonestLasts(j: Joint, e: Wire.Event)
    requires Honest(j) && Possible(j, e) && !e.DoStdoutMissing?
    ensures Honest(j.(wire := Wire.Happen(j.wire, e)))
    ensures Lasts(j.wire, Wire.Happen(j.wire, e))
  {
    WireLasts(j.wire, e);
    Wire.EventKeepsInv(j.wire, e);
  }

  lemma ClientStep(j: Joint, e: Turns.Event)
    requires Paired(j) && !e.StartTurn?
    ensures Turns.Inv(Turns.Happen(j.client, e))
    ensures |Turns.Happen(j.client, e).turns| == |j.client.turns|
  {
    Turns.EventKeepsInv(j.client, e);
  }

  lemma StartKeeps(j: Joint, thread: string, retain: bool)
    requires Honest(j) && Paired(j)
    ensures Honest(Started(j, thread, retain)) && Paired(Started(j, thread, retain))
  {
    Turns.EventKeepsInv(j.client, Turns.StartTurn(thread, retain));
    HonestLasts(j, Wire.DoBegin);
  }

  lemma ContinueKeeps(j: Joint, turn: nat)
    requires Honest(j) && Paired(j)
    ensures Honest(Continued(j, turn)) && Paired(Continued(j, turn))
  {
    ClientStep(j, Turns.Continue(turn));
    HonestLasts(j, Wire.DoBegin);
  }

  lemma WireKeeps(j: Joint, e: Wire.Event)
    requires Honest(j) && Paired(j) && !e.DoStdoutMissing?
    ensures Honest(OverWire(j, e)) && Paired(OverWire(j, e))
  {
    ClientStep(j, Turns.LoseTransport);
    if Possible(j, e) {
      HonestLasts(j, e);
    }
  }

  lemma ConcludeKeeps(j: Joint, turn: nat)
    requires Honest(j) && Paired(j)
    ensures Honest(Concluded(j, turn)) && Paired(Concluded(j, turn))
  {
    ClientStep(j, Turns.Answer(turn));
    ClientStep(j, Turns.Fail(turn, true));
    ClientStep(j, Turns.Fail(turn, false));
  }

  lemma StepKeeps(j: Joint, e: Event)
    requires Honest(j) && Paired(j) && e != OnWire(Wire.DoStdoutMissing)
    ensures Honest(Happen(j, e)) && Paired(Happen(j, e))
  {
    match e
    case Start(thread, retain) => StartKeeps(j, thread, retain);
    case Continue(turn) => ContinueKeeps(j, turn);
    case OnWire(event) => WireKeeps(j, event);
    case Accept(turn, id) => ClientStep(j, Turns.ProviderAccepts(turn, id));
    case Begins(id) => ClientStep(j, Turns.ProviderBegins(id));
    case Conclude(turn) => ConcludeKeeps(j, turn);
    case Notify(thread, notice, id) => ClientStep(j, Turns.Notify(thread, notice, id));
    case Adopt(turn, id) => ClientStep(j, Turns.Adopt(turn, id));
    case Release(turn) => ClientStep(j, Turns.Close(turn));
  }

  lemma {:induction false} RunKeeps(j: Joint, events: seq<Event>)
    requires Honest(j) && Paired(j) && KeepsStdout(events)
    ensures Honest(Run(j, events)) && Paired(Run(j, events))
    decreases |events|
  {
    if events != [] {
      StepKeeps(j, events[0]);
      RunKeeps(Happen(j, events[0]), events[1..]);
    }
  }

  // ---------- the guarantees ----------

  lemma Reachable(events: seq<Event>)
    requires KeepsStdout(events)
    ensures Honest(Run(IDLE, events)) && Paired(Run(IDLE, events))
  {
    assert Wire.Inv(CodexDeliveryModel.FRESH) && Turns.Inv(Turns.FRESH);
    RunKeeps(IDLE, events);
  }

  /** Over every interleaving of callers, wire and provider: a start whose failure gave up its thread is one the
      provider has not accepted, and never will. */
  lemma FreedStartsAreNeverAccepted(events: seq<Event>, id: nat)
    requires KeepsStdout(events)
    ensures var j := Run(IDLE, events); !(id in j.freed && id in j.accepted)
  {
    Reachable(events);
    assert Wire.RequestHonest(Run(IDLE, events).wire, id);
  }

  /** What the end of a failed start does in any reachable state: the thread is given up, and the subscription ended,
      exactly when the error is safe to retry; and then no byte was written or the server rejected the request.  An
      ambiguous failure leaves a handle that is still registered, and its subscription, as they were. */
  lemma FailedStart(events: seq<Event>, turn: nat)
    requires KeepsStdout(events)
    requires var j := Run(IDLE, events);
      IsStart(j, turn) && Owns(j, turn) && Verdict(j, turn).Some?
    ensures var j := Run(IDLE, events);
      var next := Happen(j, Conclude(turn));
      var safe := Verdict(j, turn).value;
      && (Owns(next, turn) <==> !safe)
      && (safe ==> Wire.Harmless(j.wire, j.sent[turn]) && j.sent[turn] !in j.accepted && !next.open[turn])
      && (!safe ==> next.open == j.open && next.client.turns == j.client.turns && next.client.registered == j.client.registered)
      && (j.sent[turn] in j.accepted ==> Owns(next, turn))
  {
    Reachable(events);
    var j := Run(IDLE, events);
    assert Wire.RequestHonest(j.wire, j.sent[turn]);
  }

  lemma ClientKeepsOwner(c: Turns.Client, e: Turns.Event, turn: nat)
    requires Turns.Inv(c) && Turns.Owns(c, turn)
    requires !e.Notify? && !e.Close? && !e.LoseTransport?
    requires e.Fail? && e.safe && e.turn == turn && c.requests[turn].Some? ==> c.requests[turn].value.from.Some?
    ensures Turns.Owns(Turns.Happen(c, e), turn)
  {
    if e.Fail? && e.turn != turn && Turns.Owns(c, e.turn) {
      assert c.turns[e.turn].thread != c.turns[turn].thread;
    }
  }

  lemma ConcludeKeepsOwner(j: Joint, ended: nat, turn: nat)
    requires Honest(j) && Paired(j) && Owns(j, turn) && j.sent[turn] in j.accepted
    ensures Owns(Concluded(j, ended), turn)
  {
    if Begun(j, ended) && j.client.requests[ended].Some? {
      assert Wire.RequestHonest(j.wire, j.sent[ended]);
      var verdict := Verdict(j, ended);
      assert ended == turn && verdict.Some? ==> !verdict.value;
      if verdict.Some? {
        ClientKeepsOwner(j.client, Turns.Fail(ended, verdict.value), turn);
      } else {
        ClientKeepsOwner(j.client, Turns.Answer(ended), turn);
      }
    }
  }

  /** An accepted turn loses its thread only when the provider ends it, its handle is released, or the process goes. */
  lemma AcceptedStartKeepsItsThread(events: seq<Event>, e: Event, turn: nat)
    requires KeepsStdout(events) && e != OnWire(Wire.DoStdoutMissing)
    requires var j := Run(IDLE, events);
      Owns(j, turn) && Begun(j, turn) && j.sent[turn] in j.accepted
    ensures !Owns(Happen(Run(IDLE, events), e), turn) ==>
      e.Notify? || e.Release? || (e.OnWire? && LosesTransport(Run(IDLE, events).wire, e.event))
  {
    Reachable(events);
    var j := Run(IDLE, events);
    match e
    case Start(thread, retain) => ClientKeepsOwner(j.client, Turns.StartTurn(thread, retain), turn);
    case Continue(other) => ClientKeepsOwner(j.client, Turns.Continue(other), turn);
    case OnWire(_) =>
    case Accept(other, id) => ClientKeepsOwner(j.client, Turns.ProviderAccepts(other, id), turn);
    case Begins(id) => ClientKeepsOwner(j.client, Turns.ProviderBegins(id), turn);
    case Conclude(other) => ConcludeKeepsOwner(j, other, turn);
    case Notify(_, _, _) =>
    case Adopt(other, id) => ClientKeepsOwner(j.client, Turns.Adopt(other, id), turn);
    case Release(_) =>
  }
}
