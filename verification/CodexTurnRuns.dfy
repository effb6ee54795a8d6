/** Turn identity over every ordering of answers and notifications. */
module CodexTurnRuns {
  import opened Options
  import opened CodexTurnModel

  /** A request of a handle that has been sent: what it was sent for, the ids the provider had
      used by then, and the id it was accepted under, once it was. */
  datatype Request = Request(from: Option<TurnId>, used: set<TurnId>, accepted: Option<TurnId>)

  /** `registered` maps a thread to the index of its handle; `used` are the provider's ids. */
  datatype Client = Client(
    turns: seq<Turn>,
    requests: seq<Option<Request>>,
    registered: map<string, nat>,
    used: set<TurnId>)

  datatype Event =
    | StartTurn(thread: string, retain: bool)
    | Continue(turn: nat)
    | ProviderAccepts(turn: nat, id: TurnId)
    | ProviderBegins(id: TurnId)
    | Answer(turn: nat)
    | Fail(turn: nat, safe: bool)
    | Notify(thread: string, notice: Notice, id: TurnId)
    | Adopt(turn: nat, id: TurnId)
    | Close(turn: nat)
    | LoseTransport

  const FRESH := Client([], [], map[], {})

  predicate Owns(c: Client, turn: nat) {
    turn < |c.turns| && c.turns[turn].thread in c.registered && c.registered[c.turns[turn].thread] == turn
  }

  /** `release_turn`: only the handle that is registered gives up its thread. */
  function Release(c: Client, turn: nat): Client
    requires turn < |c.turns|
  {
    if Owns(c, turn) then c.(registered := c.registered - {c.turns[turn].thread}) else c
  }

  function Settle(c: Client, turn: nat, verdict: Verdict): Client
    requires turn < |c.turns| == |c.requests|
  {
    var done := c.(requests := c.requests[turn := None]);
    if verdict.Ambiguous? then done else done.(turns := c.turns[turn := verdict.turn])
  }

  function Answered(c: Client, turn: nat): Client
    requires turn < |c.turns| == |c.requests|
  {
    if c.requests[turn].None? || c.requests[turn].value.accepted.None? then c
    else
      var r := c.requests[turn].value;
      var t := c.turns[turn];
      var id := r.accepted.value;
      Settle(c, turn, match r.from
        case None => StartAnswered(t, id, Owns(c, turn))
        case Some(from) => ContinuationAnswered(t, from, id, Owns(c, turn)))
  }

  /** `start_turn`'s error handling: a safe error frees the thread, an ambiguous one leaves a
      handle that is still registered alone.  A continuation never gives up its handle. */
  function Failed(c: Client, turn: nat, safe: bool): Client
    requires turn < |c.turns| == |c.requests|
  {
    if c.requests[turn].None? then c
    else
      var done := c.(requests := c.requests[turn := None]);
      if c.requests[turn].value.from.None? && safe then Release(done, turn) else done
  }

  function Notified(c: Client, thread: string, notice: Notice, id: TurnId): Client {
    if thread !in c.registered || c.registered[thread] >= |c.turns| then c
    else
      var turn := c.registered[thread];
      var t := c.turns[turn];
      c.(turns := c.turns[turn := Routed(t, notice, id)],
         registered := if Drops(t, notice, id) then c.registered - {thread} else c.registered)
  }

  /** An event that the state or the provider's rules do not allow leaves the client as it is.
      The provider never uses an id twice, and only speaks about turns it has. */
  function Happen(c: Client, e: Event): Client {
    if |c.requests| != |c.turns| then c
    else
      match e
      case StartTurn(thread, retain) =>
        if thread in c.registered then c
        else c.(turns := c.turns + [Provisional(thread, retain)],
                requests := c.requests + [Some(Request(None, c.used, None))],
                registered := c.registered[thread := |c.turns|])
      case Continue(turn) =>
        if turn < |c.turns| && c.requests[turn].None? && MayContinue(c.turns[turn], Owns(c, turn))
        then c.(requests := c.requests[turn := Some(Request(Some(c.turns[turn].id), c.used, None))])
        else c
      case ProviderAccepts(turn, id) =>
        if turn < |c.turns| && c.requests[turn].Some? && c.requests[turn].value.accepted.None? && id != "" && id !in c.used
        then c.(requests := c.requests[turn := Some(c.requests[turn].value.(accepted := Some(id)))], used := c.used + {id})
        else c
      case ProviderBegins(id) => if id != "" && id !in c.used then c.(used := c.used + {id}) else c
      case Answer(turn) => if turn < |c.turns| then Answered(c, turn) else c
      case Fail(turn, safe) => if turn < |c.turns| then Failed(c, turn, safe) else c
      case Notify(thread, notice, id) => if id == "" || id in c.used then Notified(c, thread, notice, id) else c
      case Adopt(turn, id) =>
        if turn < |c.turns| && id in c.used then c.(turns := c.turns[turn := Adopted(c.turns[turn], id)]) else c
      case Close(turn) =>
        if turn < |c.turns| then Release(c, turn).(turns := c.turns[turn := c.turns[turn].(closed := true)]) else c
      case LoseTransport => c.(registered := map[])
  }

  function Run(c: Client, events: seq<Event>): Client
    decreases |events|
  {
    if events == [] then c else Run(Happen(c, events[0]), events[1..])
  }

  // ---------- the invariant ----------

  /** A handle that is not completed does not stand for one of its own finished turns. */
  predicate NotRevived(t: Turn) {
    t.completed || t.id !in t.completedIds
  }

  ghost predicate TurnOk(c: Client, turn: nat) {
    turn < |c.turns| ==>
      var t := c.turns[turn];
      && NotRevived(t)
      && (t.id == "" ==> t.completedIds == {})
      && "" !in t.completedIds
      && t.completedIds <= c.used
  }

  /** While the handle still stands for the turn it wants to continue, nothing the provider
      accepted afterwards can have finished on it. */
  ghost predicate RequestOk(c: Client, turn: nat) {
    turn < |c.turns| && turn < |c.requests| && c.requests[turn].Some? ==>
      var t, r := c.turns[turn], c.requests[turn].value;
      && r.used <= c.used
      && (r.accepted.Some? ==> r.accepted.value !in r.used && r.accepted.value != "")
      && (r.from.Some? ==>
            && r.from.value in t.completedIds
            && (t.id == r.from.value ==> t.completedIds <= r.used))
  }

  ghost predicate RegistryOk(c: Client) {
    forall thread :: thread in c.registered ==>
      c.registered[thread] < |c.turns| && c.turns[c.registered[thread]].thread == thread
  }

  ghost predicate Inv(c: Client) {
    && |c.requests| == |c.turns|
    && (forall turn :: TurnOk(c, turn))
    && (forall turn :: RequestOk(c, turn))
    && RegistryOk(c)
  }

  lemma RoutingKeepsIdentity(t: Turn, notice: Notice, id: TurnId)
    requires NotRevived(t) && (t.id == "" ==> t.completedIds == {}) && "" !in t.completedIds
    ensures var r := Routed(t, notice, id);
      && NotRevived(r)
      && (r.id == "" ==> r.completedIds == {})
      && r.completedIds <= t.completedIds + {id} && "" !in r.completedIds
      && t.completedIds <= r.completedIds
      && (r.id == t.id || t.id == "" || (notice.TurnStarted? && r.id == id && id !in t.completedIds))
      && (t.id in t.completedIds && r.id == t.id ==> r.completedIds == t.completedIds)
      && r.thread == t.thread
  {
  }

  lemma OneTurnChanges(c: Client, next: Client, turn: nat)
    requires Inv(c) && turn < |c.turns|
    requires |next.requests| == |next.turns| == |c.turns| && c.used <= next.used
    requires forall i :: 0 <= i < |c.turns| && i != turn ==> next.turns[i] == c.turns[i] && next.requests[i] == c.requests[i]
    requires next.turns[turn].thread == c.turns[turn].thread
    requires forall thread :: thread in next.registered ==> thread in c.registered && next.registered[thread] == c.registered[thread]
    requires TurnOk(next, turn) && RequestOk(next, turn)
    ensures Inv(next)
  {
    forall i: nat ensures TurnOk(next, i) {
      assert TurnOk(c, i);
    }
    forall i: nat ensures RequestOk(next, i) {
      assert RequestOk(c, i);
    }
  }

  lemma NotifyKeepsInv(c: Client, thread: string, notice: Notice, id: TurnId)
    requires Inv(c) && (id == "" || id in c.used)
    ensures Inv(Notified(c, thread, notice, id))
  {
    if thread in c.registered {
      var turn := c.registered[thread];
      assert TurnOk(c, turn) && RequestOk(c, turn);
      RoutingKeepsIdentity(c.turns[turn], notice, id);
      OneTurnChanges(c, Notified(c, thread, notice, id), turn);
    }
  }

  lemma AnswerKeepsInv(c: Client, turn: nat)
    requires Inv(c) && turn < |c.turns|
    ensures Inv(Answered(c, turn))
  {
    assert TurnOk(c, turn) && RequestOk(c, turn);
    var next := Answered(c, turn);
    OneTurnChanges(c, next, turn);
  }

  lemma StartKeepsInv(c: Client, thread: string, retain: bool)
    requires Inv(c)
    ensures Inv(Happen(c, StartTurn(thread, retain)))
  {
    var next := Happen(c, StartTurn(thread, retain));
    forall i: nat ensures TurnOk(next, i) {
      assert TurnOk(c, i);
    }
    forall i: nat ensures RequestOk(next, i) {
      assert RequestOk(c, i);
    }
  }

  lemma EventKeepsInv(c: Client, e: Event)
    requires Inv(c)
    ensures Inv(Happen(c, e))
  {
    match e
    case StartTurn(thread, retain) => StartKeepsInv(c, thread, retain);
    case Notify(thread, notice, id) =>
      if id == "" || id in c.used {
        NotifyKeepsInv(c, thread, notice, id);
      }
    case Answer(turn) =>
      if turn < |c.turns| {
        AnswerKeepsInv(c, turn);
      }
    case ProviderBegins(id) =>
      forall i: nat ensures TurnOk(Happen(c, e), i) && RequestOk(Happen(c, e), i) {
        assert TurnOk(c, i) && RequestOk(c, i);
      }
    case LoseTransport =>
      forall i: nat ensures TurnOk(Happen(c, e), i) && RequestOk(Happen(c, e), i) {
        assert TurnOk(c, i) && RequestOk(c, i);
      }
    case Continue(turn) => OneTurnEvent(c, e, turn);
    case ProviderAccepts(turn, _) => OneTurnEvent(c, e, turn);
    case Fail(turn, _) => OneTurnEvent(c, e, turn);
    case Adopt(turn, _) => OneTurnEvent(c, e, turn);
    case Close(turn) => OneTurnEvent(c, e, turn);
  }

  lemma OneTurnEvent(c: Client, e: Event, turn: nat)
    requires Inv(c)
    requires e.Continue? || e.ProviderAccepts? || e.Fail? || e.Adopt? || e.Close?
    requires turn == e.turn
    ensures Inv(Happen(c, e))
  {
    if turn < |c.turns| {
      assert TurnOk(c, turn) && RequestOk(c, turn);
      OneTurnChanges(c, Happen(c, e), turn);
    }
  }

  lemma HandlesKeepTheirThread(c: Client, e: Event)
    ensures |c.turns| <= |Happen(c, e).turns|
    ensures forall i :: 0 <= i < |c.turns| ==> Happen(c, e).turns[i].thread == c.turns[i].thread
  {
  }

  lemma {:induction false} RunKeepsInv(c: Client, events: seq<Event>)
    requires Inv(c)
    ensures Inv(Run(c, events))
    ensures |c.turns| <= |Run(c, events).turns|
    ensures forall i :: 0 <= i < |c.turns| ==> Run(c, events).turns[i].thread == c.turns[i].thread
    decreases |events|
  {
    if events != [] {
      EventKeepsInv(c, events[0]);
      HandlesKeepTheirThread(c, events[0]);
      RunKeepsInv(Happen(c, events[0]), events[1..]);
    }
  }

  // ---------- the guarantees ----------

  /** Turn identity.  In every reachable client, a handle that is not completed carries none of
      its own finished ids, and a thread has at most one handle, which is a handle of that thread. */
  lemma TurnIdentity(events: seq<Event>, turn: nat, thread: string)
    ensures var c := Run(FRESH, events);
      && (turn < |c.turns| && !c.turns[turn].completed ==> c.turns[turn].id !in c.turns[turn].completedIds)
      && (thread in c.registered ==>
            && c.registered[thread] < |c.turns|
            && c.turns[c.registered[thread]].thread == thread
            && Owns(c, c.registered[thread]))
  {
    RunKeepsInv(FRESH, events);
    assert TurnOk(Run(FRESH, events), turn);
  }

  /** An acknowledged continuation leaves the handle standing for the accepted turn, or for a
      later one when the accepted turn has already finished on it. */
  lemma ContinuationIsAccountedFor(events: seq<Event>, turn: nat)
    requires var c := Run(FRESH, events);
      && turn < |c.turns| && |c.requests| == |c.turns|
      && c.requests[turn].Some? && c.requests[turn].value.accepted.Some? && c.requests[turn].value.from.Some?
    ensures var c := Run(FRESH, events);
      var r := c.requests[turn].value;
      var verdict := ContinuationAnswered(c.turns[turn], r.from.value, r.accepted.value, Owns(c, turn));
      verdict.Accepted? ==>
        && NotRevived(verdict.turn)
        && (verdict.turn.id == r.accepted.value || r.accepted.value in verdict.turn.completedIds)
        && (c.turns[turn].id == r.from.value ==> verdict.turn.id == r.accepted.value && !verdict.turn.completed)
  {
    RunKeepsInv(FRESH, events);
    assert TurnOk(Run(FRESH, events), turn) && RequestOk(Run(FRESH, events), turn);
  }

  /** Releasing a handle that was superseded leaves its successor in place. */
  lemma StaleReleaseKeepsSuccessor(events: seq<Event>, stale: nat, current: nat)
    requires var c := Run(FRESH, events); stale < |c.turns| && Owns(c, current) && stale != current
    ensures var c := Run(FRESH, events);
      && Owns(Release(c, stale), current)
      && Owns(Happen(c, Close(stale)), current)
      && Owns(Happen(c, Fail(stale, true)), current)
  {
    RunKeepsInv(FRESH, events);
    var c := Run(FRESH, events);
    if Owns(c, stale) {
      assert c.turns[stale].thread != c.turns[current].thread;
    }
  }
}
