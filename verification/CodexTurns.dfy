/** The client's turn handles as objects. */
module CodexTurns {
  import opened Options
  import opened CodexTurnModel

  class TurnHandle {
    const thread: string
    const retain: bool
    var id: TurnId
    var completed: bool
    var closed: bool
    var completedIds: set<TurnId>
    /** Whether the handle's subscription still listens. */
    var listening: bool

    function Value(): Turn
      reads this
    {
      Turn(thread, id, completed, closed, retain, completedIds)
    }

    constructor (thread: string, retain: bool)
      ensures Value() == Provisional(thread, retain) && listening
    {
      this.thread, this.retain := thread, retain;
      id, completed, closed, completedIds, listening := "", false, false, {}, true;
    }

    method AdoptTurnId(resolved: TurnId) returns (adopted: bool)
      modifies this`id
      ensures adopted == (resolved != "" && (old(id) == "" || old(id) == resolved))
      ensures Value() == Adopted(old(Value()), resolved)
    {
      if resolved == "" || (id != "" && id != resolved) {
        return false;
      }
      id := resolved;
      return true;
    }

    /** Behind the response of `turn/start`. */
    method TakeStartAnswer(answer: TurnId, current: bool) returns (accepted: bool)
      modifies this`id
      ensures var verdict := StartAnswered(old(Value()), answer, current);
        accepted == verdict.Accepted? && Value() == (if accepted then verdict.turn else old(Value()))
    {
      if answer == "" {
        return false;
      }
      if id != "" && id != answer {
        return retain && answer in completedIds && current && !closed;
      }
      id := answer;
      return true;
    }

    /** Behind the response of a continuation that was sent for the finished turn `from`. */
    method TakeContinuationAnswer(from: TurnId, answer: TurnId, current: bool) returns (accepted: bool)
      modifies this`id, this`completed
      ensures var verdict := ContinuationAnswered(old(Value()), from, answer, current);
        accepted == verdict.Accepted? && Value() == (if accepted then verdict.turn else old(Value()))
    {
      if answer == "" || answer == from || closed || !current {
        return false;
      }
      if id == from {
        id := answer;
        completed := false;
      } else if id != answer && answer !in completedIds {
        return false;
      }
      return true;
    }
  }

  class Registry {
    var turns: map<string, TurnHandle>

    constructor ()
      ensures turns == map[]
    {
      turns := map[];
    }

    /** Registers a provisional handle before `turn/start` is sent. */
    method Provide(thread: string, retain: bool) returns (handle: TurnHandle?)
      modifies this
      ensures thread in old(turns) ==> handle == null && turns == old(turns)
      ensures thread !in old(turns) ==>
        && handle != null && fresh(handle) && handle.Value() == Provisional(thread, retain) && handle.listening
        && turns == old(turns)[thread := handle]
    {
      if thread in turns {
        return null;
      }
      handle := new TurnHandle(thread, retain);
      turns := turns[thread := handle];
    }

    method ReleaseTurn(handle: TurnHandle)
      modifies this, handle`listening
      ensures !handle.listening
      ensures turns ==
        if handle.thread in old(turns) && old(turns)[handle.thread] == handle then old(turns) - {handle.thread} else old(turns)
    {
      if handle.thread in turns && turns[handle.thread] == handle {
        turns := turns - {handle.thread};
      }
      handle.listening := false;
    }

    /** The error handling of `start_turn`. */
    method StartFailed(handle: TurnHandle, safe: bool)
      modifies this, handle`listening
      ensures var registered := handle.thread in old(turns) && old(turns)[handle.thread] == handle;
        handle.listening == (old(handle.listening) && !safe && registered)
      ensures turns ==
        if safe && handle.thread in old(turns) && old(turns)[handle.thread] == handle then old(turns) - {handle.thread}
        else old(turns)
    {
      if !safe && handle.thread in turns && turns[handle.thread] == handle {
        return;
      }
      if handle.thread in turns && turns[handle.thread] == handle {
        turns := turns - {handle.thread};
      }
      handle.listening := false;
    }

    method RouteNotification(thread: string, notice: Notice, id: TurnId)
      modifies this, if thread in turns then {turns[thread]} else {}
      ensures thread !in old(turns) ==> turns == old(turns)
      ensures thread in old(turns) ==>
        && old(turns)[thread].Value() == Routed(old(turns[thread].Value()), notice, id)
        && turns == (if Drops(old(turns[thread].Value()), notice, id) then old(turns) - {thread} else old(turns))
        && old(turns)[thread].listening == (old(turns[thread].listening) && !Drops(old(turns[thread].Value()), notice, id))
    {
      if thread !in turns {
        return;
      }
      var active := turns[thread];
      if notice.TurnStarted? && id in active.completedIds {
        return;
      }
      if id != "" && (active.id == "" || notice.TurnStarted?) {
        active.id := id;
        if notice.TurnStarted? {
          active.completed := false;
        }
      }
      if notice.TurnCompleted? && (id == "" || active.id == "" || id == active.id) {
        active.completed := true;
        if id != "" {
          active.completedIds := active.completedIds + {id};
        }
        if !active.retain {
          turns := turns - {thread};
          active.listening := false;
        }
      }
      if notice.ThreadClosed? {
        turns := turns - {thread};
        active.completed := true;
        active.closed := true;
        active.listening := false;
      }
    }
  }
}
