/**
 Native turn identity in the Codex app-server client: which turn a handle stands for while
 start responses, continuation acknowledgements and notifications arrive in any order.
 */
module CodexTurnModel {
  import opened Options

  type TurnId = string

  /** A handle; an empty id means the provider's turn is not known yet. */
  datatype Turn = Turn(
    thread: string,
    id: TurnId,
    completed: bool,
    closed: bool,
    retain: bool,
    completedIds: set<TurnId>)

  datatype Notice = TurnStarted | TurnCompleted | ItemEvent | ThreadClosed

  function Provisional(thread: string, retain: bool): Turn {
    Turn(thread, "", false, false, retain, {})
  }

  /** `_route_notification`, as far as the registered handle is concerned; `id` may be missing. */
  function Bound(t: Turn, notice: Notice, id: TurnId): Turn {
    if id == "" || !(t.id == "" || notice.TurnStarted?) then t
    else if notice.TurnStarted? then t.(id := id, completed := false)
    else t.(id := id)
  }

  predicate Finishes(t: Turn, notice: Notice, id: TurnId) {
    notice.TurnCompleted? && (id == "" || t.id == "" || id == t.id)
  }

  function Completed(t: Turn, notice: Notice, id: TurnId): Turn {
    if !Finishes(t, notice, id) then t
    else t.(completed := true, completedIds := if id != "" then t.completedIds + {id} else t.completedIds)
  }

  predicate DuplicateStart(t: Turn, notice: Notice, id: TurnId) {
    notice.TurnStarted? && id in t.completedIds
  }

  function Routed(t: Turn, notice: Notice, id: TurnId): Turn {
    if DuplicateStart(t, notice, id) then t
    else if notice.ThreadClosed? then Bound(t, notice, id).(completed := true, closed := true)
    else Completed(Bound(t, notice, id), notice, id)
  }

  /** The thread slot is given up by this notification. */
  predicate Drops(t: Turn, notice: Notice, id: TurnId) {
    && !DuplicateStart(t, notice, id)
    && (notice.ThreadClosed? || (!t.retain && Finishes(Bound(t, notice, id), notice, id)))
  }

  datatype Verdict = Accepted(turn: Turn) | Ambiguous

  /** The part of `start_turn` behind its response; `current` says the handle still owns the
      thread on the transport it was sent on. */
  function StartAnswered(t: Turn, id: TurnId, current: bool): Verdict {
    if id == "" then Ambiguous
    else if t.id != "" && t.id != id then
      if t.retain && id in t.completedIds && current && !t.closed then Accepted(t) else Ambiguous
    else Accepted(t.(id := id))
  }

  /** The part of `continue_after_subagents` behind its response; `from` is the finished turn
      it was sent for. */
  function ContinuationAnswered(t: Turn, from: TurnId, id: TurnId, current: bool): Verdict {
    if id == "" || id == from || t.closed || !current then Ambiguous
    else if t.id == from then Accepted(t.(id := id, completed := false))
    else if t.id != id && id !in t.completedIds then Ambiguous
    else Accepted(t)
  }

  predicate MayContinue(t: Turn, current: bool) {
    t.retain && !t.closed && t.completed && t.id != "" && t.id in t.completedIds && current
  }

  function Adopted(t: Turn, id: TurnId): Turn {
    if id == "" || (t.id != "" && t.id != id) then t else t.(id := id)
  }
}
