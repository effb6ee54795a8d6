/**
 Claude source lineage: which interruption markers belong to an established prompt, read
 event by event from a cursor that can be exported and resumed at any point.
 */
module LineageModel {
  import opened Options

  // ---------- identifiers ----------

  predicate IsHex(c: char) {
    '0' <= c <= '9' || 'a' <= c <= 'f' || 'A' <= c <= 'F'
  }

  predicate IsUuid(s: string) {
    |s| == 36 && forall i :: 0 <= i < 36 ==> if i in {8, 13, 18, 23} then s[i] == '-' else IsHex(s[i])
  }

  function Uuid(value: Option<string>): (id: Option<string>)
    ensures id.Some? ==> IsUuid(id.value) && id == value
  {
    if value.Some? && IsUuid(value.value) then value else None
  }

  // ---------- events ----------

  datatype Kind = User | Assistant | Attachment | OtherKind | NoKind

  datatype TextKind = MarkerText | BlankText | OtherText

  datatype Block = Text(text: TextKind) | ToolResult | OtherBlock

  datatype Content = NoContent | PlainText(blank: bool) | Blocks(blocks: seq<Block>)

  /** A transcript record; raw identifiers may be missing or malformed, and `timestamp` is
      present when it parses with a zone. */
  datatype Event =
    | NotARecord
    | Event(
        sidechain: bool,
        uuid: Option<string>,
        kind: Kind,
        session: Option<string>,
        parent: Option<string>,
        prompt: Option<string>,
        timestamp: Option<string>,
        byUser: bool,
        content: Content,
        meta: bool)

  function BlocksOf(e: Event): seq<Block>
    requires e.Event?
  {
    if e.content.Blocks? then e.content.blocks else []
  }

  predicate IsMarker(e: Event)
    requires e.Event?
  {
    e.kind.User? && e.byUser && BlocksOf(e) == [Text(MarkerText)]
  }

  predicate HasText(e: Event)
    requires e.Event?
  {
    || (e.content.PlainText? && !e.content.blank)
    || Text(MarkerText) in BlocksOf(e)
    || Text(OtherText) in BlocksOf(e)
  }

  predicate IsRealPrompt(e: Event)
    requires e.Event?
  {
    && e.kind.User? && e.byUser && HasText(e) && ToolResult !in BlocksOf(e)
    && !IsMarker(e) && !e.meta
    && Uuid(e.session).Some? && Uuid(e.prompt).Some? && e.timestamp.Some?
  }

  // ---------- the context ----------

  datatype Context = Empty | Lineage(session: string, prompt: string, anchor: string, last: string)

  /** What is exported, stored and read back: a version and fields that may be anything. */
  datatype Stored =
    | NotAnObject
    | Stored(version: int, session: Option<string>, prompt: Option<string>, anchor: Option<string>, last: Option<string>)

  predicate WellFormed(c: Context) {
    c.Lineage? ==> IsUuid(c.session) && IsUuid(c.prompt) && IsUuid(c.anchor) && IsUuid(c.last)
  }

  function Export(c: Context): Stored {
    match c
    case Empty => Stored(1, None, None, None, None)
    case Lineage(session, prompt, anchor, last) => Stored(1, Some(session), Some(prompt), Some(anchor), Some(last))
  }

  function Normalize(value: Stored, provider: Option<string>): (c: Context)
    ensures WellFormed(c)
  {
    if value.NotAnObject? || value.version != 1 then Empty
    else if Uuid(value.session).None? || Uuid(value.prompt).None? || Uuid(value.anchor).None? || Uuid(value.last).None? then Empty
    else if provider.Some? && provider.value != "" && value.session != provider then Empty
    else Lineage(value.session.value, value.prompt.value, value.anchor.value, value.last.value)
  }

  // ---------- one event ----------

  datatype Origin = Origin(event: string, session: string, timestamp: string, parent: Option<string>, prompt: Option<string>)

  /** The record takes part in the lineage at all. */
  predicate IsLinked(e: Event) {
    e.Event? && !e.sidechain && Uuid(e.uuid).Some?
  }

  /** A record outside the lineage that still breaks it. */
  predicate Breaks(e: Event) {
    e.NotARecord? || (!e.sidechain && Uuid(e.uuid).None? && e.kind in {User, Assistant, Attachment, NoKind})
  }

  predicate Continues(c: Context, e: Event)
    requires e.Event?
  {
    && c.Lineage?
    && Uuid(e.session) == Some(c.session)
    && Uuid(e.parent) == Some(c.last)
  }

  function Next(c: Context, e: Event): Context {
    if !IsLinked(e) then (if Breaks(e) then Empty else c)
    else if IsRealPrompt(e) then Lineage(e.session.value, e.prompt.value, e.uuid.value, e.uuid.value)
    else if Continues(c, e) then c.(last := e.uuid.value)
    else Empty
  }

  function OriginOf(c: Context, e: Event): Option<Origin> {
    if !IsLinked(e) || !IsMarker(e) || Uuid(e.session).None? || e.timestamp.None? then None
    else if e.meta || (Continues(c, e) && Uuid(e.prompt) == Some(c.prompt) && e.uuid.value != c.anchor) then
      Some(Origin(e.uuid.value, e.session.value, e.timestamp.value, Uuid(e.parent), Uuid(e.prompt)))
    else None
  }

  function Consumed(c: Context, events: seq<Event>): Context
    decreases |events|
  {
    if events == [] then c else Consumed(Next(c, events[0]), events[1..])
  }

  function Origins(c: Context, events: seq<Event>): seq<Option<Origin>>
    decreases |events|
  {
    if events == [] then [] else [OriginOf(c, events[0])] + Origins(Next(c, events[0]), events[1..])
  }
}
