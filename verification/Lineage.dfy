/** Resuming the tracker anywhere, and what a reported interruption stands on. */
module Lineage {
  import opened Options
  import opened LineageModel

  class Tracker {
    var context: Context

    constructor (stored: Stored)
      ensures context == Normalize(stored, None)
    {
      context := Normalize(stored, None);
    }

    method ExportContext() returns (stored: Stored)
      ensures stored == Export(context)
    {
      return Export(context);
    }

    method Consume(e: Event) returns (origin: Option<Origin>)
      modifies this
      ensures context == Next(old(context), e)
      ensures origin == OriginOf(old(context), e)
    {
      if e.NotARecord? {
        context := Empty;
        return None;
      }
      if e.sidechain {
        return None;
      }
      var id := Uuid(e.uuid);
      if id.None? {
        if e.kind.NoKind? || e.kind.User? || e.kind.Assistant? || e.kind.Attachment? {
          context := Empty;
        }
        return None;
      }
      var session, parent, prompt := Uuid(e.session), Uuid(e.parent), Uuid(e.prompt);
      var marker := IsMarker(e);
      var continued := context.Lineage? && session == Some(context.session) && parent == Some(context.last);
      origin := None;
      if marker && session.Some? && e.timestamp.Some? {
        if e.meta || (continued && prompt == Some(context.prompt) && id.value != context.anchor) {
          origin := Some(Origin(id.value, session.value, e.timestamp.value, parent, prompt));
        }
      }
      if IsRealPrompt(e) {
        context := Lineage(session.value, prompt.value, id.value, id.value);
      } else if continued {
        context := context.(last := id.value);
      } else {
        context := Empty;
      }
    }
  }

  // ---------- resumption ----------

  lemma NextIsWellFormed(c: Context, e: Event)
    requires WellFormed(c)
    ensures WellFormed(Next(c, e))
  {
  }

  lemma {:induction false} ConsumedIsWellFormed(c: Context, events: seq<Event>)
    requires WellFormed(c)
    ensures WellFormed(Consumed(c, events))
    decreases |events|
  {
    if events != [] {
      NextIsWellFormed(c, events[0]);
      ConsumedIsWellFormed(Next(c, events[0]), events[1..]);
    }
  }

  lemma {:induction false} ConsumedInParts(c: Context, xs: seq<Event>, ys: seq<Event>)
    ensures Consumed(c, xs + ys) == Consumed(Consumed(c, xs), ys)
    ensures Origins(c, xs + ys) == Origins(c, xs) + Origins(Consumed(c, xs), ys)
    decreases |xs|
  {
    if xs == [] {
      assert xs + ys == ys;
    } else {
      assert (xs + ys)[1..] == xs[1..] + ys;
      ConsumedInParts(Next(c, xs[0]), xs[1..], ys);
    }
  }

  /** Storing and reading back loses nothing of a context the tracker can hold, unless it is read
      for a different provider session. */
  lemma StoredContextComesBack(c: Context, provider: Option<string>)
    requires WellFormed(c)
    ensures Normalize(Export(c), provider) == c <==>
      c.Empty? || provider.None? || provider.value == "" || provider.value == c.session
    ensures Normalize(Export(c), provider) == c || Normalize(Export(c), provider) == Empty
  {
  }

  /** Resumption: for every split, a new tracker started from the exported context reports what
      one tracker would have reported, and ends in the same, empty or fully valid, context. */
  lemma ResumingChangesNothing(stored: Stored, xs: seq<Event>, ys: seq<Event>)
    ensures var first := Normalize(stored, None);
      var exported := Export(Consumed(first, xs));
      var resumed := Normalize(exported, None);
      && Origins(first, xs + ys) == Origins(first, xs) + Origins(resumed, ys)
      && Consumed(first, xs + ys) == Consumed(resumed, ys)
      && WellFormed(Consumed(first, xs + ys))
  {
    var first := Normalize(stored, None);
    ConsumedIsWellFormed(first, xs);
    ConsumedIsWellFormed(first, xs + ys);
    StoredContextComesBack(Consumed(first, xs), None);
    ConsumedInParts(first, xs, ys);
  }

  // ---------- what a lineage stands on ----------

  /** The record at this position may belong to a chain of this session. */
  ghost predicate IsMember(events: seq<Event>, p: nat, c: Context) {
    p < |events| && IsLinked(events[p]) && c.Lineage? && events[p].session == Some(c.session)
  }

  /** One member is the child of another, and no prompt of its own. */
  ghost predicate IsStep(events: seq<Event>, from: nat, to: nat) {
    && from < to < |events| && events[from].Event? && events[to].Event?
    && events[to].parent == events[from].uuid && !IsRealPrompt(events[to])
  }

  /** Positions of a prompt and of the records behind it, each the child of the one before. */
  ghost predicate IsPath(events: seq<Event>, chain: seq<nat>, c: Context) {
    && chain != []
    && (forall k :: 0 <= k < |chain| ==> IsMember(events, chain[k], c))
    && IsRealPrompt(events[chain[0]])
    && events[chain[0]].prompt == Some(c.prompt)
    && events[chain[0]].uuid == Some(c.anchor)
    && events[chain[|chain| - 1]].uuid == Some(c.last)
    && (forall k {:trigger chain[k]} :: 0 < k < |chain| ==> IsStep(events, chain[k - 1], chain[k]))
  }

  /** No other record that takes part in a lineage, and none that breaks one, lies behind the prompt. */
  ghost predicate NothingElse(events: seq<Event>, chain: seq<nat>)
    requires chain != []
  {
    forall p :: chain[0] <= p < |events| ==> !Breaks(events[p]) && (IsLinked(events[p]) ==> p in chain)
  }

  ghost predicate IsChain(events: seq<Event>, chain: seq<nat>, c: Context) {
    IsPath(events, chain, c) && NothingElse(events, chain)
  }

  lemma {:induction false} ConsumedLast(c: Context, events: seq<Event>)
    requires events != []
    ensures Consumed(c, events) == Next(Consumed(c, events[..|events| - 1]), events[|events| - 1])
  {
    var front := events[..|events| - 1];
    assert front + [events[|events| - 1]] == events;
    ConsumedInParts(c, front, [events[|events| - 1]]);
    assert Consumed(Next(Consumed(c, front), events[|events| - 1]), []) == Next(Consumed(c, front), events[|events| - 1]);
  }

  /** A path through a transcript is one through every longer transcript. */
  lemma PathCarriesOver(front: seq<Event>, events: seq<Event>, chain: seq<nat>, c: Context)
    requires IsPath(front, chain, c) && front <= events
    ensures IsPath(events, chain, c)
  {
    forall k | 0 <= k < |chain| ensures IsMember(events, chain[k], c) {
      assert IsMember(front, chain[k], c);
    }
    forall k | 0 < k < |chain| ensures IsStep(events, chain[k - 1], chain[k]) {
      assert IsStep(front, chain[k - 1], chain[k]);
    }
  }

  lemma ChainCarriesOver(front: seq<Event>, e: Event, chain: seq<nat>, c: Context)
    requires IsChain(front, chain, c) && !Breaks(e) && !IsLinked(e)
    ensures IsChain(front + [e], chain, c)
  {
    PathCarriesOver(front, front + [e], chain, c);
    NothingElseStill(front, e, chain);
  }

  lemma NothingElseStill(front: seq<Event>, e: Event, chain: seq<nat>)
    requires chain != [] && NothingElse(front, chain) && !Breaks(e) && !IsLinked(e)
    ensures NothingElse(front + [e], chain)
  {
    var events := front + [e];
    forall p: nat | chain[0] <= p < |events| ensures !Breaks(events[p]) && (IsLinked(events[p]) ==> p in chain) {
      if p < |front| {
        assert events[p] == front[p];
      }
    }
  }

  lemma PathGrows(front: seq<Event>, e: Event, chain: seq<nat>, c: Context)
    requires IsPath(front, chain, c) && IsLinked(e) && !IsRealPrompt(e) && e.uuid.Some?
    requires e.session == Some(c.session) && e.parent == Some(c.last)
    ensures IsPath(front + [e], chain + [|front|], c.(last := e.uuid.value))
  {
    var events, longer, grown := front + [e], chain + [|front|], c.(last := e.uuid.value);
    PathCarriesOver(front, events, chain, c);
    forall k | 0 <= k < |longer| ensures IsMember(events, longer[k], grown) {
      assert k < |chain| ==> IsMember(events, chain[k], c);
    }
    forall k | 0 < k < |longer| ensures IsStep(events, longer[k - 1], longer[k]) {
      if k < |chain| {
        assert IsStep(events, chain[k - 1], chain[k]);
      } else {
        assert IsMember(front, chain[k - 1], c);
      }
    }
  }

  lemma ChainGrows(front: seq<Event>, e: Event, chain: seq<nat>, c: Context)
    requires IsChain(front, chain, c) && IsLinked(e) && !IsRealPrompt(e) && e.uuid.Some?
    requires e.session == Some(c.session) && e.parent == Some(c.last)
    ensures IsChain(front + [e], chain + [|front|], c.(last := e.uuid.value))
  {
    PathGrows(front, e, chain, c);
    var events, longer := front + [e], chain + [|front|];
    forall p: nat | longer[0] <= p < |events| ensures !Breaks(events[p]) && (IsLinked(events[p]) ==> p in longer) {
      if p < |front| {
        assert events[p] == front[p];
      } else {
        assert longer[|chain|] == p;
      }
    }
  }

  /** A context the tracker reached from nothing names the last real prompt of an unbroken
      chain of parent links through the transcript. */
  lemma {:induction false} LineageIsAChain(events: seq<Event>) returns (chain: seq<nat>)
    requires Consumed(Empty, events).Lineage?
    ensures IsChain(events, chain, Consumed(Empty, events))
    decreases |events|
  {
    var front, e := events[..|events| - 1], events[|events| - 1];
    var before := Consumed(Empty, front);
    ConsumedLast(Empty, events);
    assert front + [e] == events;
    if IsLinked(e) && IsRealPrompt(e) {
      chain := [|front|];
    } else {
      chain := LineageIsAChain(front);
      if IsLinked(e) {
        ChainGrows(front, e, chain, before);
        chain := chain + [|front|];
      } else {
        ChainCarriesOver(front, e, chain, before);
      }
    }
  }

  /** An interruption that is not flagged as metadata is only ever reported at the end of such a
      chain, for the prompt the chain starts with, and never for the prompt itself. */
  lemma InterruptionBelongsToAPrompt(events: seq<Event>, e: Event) returns (chain: seq<nat>)
    requires e.Event? && !e.meta && OriginOf(Consumed(Empty, events), e).Some?
    ensures IsChain(events, chain, Consumed(Empty, events))
    ensures var prompt := events[chain[0]];
      && IsMarker(e)
      && Uuid(e.session) == prompt.session && Uuid(e.prompt) == prompt.prompt
      && e.uuid != prompt.uuid
      && Uuid(e.parent) == events[chain[|chain| - 1]].uuid
  {
    chain := LineageIsAChain(events);
  }

  /** The members of a chain lie in order, so only the last one can be the last record. */
  lemma {:induction false} MembersLieBefore(events: seq<Event>, chain: seq<nat>, c: Context, k: nat)
    requires IsPath(events, chain, c) && k < |chain|
    ensures chain[k] <= chain[|chain| - 1] && (k < |chain| - 1 ==> chain[k] < chain[|chain| - 1])
    decreases |chain| - k
  {
    if k < |chain| - 1 {
      MembersLieBefore(events, chain, c, k + 1);
      assert IsStep(events, chain[k], chain[k + 1]);
    }
  }

  lemma ShorterTranscript(events: seq<Event>, chain: seq<nat>, c: Context)
    requires IsChain(events, chain, c) && chain[|chain| - 1] < |events| - 1
    ensures IsChain(events[..|events| - 1], chain, c)
    ensures !IsLinked(events[|events| - 1]) && !Breaks(events[|events| - 1])
  {
    PathInFront(events, chain, c);
    var front := events[..|events| - 1];
    assert IsMember(events, chain[0], c) && chain[0] < |front|;
    forall p | chain[0] <= p < |front| ensures !Breaks(front[p]) && (IsLinked(front[p]) ==> p in chain) {
      assert front[p] == events[p];
    }
  }

  lemma PathInFront(events: seq<Event>, chain: seq<nat>, c: Context)
    requires IsPath(events, chain, c) && chain[|chain| - 1] < |events| - 1
    ensures IsPath(events[..|events| - 1], chain, c)
    ensures forall k :: 0 <= k < |chain| ==> chain[k] < |events| - 1
  {
    var front := events[..|events| - 1];
    forall k: nat | k < |chain| ensures IsMember(front, chain[k], c) && chain[k] < |front| {
      MembersLieBefore(events, chain, c, k);
      assert IsMember(events, chain[k], c);
    }
    forall k | 0 < k < |chain| ensures IsStep(front, chain[k - 1], chain[k]) {
      assert IsStep(events, chain[k - 1], chain[k]) && chain[k] < |front|;
    }
  }

  lemma ShorterPath(events: seq<Event>, chain: seq<nat>, c: Context) returns (before: Context)
    requires IsPath(events, chain, c) && |chain| > 1 && chain[|chain| - 1] == |events| - 1
    ensures before.Lineage? && before == c.(last := before.last)
    ensures IsPath(events[..|events| - 1], chain[..|chain| - 1], before)
    ensures events[|events| - 1].Event? && events[|events| - 1].parent == Some(before.last)
  {
    var front, n, shorter := events[..|events| - 1], |chain| - 1, chain[..|chain| - 1];
    assert IsMember(events, chain[n], c) && IsMember(events, chain[n - 1], c) && IsStep(events, chain[n - 1], chain[n]);
    before := c.(last := events[chain[n - 1]].uuid.value);
    forall k: nat | k < n ensures IsMember(front, shorter[k], before) {
      MembersLieBefore(events, chain, c, k);
      assert IsMember(events, chain[k], c);
    }
    forall k | 0 < k < n ensures IsStep(front, shorter[k - 1], shorter[k]) {
      assert IsStep(events, chain[k - 1], chain[k]) && IsMember(front, shorter[k], before);
    }
  }

  lemma ShorterChain(events: seq<Event>, chain: seq<nat>, c: Context) returns (before: Context)
    requires IsChain(events, chain, c) && |chain| > 1 && chain[|chain| - 1] == |events| - 1
    ensures before.Lineage? && before == c.(last := before.last)
    ensures IsChain(events[..|events| - 1], chain[..|chain| - 1], before)
    ensures events[|events| - 1].Event? && events[|events| - 1].parent == Some(before.last)
  {
    before := ShorterPath(events, chain, c);
    var front, shorter := events[..|events| - 1], chain[..|chain| - 1];
    forall p: nat | shorter[0] <= p < |front| ensures !Breaks(front[p]) && (IsLinked(front[p]) ==> p in shorter) {
      assert front[p] == events[p];
    }
  }

  /** And conversely: wherever there is such a chain, the tracker holds exactly its context. */
  lemma {:induction false} ChainIsTheLineage(events: seq<Event>, chain: seq<nat>, c: Context)
    requires IsChain(events, chain, c)
    ensures Consumed(Empty, events) == c
    decreases |events|
  {
    var front, e, n := events[..|events| - 1], events[|events| - 1], |chain| - 1;
    assert IsMember(events, chain[n], c);
    ConsumedLast(Empty, events);
    if chain[n] < |front| {
      ShorterTranscript(events, chain, c);
      ChainIsTheLineage(front, chain, c);
    } else if n > 0 {
      var before := ShorterChain(events, chain, c);
      ChainIsTheLineage(front, chain[..n], before);
      ConsumedIsWellFormed(Empty, front);
      LastStep(events, chain, c, before);
    } else {
      LastBegins(events, chain, c, Consumed(Empty, front));
    }
  }

  lemma LastStep(events: seq<Event>, chain: seq<nat>, c: Context, before: Context)
    requires IsPath(events, chain, c) && |chain| > 1 && chain[|chain| - 1] == |events| - 1
    requires before.Lineage? && WellFormed(before) && before == c.(last := before.last)
    requires events[|events| - 1].Event? && events[|events| - 1].parent == Some(before.last)
    ensures Next(before, events[|events| - 1]) == c
  {
    var n := |chain| - 1;
    assert IsMember(events, chain[n], c) && IsStep(events, chain[n - 1], chain[n]);
    NextExtends(before, events[|events| - 1], c);
  }

  lemma LastBegins(events: seq<Event>, chain: seq<nat>, c: Context, before: Context)
    requires IsPath(events, chain, c) && |chain| == 1 && chain[0] == |events| - 1
    ensures Next(before, events[|events| - 1]) == c
  {
    assert IsMember(events, chain[0], c);
    NextBegins(before, events[|events| - 1], c);
  }

  lemma NextExtends(before: Context, e: Event, c: Context)
    requires before.Lineage? && WellFormed(before) && IsLinked(e) && !IsRealPrompt(e)
    requires e.session == Some(before.session) && e.parent == Some(before.last)
    requires c.Lineage? && e.uuid == Some(c.last) && before == c.(last := before.last)
    ensures Next(before, e) == c
  {
  }

  lemma NextBegins(before: Context, e: Event, c: Context)
    requires IsLinked(e) && IsRealPrompt(e) && c.Lineage? && c.last == c.anchor
    requires e.session == Some(c.session) && e.prompt == Some(c.prompt) && e.uuid == Some(c.anchor)
    ensures Next(before, e) == c
  {
  }

  /** The record closes this chain as an interruption of its prompt. */
  ghost predicate Interrupts(events: seq<Event>, e: Event, chain: seq<nat>, c: Context) {
    && IsChain(events, chain, c)
    && IsLinked(e) && IsMarker(e) && e.timestamp.Some?
    && e.session == Some(c.session) && e.parent == Some(c.last) && e.prompt == Some(c.prompt) && e.uuid != Some(c.anchor)
  }

  /** An unflagged interruption is reported exactly when it closes an unbroken chain from the prompt it names. */
  lemma InterruptionReportedExactlyWhen(events: seq<Event>, e: Event)
    requires e.Event? && !e.meta
    ensures OriginOf(Consumed(Empty, events), e).Some? <==> exists chain, c :: Interrupts(events, e, chain, c)
  {
    if OriginOf(Consumed(Empty, events), e).Some? {
      var chain := LineageIsAChain(events);
      assert Interrupts(events, e, chain, Consumed(Empty, events));
    }
    if chain, c :| Interrupts(events, e, chain, c) {
      ChainIsTheLineage(events, chain, c);
      ConsumedIsWellFormed(Empty, events);
    }
  }
}
