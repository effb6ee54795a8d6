/** What a run handle receives, over every interleaving of submissions, stream reads and commands. */
module ClaudeActorRuns {
  import opened Options
  import opened ClaudeActorModel

  // ---------- the reference: what a run should be given ----------

  ghost predicate Acked(seen: seq<Frame>, correlation: nat) {
    exists i :: 0 <= i < |seen| && Replays(seen[i], correlation)
  }

  function WithoutReplays(frames: seq<Frame>, correlation: nat): seq<Frame>
    decreases |frames|
  {
    if frames == [] then []
    else
      var last := frames[|frames| - 1];
      WithoutReplays(frames[..|frames| - 1], correlation) + (if Replays(last, correlation) then [] else [last])
  }

  /** The frames after the first acknowledgement, without the acknowledgement's duplicates. */
  function Owned(seen: seq<Frame>, correlation: nat): seq<Frame>
    decreases |seen|
  {
    if seen == [] then []
    else if Replays(seen[0], correlation) then WithoutReplays(seen[1..], correlation)
    else Owned(seen[1..], correlation)
  }

  /** Started at some frame and not settled by any later one. */
  ghost predicate Open(frames: seq<Frame>, task: string) {
    exists i :: 0 <= i < |frames| && Starts(frames[i], task) && Unsettled(frames, i, task)
  }

  ghost predicate Unsettled(frames: seq<Frame>, from: int, task: string) {
    forall j :: from < j < |frames| && 0 <= j ==> !Settles(frames[j], task)
  }

  ghost predicate SomethingOpen(frames: seq<Frame>) {
    exists task :: Open(frames, task)
  }

  /** A Result that is neither forced nor free of delegated work is only an intermediate one. */
  ghost predicate Intermediate(frames: seq<Frame>, j: nat) {
    j < |frames| && frames[j].result && !frames[j].forced && SomethingOpen(frames[..j])
  }

  ghost predicate EndsRun(frames: seq<Frame>, j: nat) {
    j < |frames| && frames[j].result && !Intermediate(frames, j)
  }

  /** The frames without the intermediate Results. */
  ghost function Kept(frames: seq<Frame>): seq<Item>
    decreases |frames|
  {
    if frames == [] then []
    else
      Kept(frames[..|frames| - 1])
      + (if Intermediate(frames, |frames| - 1) then [] else [Message(frames[|frames| - 1])])
  }

  ghost predicate NotEndedBefore(frames: seq<Frame>, n: nat) {
    forall j :: 0 <= j < n ==> !EndsRun(frames, j)
  }

  // ---------- the system: actor, queue, streams ----------

  /** A finished run: its handle and the stretch of its connection's frames it was shown. */
  datatype Past = Past(handle: Handle, since: nat, seen: seq<Frame>)

  /** `streams[g]` is everything read from connection `g` so far, `handled[g]` what the actor
      has taken of it while `g` was current.  `since` and `seen` belong to the active run. */
  datatype System = System(
    state: State,
    queue: seq<Command>,
    streams: seq<seq<Frame>>,
    handled: seq<seq<Frame>>,
    since: nat,
    seen: seq<Frame>,
    past: seq<Past>)

  datatype Event = Submit(command: Command) | Read(generation: nat, frame: Frame) | Lose(generation: nat) | Consume | Abort

  const FRESH := System(IDLE, [], [[]], [[]], 0, [], [])

  function Grown(lists: seq<seq<Frame>>, size: nat): seq<seq<Frame>> {
    if |lists| < size then lists + [[]] else lists
  }

  function Ended(sys: System, effect: Effect): seq<Past> {
    if effect.ended.None? then sys.past
    else if sys.state.active.Some? then sys.past + [Past(effect.ended.value, sys.since, sys.seen)]
    else
      var size := if effect.ended.value.connection < |sys.handled| then |sys.handled[effect.ended.value.connection]| else 0;
      sys.past + [Past(effect.ended.value, size, [])]
  }

  function Shown(sys: System, c: Command): System {
    if c.Received? && c.generation == sys.state.generation && c.generation < |sys.handled| then
      sys.(handled := sys.handled[c.generation := sys.handled[c.generation] + [c.frame]],
           seen := if sys.state.active.Some? then sys.seen + [c.frame] else sys.seen)
    else sys
  }

  function Took(sys: System, effect: Effect): System {
    var handled := Grown(sys.handled, effect.state.generation + 1);
    var began := sys.state.active.None? && effect.state.active.Some?;
    sys.(state := effect.state,
         streams := Grown(sys.streams, effect.state.generation + 1),
         handled := handled,
         since := if began && effect.state.generation < |handled| then |handled[effect.state.generation]| else sys.since,
         seen := if began then [] else sys.seen,
         past := Ended(sys, effect))
  }

  /** Only requests are submitted from outside; frames and stream ends come from `Read` and `Lose`. */
  function Happen(sys: System, e: Event): System {
    match e
    case Submit(command) =>
      if command.Received? || command.ReceiverStopped? then sys else sys.(queue := sys.queue + [command])
    case Read(generation, frame) =>
      if 1 <= generation < |sys.streams| then
        sys.(streams := sys.streams[generation := sys.streams[generation] + [frame]],
             queue := sys.queue + [Received(generation, frame)])
      else sys
    case Lose(generation) => sys.(queue := sys.queue + [ReceiverStopped(generation)])
    case Consume =>
      if sys.queue == [] || sys.state.closed then sys
      else
        var shown := Shown(sys.(queue := sys.queue[1..]), sys.queue[0]);
        Took(shown, Handled(sys.state, sys.queue[0]))
    case Abort => Took(sys, HandleClose(sys.state))
  }

  function Run(sys: System, events: seq<Event>): System
    decreases |events|
  {
    if events == [] then sys else Run(Happen(sys, events[0]), events[1..])
  }

  // ---------- the invariant ----------

  function FramesIn(queue: seq<Command>, generation: nat): seq<Frame>
    decreases |queue|
  {
    if queue == [] then []
    else (if queue[0].Received? && queue[0].generation == generation then [queue[0].frame] else [])
         + FramesIn(queue[1..], generation)
  }

  ghost predicate QueueOk(queue: seq<Command>, generation: nat) {
    forall i :: 0 <= i < |queue| && queue[i].Received? ==> 1 <= queue[i].generation <= generation
  }

  ghost predicate StreamsOk(sys: System) {
    && |sys.streams| == |sys.handled| == sys.state.generation + 1
    && QueueOk(sys.queue, sys.state.generation)
    && (forall g :: 0 <= g < |sys.handled| ==> sys.handled[g] <= sys.streams[g])
    && sys.streams[sys.state.generation] ==
         sys.handled[sys.state.generation] + FramesIn(sys.queue, sys.state.generation)
  }

  ghost predicate Slice(lists: seq<seq<Frame>>, connection: nat, since: nat, seen: seq<Frame>) {
    && connection < |lists|
    && since + |seen| <= |lists[connection]|
    && lists[connection][since..since + |seen|] == seen
  }

  /** The handle of a running run has been given exactly what the reference says so far. */
  ghost predicate Running(h: Handle, seen: seq<Frame>, inflight: set<string>) {
    var owned := Owned(seen, h.correlation);
    && !h.done
    && (h.acknowledged <==> Acked(seen, h.correlation))
    && h.items == Kept(owned)
    && NotEndedBefore(owned, |owned|)
    && (forall task :: task in inflight <==> Open(owned, task))
  }

  ghost predicate Finished(h: Handle, seen: seq<Frame>) {
    var owned := Owned(seen, h.correlation);
    && h.done
    && (|| (&& h.items == Kept(owned) + [End]
            && owned != [] && EndsRun(owned, |owned| - 1) && NotEndedBefore(owned, |owned| - 1))
        || (&& h.items == Kept(owned) + [Failure, End]
            && NotEndedBefore(owned, |owned|)))
  }

  ghost predicate PastOk(sys: System, i: nat) {
    i < |sys.past| ==>
      && Finished(sys.past[i].handle, sys.past[i].seen)
      && Slice(sys.handled, sys.past[i].handle.connection, sys.past[i].since, sys.past[i].seen)
  }

  ghost predicate ActiveOk(sys: System) {
    match sys.state.active
    case None => sys.state.inflight == {}
    case Some(h) =>
      && sys.state.connected && !sys.state.closed
      && h.connection == sys.state.generation
      && Slice(sys.handled, h.connection, sys.since, sys.seen)
      && sys.since + |sys.seen| == |sys.handled[h.connection]|
      && Running(h, sys.seen, sys.state.inflight)
  }

  ghost predicate Inv(sys: System) {
    && StreamsOk(sys)
    && ActiveOk(sys)
    && (forall i :: PastOk(sys, i))
  }

  // ---------- one frame at the end ----------

  lemma AckedAppend(seen: seq<Frame>, f: Frame, correlation: nat)
    ensures Acked(seen + [f], correlation) <==> Acked(seen, correlation) || Replays(f, correlation)
  {
    if Acked(seen, correlation) {
      var i :| 0 <= i < |seen| && Replays(seen[i], correlation);
      assert (seen + [f])[i] == seen[i];
    }
    if Replays(f, correlation) {
      assert (seen + [f])[|seen|] == f;
    }
  }

  lemma {:induction false} OwnedAppend(seen: seq<Frame>, f: Frame, correlation: nat)
    ensures Owned(seen + [f], correlation) ==
      if Acked(seen, correlation) && !Replays(f, correlation) then Owned(seen, correlation) + [f] else Owned(seen, correlation)
    decreases |seen|
  {
    if seen == [] {
      assert (seen + [f])[1..] == [];
      assert Owned([], correlation) == [];
    } else {
      assert (seen + [f])[1..] == seen[1..] + [f];
      if Replays(seen[0], correlation) {
        assert (seen[1..] + [f])[..|seen[1..]|] == seen[1..];
      } else {
        OwnedAppend(seen[1..], f, correlation);
        AckedTail(seen, correlation);
      }
    }
  }

  lemma AckedTail(seen: seq<Frame>, correlation: nat)
    requires seen != [] && !Replays(seen[0], correlation)
    ensures Acked(seen, correlation) <==> Acked(seen[1..], correlation)
  {
    if Acked(seen, correlation) {
      var i :| 0 <= i < |seen| && Replays(seen[i], correlation);
      assert seen[1..][i - 1] == seen[i];
    }
    if Acked(seen[1..], correlation) {
      var i :| 0 <= i < |seen[1..]| && Replays(seen[1..][i], correlation);
      assert seen[i + 1] == seen[1..][i];
    }
  }

  lemma OpenAppend(frames: seq<Frame>, f: Frame, task: string)
    ensures Open(frames + [f], task) <==> Starts(f, task) || (Open(frames, task) && !Settles(f, task))
  {
    var more := frames + [f];
    if Starts(f, task) {
      assert more[|frames|] == f && Unsettled(more, |frames|, task);
    }
    if Open(frames, task) && !Settles(f, task) {
      var i :| 0 <= i < |frames| && Starts(frames[i], task) && Unsettled(frames, i, task);
      assert more[i] == frames[i];
      forall j | i < j < |more| && 0 <= j ensures !Settles(more[j], task) {
        assert j < |frames| ==> more[j] == frames[j];
      }
      assert Unsettled(more, i, task);
    }
    if Open(more, task) && !Starts(f, task) {
      var i :| 0 <= i < |more| && Starts(more[i], task) && Unsettled(more, i, task);
      assert i < |frames| && more[i] == frames[i];
      assert !Settles(more[|frames|], task);
      forall j | i < j < |frames| && 0 <= j ensures !Settles(frames[j], task) {
        assert more[j] == frames[j];
      }
      assert Unsettled(frames, i, task);
    }
  }

  lemma PrefixesKeep(frames: seq<Frame>, f: Frame, j: nat)
    requires j < |frames|
    ensures (frames + [f])[j] == frames[j] && (frames + [f])[..j] == frames[..j]
    ensures Intermediate(frames + [f], j) == Intermediate(frames, j) && EndsRun(frames + [f], j) == EndsRun(frames, j)
  {
  }

  lemma KeptAppend(frames: seq<Frame>, f: Frame)
    ensures Intermediate(frames + [f], |frames|) <==> f.result && !f.forced && SomethingOpen(frames)
    ensures Kept(frames + [f]) == Kept(frames) + (if Intermediate(frames + [f], |frames|) then [] else [Message(f)])
    ensures NotEndedBefore(frames + [f], |frames|) <==> NotEndedBefore(frames, |frames|)
  {
    var more := frames + [f];
    assert more[..|frames|] == frames && more[|frames|] == f;
    forall j | 0 <= j < |frames| ensures EndsRun(more, j) == EndsRun(frames, j) {
      PrefixesKeep(frames, f, j);
    }
  }

  // ---------- the commands ----------

  lemma LedgerFollows(owned: seq<Frame>, inflight: set<string>, f: Frame)
    requires forall task :: task in inflight <==> Open(owned, task)
    requires !f.result
    ensures forall task :: task in Ledger(inflight, f) <==> Open(owned + [f], task)
  {
    forall task ensures task in Ledger(inflight, f) <==> Open(owned + [f], task) {
      OpenAppend(owned, f, task);
      OpenIsNamed(owned, task);
    }
  }

  lemma OpenIsNamed(frames: seq<Frame>, task: string)
    ensures Open(frames, task) ==> task != ""
  {
  }

  lemma ResultLeavesLedger(owned: seq<Frame>, f: Frame)
    requires f.result
    ensures forall task :: Open(owned + [f], task) <==> Open(owned, task)
  {
    forall task ensures Open(owned + [f], task) <==> Open(owned, task) {
      OpenAppend(owned, f, task);
    }
  }

  /** One received frame, against the reference: the run goes on with the frame accounted for,
      or it ends with this frame as its last. */
  lemma ReceivedFollows(s: State, h: Handle, seen: seq<Frame>, f: Frame)
    requires s.active == Some(h) && Running(h, seen, s.inflight)
    ensures var effect := HandleReceived(s, s.generation, f);
      && effect.state.generation == s.generation && effect.state.closed == s.closed
      && (effect.state.active.Some? ==>
            && effect.ended.None?
            && effect.state.connected == s.connected
            && effect.state.active.value.connection == h.connection
            && Running(effect.state.active.value, seen + [f], effect.state.inflight))
      && (effect.state.active.None? ==>
            && effect.state.inflight == {}
            && effect.ended.Some?
            && effect.ended.value.connection == h.connection
            && Finished(effect.ended.value, seen + [f]))
  {
    var c := h.correlation;
    var owned := Owned(seen, c);
    AckedAppend(seen, f, c);
    OwnedAppend(seen, f, c);
    if h.acknowledged && !Replays(f, c) {
      KeptAppend(owned, f);
      assert s.inflight != {} <==> SomethingOpen(owned) by {
        if s.inflight != {} {
          var task :| task in s.inflight;
          assert Open(owned, task);
        }
      }
      if f.result {
        ResultLeavesLedger(owned, f);
      } else {
        LedgerFollows(owned, s.inflight, f);
      }
    }
  }

  lemma FailedFollows(h: Handle, seen: seq<Frame>, inflight: set<string>)
    requires Running(h, seen, inflight)
    ensures Finished(h.Fail(), seen) && h.Fail().connection == h.connection
  {
  }

  lemma NothingSeen(h: Handle)
    requires !h.done && !h.acknowledged && h.items == []
    ensures Running(h, [], {}) && Finished(h.Fail(), [])
  {
    assert Owned([], h.correlation) == [];
  }

  lemma QuietEventKeepsInv(sys: System, next: System)
    requires Inv(sys) && StreamsOk(next)
    requires next == sys.(queue := next.queue, streams := next.streams)
    ensures Inv(next)
  {
    forall i: nat ensures PastOk(next, i) {
      assert PastOk(sys, i);
    }
  }

  lemma {:induction false} FramesInAppend(queue: seq<Command>, c: Command, generation: nat)
    ensures FramesIn(queue + [c], generation) ==
      FramesIn(queue, generation) + (if c.Received? && c.generation == generation then [c.frame] else [])
    decreases |queue|
  {
    if queue == [] {
      assert (queue + [c])[1..] == [];
    } else {
      assert (queue + [c])[1..] == queue[1..] + [c];
      FramesInAppend(queue[1..], c, generation);
    }
  }

  lemma NoFramesAhead(queue: seq<Command>, generation: nat)
    requires QueueOk(queue, generation)
    ensures FramesIn(queue, generation + 1) == []
    decreases |queue|
  {
    if queue != [] {
      NoFramesAhead(queue[1..], generation);
    }
  }

  /** The bookkeeping when the actor takes a command that shows no frame to anybody. */
  lemma TookKeepsStreams(sys: System, effect: Effect)
    requires StreamsOk(sys)
    requires sys.state.generation <= effect.state.generation <= sys.state.generation + 1
    ensures StreamsOk(Took(sys, effect))
  {
    if effect.state.generation == sys.state.generation + 1 {
      NoFramesAhead(sys.queue, sys.state.generation);
    }
  }

  lemma PastKept(sys: System, next: System, i: nat)
    requires PastOk(sys, i) && i < |sys.past| && |sys.past| <= |next.past| && next.past[i] == sys.past[i]
    requires |sys.handled| <= |next.handled|
    requires forall g :: 0 <= g < |sys.handled| ==> sys.handled[g] <= next.handled[g]
    ensures PastOk(next, i)
  {
  }

  ghost predicate SeenUpToDate(sys: System) {
    sys.state.active.Some? ==>
      && sys.state.active.value.connection == sys.state.generation
      && Slice(sys.handled, sys.state.generation, sys.since, sys.seen)
      && sys.since + |sys.seen| == |sys.handled[sys.state.generation]|
  }

  /** What a command has to leave behind, given what the actor has shown the active run. */
  ghost predicate Fits(sys: System, effect: Effect) {
    && sys.state.generation <= effect.state.generation <= sys.state.generation + 1
    && (effect.ended.Some? ==>
          && Finished(effect.ended.value, if sys.state.active.Some? then sys.seen else [])
          && (if sys.state.active.Some? then effect.ended.value.connection == sys.state.generation
              else effect.ended.value.connection == effect.state.generation))
    && (effect.state.active.None? ==> effect.state.inflight == {})
    && (effect.state.active.Some? ==>
          && effect.state.connected && !effect.state.closed
          && effect.state.active.value.connection == effect.state.generation
          && (sys.state.active.Some? ==> effect.state.generation == sys.state.generation)
          && Running(effect.state.active.value, if sys.state.active.Some? then sys.seen else [], effect.state.inflight))
  }

  lemma TookKeepsInv(sys: System, effect: Effect)
    requires StreamsOk(sys) && SeenUpToDate(sys) && Fits(sys, effect)
    requires forall i :: PastOk(sys, i)
    ensures Inv(Took(sys, effect))
  {
    var next := Took(sys, effect);
    TookKeepsStreams(sys, effect);
    forall i: nat ensures PastOk(next, i) {
      if i < |sys.past| {
        assert PastOk(sys, i);
        PastKept(sys, next, i);
      }
    }
  }

  lemma StartFits(sys: System, run: string, correlation: nat, facts: StartFacts)
    requires ActiveOk(sys) && !sys.state.closed
    ensures Fits(sys, HandleStart(sys.state, run, correlation, facts))
  {
    NothingSeen(Handle(run, correlation, HandleStart(sys.state, run, correlation, facts).state.generation, [], false, false));
  }

  lemma FailingFits(sys: System, s: State)
    requires ActiveOk(sys)
    requires s == sys.state.(active := None, inflight := {}, connected := s.connected, closed := s.closed)
    ensures Fits(sys, Effect(s, FailActive(sys.state).ended))
  {
    if sys.state.active.Some? {
      FailedFollows(sys.state.active.value, sys.seen, sys.state.inflight);
    }
  }

  lemma NothingFits(sys: System)
    requires ActiveOk(sys)
    ensures Fits(sys, Effect(sys.state, None))
  {
  }

  lemma QuietCommandKeepsInv(sys: System, c: Command)
    requires Inv(sys) && !sys.state.closed && !c.Received?
    ensures Inv(Took(sys, Handled(sys.state, c)))
  {
    var effect := Handled(sys.state, c);
    NothingFits(sys);
    FailingFits(sys, FailActive(sys.state).state.(connected := false));
    FailingFits(sys, FailActive(sys.state).state.(connected := false, closed := true));
    if c.Start? {
      StartFits(sys, c.run, c.correlation, c.facts);
    }
    TookKeepsInv(sys, effect);
  }

  lemma CloseKeepsInv(sys: System)
    requires Inv(sys)
    ensures Inv(Took(sys, HandleClose(sys.state)))
  {
    FailingFits(sys, FailActive(sys.state).state.(connected := false, closed := true));
    TookKeepsInv(sys, HandleClose(sys.state));
  }

  lemma ShownKeepsStreams(sys: System)
    requires StreamsOk(sys) && sys.queue != [] && sys.queue[0].Received?
    ensures StreamsOk(Shown(sys.(queue := sys.queue[1..]), sys.queue[0]))
  {
    var c := sys.queue[0];
    var shown := Shown(sys.(queue := sys.queue[1..]), c);
    assert QueueOk(shown.queue, sys.state.generation);
    if c.generation == sys.state.generation {
      assert sys.handled[c.generation] + ([c.frame] + FramesIn(sys.queue[1..], c.generation)) ==
             (sys.handled[c.generation] + [c.frame]) + FramesIn(sys.queue[1..], c.generation);
    }
  }

  lemma ReceiveKeepsInv(sys: System, generation: nat, f: Frame)
    requires Inv(sys) && !sys.state.closed && sys.queue != [] && sys.queue[0] == Received(generation, f)
    ensures Inv(Took(Shown(sys.(queue := sys.queue[1..]), sys.queue[0]), Handled(sys.state, sys.queue[0])))
  {
    var shown := Shown(sys.(queue := sys.queue[1..]), sys.queue[0]);
    ShownKeepsStreams(sys);
    if generation == sys.state.generation && sys.state.active.Some? {
      ReceivedFollows(sys.state, sys.state.active.value, sys.seen, f);
    } else {
      NothingFits(sys);
    }
    forall i: nat ensures PastOk(shown, i) {
      assert PastOk(sys, i);
      if i < |sys.past| {
        PastKept(sys, shown, i);
      }
    }
    TookKeepsInv(shown, Handled(sys.state, sys.queue[0]));
  }

  lemma SubmitKeepsInv(sys: System, command: Command)
    requires Inv(sys)
    ensures Inv(Happen(sys, Submit(command)))
  {
    FramesInAppend(sys.queue, command, sys.state.generation);
    QuietEventKeepsInv(sys, Happen(sys, Submit(command)));
  }

  lemma ReadKeepsInv(sys: System, generation: nat, frame: Frame)
    requires Inv(sys)
    ensures Inv(Happen(sys, Read(generation, frame)))
  {
    FramesInAppend(sys.queue, Received(generation, frame), sys.state.generation);
    QuietEventKeepsInv(sys, Happen(sys, Read(generation, frame)));
  }

  lemma LoseKeepsInv(sys: System, generation: nat)
    requires Inv(sys)
    ensures Inv(Happen(sys, Lose(generation)))
  {
    FramesInAppend(sys.queue, ReceiverStopped(generation), sys.state.generation);
    QuietEventKeepsInv(sys, Happen(sys, Lose(generation)));
  }

  lemma ConsumeKeepsInv(sys: System)
    requires Inv(sys)
    ensures Inv(Happen(sys, Consume))
  {
    if sys.queue != [] && !sys.state.closed {
      if sys.queue[0].Received? {
        ReceiveKeepsInv(sys, sys.queue[0].generation, sys.queue[0].frame);
      } else {
        var shorter := sys.(queue := sys.queue[1..]);
        assert StreamsOk(shorter);
        QuietEventKeepsInv(sys, shorter);
        QuietCommandKeepsInv(shorter, sys.queue[0]);
      }
    }
  }

  lemma EventKeepsInv(sys: System, e: Event)
    requires Inv(sys)
    ensures Inv(Happen(sys, e))
  {
    match e
    case Submit(command) => SubmitKeepsInv(sys, command);
    case Read(generation, frame) => ReadKeepsInv(sys, generation, frame);
    case Lose(generation) => LoseKeepsInv(sys, generation);
    case Consume => ConsumeKeepsInv(sys);
    case Abort => CloseKeepsInv(sys);
  }

  lemma {:induction false} RunKeepsInv(sys: System, events: seq<Event>)
    requires Inv(sys)
    ensures Inv(Run(sys, events))
    decreases |events|
  {
    if events != [] {
      EventKeepsInv(sys, events[0]);
      RunKeepsInv(Happen(sys, events[0]), events[1..]);
    }
  }

  lemma FreshIsOk()
    ensures Inv(FRESH)
  {
    assert FramesIn([], 0) == [];
  }

  // ---------- the guarantees ----------

  predicate OnlyMessages(items: seq<Item>) {
    forall i :: 0 <= i < |items| ==> items[i].Message?
  }

  lemma {:induction false} KeptAreMessages(frames: seq<Frame>)
    ensures OnlyMessages(Kept(frames))
    decreases |frames|
  {
    if frames != [] {
      KeptAreMessages(frames[..|frames| - 1]);
    }
  }

  lemma {:induction false} FirstAck(seen: seq<Frame>, correlation: nat) returns (ack: nat)
    requires Acked(seen, correlation)
    ensures ack < |seen| && Replays(seen[ack], correlation)
    ensures forall i :: 0 <= i < ack ==> !Replays(seen[i], correlation)
    ensures Owned(seen, correlation) == WithoutReplays(seen[ack + 1..], correlation)
    decreases |seen|
  {
    if Replays(seen[0], correlation) {
      ack := 0;
    } else {
      AckedTail(seen, correlation);
      var later := FirstAck(seen[1..], correlation);
      ack := later + 1;
      assert seen[ack] == seen[1..][later];
      assert seen[1..][later + 1..] == seen[ack + 1..];
      forall i | 0 <= i < ack ensures !Replays(seen[i], correlation) {
        assert i > 0 ==> seen[i] == seen[1..][i - 1];
      }
    }
  }

  lemma {:induction false} NothingOwnedBeforeAck(seen: seq<Frame>, correlation: nat)
    requires !Acked(seen, correlation)
    ensures Owned(seen, correlation) == []
    decreases |seen|
  {
    if seen != [] {
      assert !Replays(seen[0], correlation);
      AckedTail(seen, correlation);
      NothingOwnedBeforeAck(seen[1..], correlation);
    }
  }

  /** The stretch of a connection a run owns: it starts right behind the acknowledgement. */
  ghost predicate OwnsStretch(stream: seq<Frame>, h: Handle, from: nat, to: nat) {
    && from <= to <= |stream|
    && (from < to ==> 0 < from && Replays(stream[from - 1], h.correlation))
  }

  /** Fenced delivery.  Whatever was interleaved, the items of a finished run are frames read
      from the one connection its query went out on, from behind the exact acknowledgement and
      in stream order, followed by one terminal marker and nothing else. */
  lemma FencedDelivery(events: seq<Event>, i: nat) returns (from: nat, to: nat)
    requires i < |Run(FRESH, events).past|
    ensures var sys := Run(FRESH, events);
      var h := sys.past[i].handle;
      && h.done
      && h.connection < |sys.streams|
      && OwnsStretch(sys.streams[h.connection], h, from, to)
      && var kept := Kept(WithoutReplays(sys.streams[h.connection][from..to], h.correlation));
         OnlyMessages(kept) && (h.items == kept + [End] || h.items == kept + [Failure, End])
  {
    FreshIsOk();
    RunKeepsInv(FRESH, events);
    var sys := Run(FRESH, events);
    assert PastOk(sys, i);
    var p := sys.past[i];
    var stream := sys.streams[p.handle.connection];
    assert sys.handled[p.handle.connection] <= stream;
    if Acked(p.seen, p.handle.correlation) {
      var ack := FirstAck(p.seen, p.handle.correlation);
      from, to := p.since + ack + 1, p.since + |p.seen|;
      assert stream[p.since..to] == p.seen;
      assert p.seen[ack] == stream[from - 1];
      assert stream[from..to] == p.seen[ack + 1..];
    } else {
      NothingOwnedBeforeAck(p.seen, p.handle.correlation);
      from, to := p.since, p.since;
    }
    KeptAreMessages(WithoutReplays(stream[from..to], p.handle.correlation));
  }

  /** Delegated work.  A run that was given its end ended on the first Result that was forced
      or found every task it had started settled; each earlier Result had a task open. */
  lemma RunEndsWhenNothingIsOpen(events: seq<Event>, i: nat)
    requires i < |Run(FRESH, events).past|
    ensures var p := Run(FRESH, events).past[i];
      var owned := Owned(p.seen, p.handle.correlation);
      && (forall j :: 0 <= j < |owned| - 1 && owned[j].result ==> !owned[j].forced && SomethingOpen(owned[..j]))
      && (p.handle.items == Kept(owned) + [End] ==>
            && owned != []
            && owned[|owned| - 1].result
            && (owned[|owned| - 1].forced || !SomethingOpen(owned[..|owned| - 1])))
  {
    FreshIsOk();
    RunKeepsInv(FRESH, events);
    var sys := Run(FRESH, events);
    assert PastOk(sys, i);
    var p := sys.past[i];
    var owned := Owned(p.seen, p.handle.correlation);
    forall j | 0 <= j < |owned| - 1 && owned[j].result ensures !owned[j].forced && SomethingOpen(owned[..j]) {
      assert !EndsRun(owned, j);
      assert Intermediate(owned, j);
    }
    if p.handle.items == Kept(owned) + [End] {
      EndIsNotFailure(Kept(owned));
      assert EndsRun(owned, |owned| - 1);
    }
  }

  lemma EndIsNotFailure(kept: seq<Item>)
    ensures kept + [End] != kept + [Failure, End]
  {
    assert |kept + [End]| != |kept + [Failure, End]|;
  }

  /** While a run is active: its connection is the current one, it has been shown everything
      the actor took from it, and it has been given exactly the reference's items so far.
      While none is active, the ledger of delegated tasks is empty. */
  lemma ActiveRunIsUpToDate(events: seq<Event>)
    ensures var sys := Run(FRESH, events);
      match sys.state.active
      case None => sys.state.inflight == {}
      case Some(h) =>
        && h.connection == sys.state.generation
        && Running(h, sys.seen, sys.state.inflight)
        && |sys.streams| == h.connection + 1
        && sys.since <= |sys.streams[h.connection]|
        && sys.streams[h.connection] ==
             sys.streams[h.connection][..sys.since] + sys.seen + FramesIn(sys.queue, h.connection)
  {
    FreshIsOk();
    RunKeepsInv(FRESH, events);
    var sys := Run(FRESH, events);
    if sys.state.active.Some? {
      var g := sys.state.generation;
      assert sys.handled[g] == sys.handled[g][..sys.since] + sys.seen;
      assert sys.streams[g][..sys.since] == sys.handled[g][..sys.since];
    }
  }

  /** What one event may do to the active run. */
  ghost predicate RunKept(sys: System, next: System) {
    && sys.past <= next.past
    && (sys.state.active.Some? && next.state.active.Some? ==>
          && next.state.generation == sys.state.generation
          && next.state.active.value.connection == sys.state.active.value.connection
          && next.state.active.value.correlation == sys.state.active.value.correlation
          && sys.state.active.value.items <= next.state.active.value.items)
    && (sys.state.active.Some? && next.state.active.None? ==>
          && |next.past| == |sys.past| + 1
          && next.past[|sys.past|].handle.correlation == sys.state.active.value.correlation
          && sys.state.active.value.items <= next.past[|sys.past|].handle.items)
  }

  lemma CommandKeepsRun(s: State, c: Command)
    requires s.active.Some? ==> !s.active.value.done
    ensures var effect := Handled(s, c);
      s.active.Some? ==>
        && effect.state.generation == s.generation
        && (effect.state.active.Some? <==> effect.ended.None?)
        && var h := if effect.ended.Some? then effect.ended.value else effect.state.active.value;
           && h.connection == s.active.value.connection && h.correlation == s.active.value.correlation
           && s.active.value.items <= h.items
  {
  }

  /** The connection never changes under an active run, and a finished one is never touched. */
  lemma ConnectionIsPinned(events: seq<Event>, e: Event)
    ensures RunKept(Run(FRESH, events), Happen(Run(FRESH, events), e))
  {
    FreshIsOk();
    RunKeepsInv(FRESH, events);
    var sys := Run(FRESH, events);
    if e.Consume? && sys.queue != [] {
      CommandKeepsRun(sys.state, sys.queue[0]);
    }
    if e.Abort? {
      CommandKeepsRun(sys.state, Close);
    }
  }
}
