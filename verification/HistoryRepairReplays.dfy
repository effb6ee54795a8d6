/** Imported outputs that repeat a native one: which voice and which transcript record stand behind each, by counting. */
module HistoryRepairReplays {
  import opened Options
  import opened Filters
  import opened HistoryRepairModel
  import opened HistoryRepair

  // ---------- which native outputs count ----------

  /** The output lies inside one completed run that was scheduled, delivered or woken, under this provider session. */
  predicate VoiceFrom(opens: seq<Row>, closes: seq<Row>, owners: seq<Row>, row: Row) {
    && |opens| == 1 && |closes| == 1
    && var start, end := opens[0], closes[0];
       var scheduled := start.work.scheduled && start.work.jobId.Some?;
       && OneProvider([start, row, end] + owners)
       && (|| scheduled
           || (&& start.work.handoff && start.work.delivery.Some? && row.message.Some?
               && end.work.delivery == start.work.delivery && row.work.delivery == start.work.delivery)
           || (start.work.wake.Some? && row.message.Some?))
       && end.work.completed && OwnersWithin(owners, start, end)
       && (scheduled ==> row.work.jobId.None? || row.work.jobId == start.work.jobId)
       && (row.phase.NoPhase? ==> end.work.result == row.key)
       && start.time.Some? && row.time.Some? && end.time.Some? && start.time.value <= row.time.value <= end.time.value
       && start.number < row.number < end.number
  }

  predicate VoiceOk(w: Natives, row: Row) {
    VoiceFrom(Found(w.opens, row.run), Found(w.closes, row.run), Found(w.owners, row.run), row) && row.time.Some?
  }

  predicate IsVoice(window: seq<Row>, row: Row) {
    && VoiceFrom(OpensOf(window, |window|, row.run), ClosesOf(window, |window|, row.run), OwnersOf(window, |window|, row.run), row)
    && row.time.Some?
  }

  lemma TablesShowVoice(window: seq<Row>, w: Natives, row: Row)
    requires Working(window, |window|, w)
    ensures VoiceOk(w, row) <==> IsVoice(window, row)
  {
    assert Found(w.opens, row.run) == OpensOf(window, |window|, row.run);
    assert Found(w.closes, row.run) == ClosesOf(window, |window|, row.run);
    assert Found(w.owners, row.run) == OwnersOf(window, |window|, row.run);
  }

  predicate HeardAt(window: seq<Row>, voice: Row, second: int, key: Text) {
    IsVoice(window, voice) && Second(voice.time.value) == second && voice.key == Some(key)
  }

  predicate SaidAs(window: seq<Row>, voice: Row, message: Text) {
    IsVoice(window, voice) && voice.message == Some(message)
  }

  // ---------- which outputs of the transcript count ----------

  predicate SpokenAs(output: Output, identity: Identity, key: Text) {
    output.identity == identity && output.key == Some(key)
  }

  predicate SpokenIn(output: Output, second: int, key: Text) {
    output.key == Some(key) && output.identity.time.Some? && Second(output.identity.time.value) == second
  }

  predicate SamePlace(imported: Imported, run: Run, identity: Identity) {
    imported.replay.run == run && imported.replay.identity == identity
  }

  // ---------- when an imported output is proven ----------

  /** The phase the native output was spoken in; none means the final answer. */
  function PhaseOf(voice: Row): Phase {
    if voice.phase.NoPhase? then FinalAnswer else voice.phase
  }

  predicate Agrees(imported: Imported, voice: Row)
    requires voice.time.Some?
  {
    && (imported.phase.NoPhase? || imported.phase == PhaseOf(voice))
    && (voice.fractional ==> imported.replay.identity.time == voice.time)
  }

  /** The native output carries the message id of the transcript record: both are the only ones that do, and they read
      the same, as recorded or as displayed. */
  ghost predicate OwnedBy(window: seq<Row>, voices: seq<Row>, outputs: seq<Output>, imported: Imported, i: int, o: int)
    requires 0 <= i < |voices| && 0 <= o < |outputs|
  {
    var event := imported.replay.identity.event;
    && SaidAs(window, voices[i], event)
    && (forall j | 0 <= j < |voices| :: SaidAs(window, voices[j], event) ==> j == i)
    && (forall j | 0 <= j < |outputs| :: outputs[j].identity.event == event ==> j == o)
    && (voices[i].key == Some(imported.replay.key) || (outputs[o].display.Some? && outputs[o].display == voices[i].display))
  }

  /** Nothing native carries that id, and the native output has none: it alone has the text in that second, and no
      other record of the transcript has. */
  ghost predicate Anonymous(window: seq<Row>, voices: seq<Row>, outputs: seq<Output>, imported: Imported, second: int, i: int)
    requires 0 <= i < |voices|
  {
    && (forall j | 0 <= j < |voices| :: !SaidAs(window, voices[j], imported.replay.identity.event))
    && voices[i].message.None? && HeardAt(window, voices[i], second, imported.replay.key)
    && (forall j | 0 <= j < |voices| :: HeardAt(window, voices[j], second, imported.replay.key) ==> j == i)
    && (forall j | 0 <= j < |outputs| :: SpokenIn(outputs[j], second, imported.replay.key) ==> outputs[j].identity == imported.replay.identity)
  }

  /** Native output `i` and record `o` stand behind the imported output. */
  ghost predicate StandsOn(window: seq<Row>, voices: seq<Row>, outputs: seq<Output>, imported: Imported, batch: Batch, i: int, o: int) {
    && 0 <= i < |voices| && 0 <= o < |outputs| && imported.replay.identity.time.Some?
    && SpokenAs(outputs[o], imported.replay.identity, imported.replay.key)
    && (forall j | 0 <= j < |outputs| :: outputs[j].identity == imported.replay.identity ==> j == o)
    && Covers(batch, imported.replay.number, outputs[o].offset)
    && IsVoice(window, voices[i]) && Agrees(imported, voices[i])
    && Second(voices[i].time.value) == Second(imported.replay.identity.time.value)
    && (|| OwnedBy(window, voices, outputs, imported, i, o)
        || Anonymous(window, voices, outputs, imported, Second(imported.replay.identity.time.value), i))
  }

  predicate AtPlaceOf(imported: Imported, other: Imported) {
    SamePlace(other, imported.replay.run, imported.replay.identity)
  }

  ghost predicate OnlyImported(replays: seq<Imported>, imported: Imported) {
    forall i, j | 0 <= i < |replays| && 0 <= j < |replays| ::
      AtPlaceOf(imported, replays[i]) && AtPlaceOf(imported, replays[j]) ==> i == j
  }

  ghost predicate Replayed(window: seq<Row>, outputs: seq<Output>, imported: Imported, batch: Batch) {
    && OnlyImported(ReplaysOf(window, |window|), imported)
    && exists i, o :: StandsOn(window, VoicesOf(window, |window|), outputs, imported, batch, i, o)
  }

  // ---------- the dictionaries, as lists left by a condition ----------

  function Heard(window: seq<Row>, voices: seq<Row>, n: nat, second: int, key: Text): seq<Row>
    requires n <= |voices|
  {
    Filter(voices, n, (v: Row) => HeardAt(window, v, second, key))
  }

  function Said(window: seq<Row>, voices: seq<Row>, n: nat, message: Text): seq<Row>
    requires n <= |voices|
  {
    Filter(voices, n, (v: Row) => SaidAs(window, v, message))
  }

  function Named(outputs: seq<Output>, n: nat, identity: Identity): seq<Output>
    requires n <= |outputs|
  {
    Filter(outputs, n, (o: Output) => o.identity == identity)
  }

  function Numbered(outputs: seq<Output>, n: nat, event: Text): seq<Output>
    requires n <= |outputs|
  {
    Filter(outputs, n, (o: Output) => o.identity.event == event)
  }

  function Spoken(outputs: seq<Output>, n: nat, identity: Identity, key: Text): seq<Output>
    requires n <= |outputs|
  {
    Filter(outputs, n, (o: Output) => SpokenAs(o, identity, key))
  }

  function SameSecond(outputs: seq<Output>, n: nat, second: int, key: Text): seq<Output>
    requires n <= |outputs|
  {
    Filter(outputs, n, (o: Output) => SpokenIn(o, second, key))
  }

  function Placed(replays: seq<Imported>, n: nat, run: Run, identity: Identity): seq<Imported>
    requires n <= |replays|
  {
    Filter(replays, n, (r: Imported) => SamePlace(r, run, identity))
  }

  /** What the two collections of the native side hold. */
  datatype Voices = Voices(heard: map<(int, Text), seq<Row>>, said: map<Text, seq<Row>>)

  /** What the transcript side holds; a display is that of the last record read under its key. */
  datatype Sources = Sources(
    identities: multiset<Identity>, messages: multiset<Text>, spoken: map<(Identity, Text), seq<Output>>,
    credits: map<(int, Text), set<Identity>>)

  ghost predicate HearsAt(window: seq<Row>, voices: seq<Row>, n: nat, v: Voices, second: int, key: Text)
    requires n <= |voices|
  {
    Found(v.heard, (second, key)) == Heard(window, voices, n, second, key)
  }

  ghost predicate HearsSaid(window: seq<Row>, voices: seq<Row>, n: nat, v: Voices, message: Text)
    requires n <= |voices|
  {
    Found(v.said, message) == Said(window, voices, n, message)
  }

  ghost predicate HoldsVoices(window: seq<Row>, voices: seq<Row>, n: nat, v: Voices)
    requires n <= |voices|
  {
    && (forall second, key :: HearsAt(window, voices, n, v, second, key))
    && (forall message :: HearsSaid(window, voices, n, v, message))
  }

  function IdentitiesIn(outputs: seq<Output>): set<Identity> {
    set o | o in outputs :: o.identity
  }

  function Credited(credits: map<(int, Text), set<Identity>>, second: int, key: Text): set<Identity> {
    if (second, key) in credits then credits[(second, key)] else {}
  }

  ghost predicate HoldsNames(outputs: seq<Output>, n: nat, s: Sources)
    requires n <= |outputs|
  {
    && (forall identity :: s.identities[identity] == |Named(outputs, n, identity)|)
    && (forall event :: s.messages[event] == |Numbered(outputs, n, event)|)
  }

  ghost predicate HoldsTexts(outputs: seq<Output>, n: nat, s: Sources)
    requires n <= |outputs|
  {
    && (forall identity, key :: Found(s.spoken, (identity, key)) == Spoken(outputs, n, identity, key))
    && (forall second, key :: Credited(s.credits, second, key) == IdentitiesIn(SameSecond(outputs, n, second, key)))
  }

  // ---------- filling them ----------

  method CollectVoices(w: Natives, ghost window: seq<Row>) returns (v: Voices)
    requires Working(window, |window|, w)
    ensures HoldsVoices(window, w.voices, |w.voices|, v)
  {
    forall i | 0 <= i < |w.voices| ensures Shown(window, w, i) {
      TablesShowVoice(window, w, w.voices[i]);
    }
    v := CollectShown(w, window);
  }

  /** The tables judge this output as the window does. */
  ghost predicate Shown(window: seq<Row>, w: Natives, i: int)
    requires 0 <= i < |w.voices|
  {
    VoiceOk(w, w.voices[i]) == IsVoice(window, w.voices[i])
  }

  method CollectShown(w: Natives, ghost window: seq<Row>) returns (v: Voices)
    requires forall i :: 0 <= i < |w.voices| ==> Shown(window, w, i)
    ensures HoldsVoices(window, w.voices, |w.voices|, v)
  {
    v := Voices(map[], map[]);
    NothingHeard(window, w.voices);
    var n := 0;
    while n < |w.voices|
      invariant n <= |w.voices| && HoldsVoices(window, w.voices, n, v)
    {
      v := CollectVoice(w, v, n, window);
      n := n + 1;
    }
  }

  method CollectVoice(w: Natives, v: Voices, n: nat, ghost window: seq<Row>) returns (after: Voices)
    requires n < |w.voices| && Shown(window, w, n) && HoldsVoices(window, w.voices, n, v)
    ensures HoldsVoices(window, w.voices, n + 1, after)
  {
    var row := w.voices[n];
    var ok := VoiceOk(w, row);
    after := Collected(v, row, ok);
    VoiceHeld(window, w.voices, n, v, after, ok);
  }

  lemma NothingHeard(window: seq<Row>, voices: seq<Row>)
    ensures HoldsVoices(window, voices, 0, Voices(map[], map[]))
  {
  }

  /** Both collections after one more native output, when it counts at all. */
  function Collected(v: Voices, row: Row, ok: bool): Voices
    requires ok ==> row.time.Some?
  {
    Voices(if ok && row.key.Some? then Appended(v.heard, (Second(row.time.value), row.key.value), row) else v.heard,
           if ok && row.message.Some? then Appended(v.said, row.message.value, row) else v.said)
  }

  lemma HeardGrows(window: seq<Row>, voices: seq<Row>, n: nat, second: int, key: Text)
    requires n < |voices|
    ensures Heard(window, voices, n + 1, second, key)
         == Heard(window, voices, n, second, key) + if HeardAt(window, voices[n], second, key) then [voices[n]] else []
  {
  }

  lemma SaidGrows(window: seq<Row>, voices: seq<Row>, n: nat, message: Text)
    requires n < |voices|
    ensures Said(window, voices, n + 1, message)
         == Said(window, voices, n, message) + if SaidAs(window, voices[n], message) then [voices[n]] else []
  {
  }

  lemma VoiceHeld(window: seq<Row>, voices: seq<Row>, n: nat, v: Voices, after: Voices, ok: bool)
    requires n < |voices| && HoldsVoices(window, voices, n, v) && ok == IsVoice(window, voices[n])
    requires after == Collected(v, voices[n], ok)
    ensures HoldsVoices(window, voices, n + 1, after)
  {
    var row, more := voices[n], n + 1;
    forall second, key ensures HearsAt(window, voices, more, after, second, key) {
      assert HearsAt(window, voices, n, v, second, key);
      HeardGrows(window, voices, n, second, key);
      if ok && row.key.Some? {
        FoundAfter(v.heard, (Second(row.time.value), row.key.value), row, (second, key));
      }
    }
    forall message ensures HearsSaid(window, voices, more, after, message) {
      assert HearsSaid(window, voices, n, v, message);
      SaidGrows(window, voices, n, message);
      if ok && row.message.Some? {
        FoundAfter(v.said, row.message.value, row, message);
      }
    }
  }

  method ReadOutput(s: Sources, output: Output) returns (after: Sources)
    ensures after.identities == s.identities + multiset{output.identity} && after.messages == s.messages + multiset{output.identity.event}
    ensures after.spoken == if output.key.Some? then Appended(s.spoken, (output.identity, output.key.value), output) else s.spoken
    ensures after.credits ==
      if output.key.Some? && output.identity.time.Some?
      then var place := (Second(output.identity.time.value), output.key.value);
           s.credits[place := Credited(s.credits, place.0, place.1) + {output.identity}]
      else s.credits
  {
    after := s.(identities := s.identities + multiset{output.identity}, messages := s.messages + multiset{output.identity.event});
    if output.key.Some? {
      after := after.(spoken := Appended(s.spoken, (output.identity, output.key.value), output));
      if output.identity.time.Some? {
        var place := (Second(output.identity.time.value), output.key.value);
        after := after.(credits := s.credits[place := Credited(s.credits, place.0, place.1) + {output.identity}]);
      }
    }
  }

  lemma OutputsNamed(outputs: seq<Output>, n: nat, s: Sources, after: Sources)
    requires n < |outputs| && HoldsNames(outputs, n, s)
    requires after.identities == s.identities + multiset{outputs[n].identity} && after.messages == s.messages + multiset{outputs[n].identity.event}
    ensures HoldsNames(outputs, n + 1, after)
  {
  }

  lemma OutputsSpoken(outputs: seq<Output>, n: nat, s: Sources, after: Sources)
    requires n < |outputs| && HoldsTexts(outputs, n, s)
    requires var output := outputs[n];
      && after.spoken == (if output.key.Some? then Appended(s.spoken, (output.identity, output.key.value), output) else s.spoken)
      && after.credits == (
           if output.key.Some? && output.identity.time.Some?
           then var place := (Second(output.identity.time.value), output.key.value);
                s.credits[place := Credited(s.credits, place.0, place.1) + {output.identity}]
           else s.credits)
    ensures HoldsTexts(outputs, n + 1, after)
  {
    var output := outputs[n];
    forall identity, key ensures Found(after.spoken, (identity, key)) == Spoken(outputs, n + 1, identity, key) {
    }
    forall second, key ensures Credited(after.credits, second, key) == IdentitiesIn(SameSecond(outputs, n + 1, second, key)) {
      var before := SameSecond(outputs, n, second, key);
      if SpokenIn(output, second, key) {
        assert SameSecond(outputs, n + 1, second, key) == before + [output];
        assert IdentitiesIn(before + [output]) == IdentitiesIn(before) + {output.identity};
      }
    }
  }

  /** The transcript's outputs; nothing when there are too many to hold. */
  method ReadOutputs(outputs: seq<Output>) returns (sources: Option<Sources>)
    ensures sources.Some? ==> HoldsNames(outputs, |outputs|, sources.value) && HoldsTexts(outputs, |outputs|, sources.value)
  {
    var s := Sources(multiset{}, multiset{}, map[], map[]);
    for n := 0 to |outputs|
      invariant HoldsNames(outputs, n, s) && HoldsTexts(outputs, n, s)
    {
      var after := ReadOutput(s, outputs[n]);
      OutputsNamed(outputs, n, s, after);
      OutputsSpoken(outputs, n, s, after);
      s := after;
      if |set identity | identity in s.identities| + |s.spoken| > MAX_KEYS {
        return None;
      }
    }
    return Some(s);
  }

  method CountPlaces(replays: seq<Imported>) returns (counts: multiset<(Run, Identity)>)
    ensures forall run, identity :: counts[(run, identity)] == |Placed(replays, |replays|, run, identity)|
  {
    counts := multiset{};
    for n := 0 to |replays|
      invariant forall run, identity :: counts[(run, identity)] == |Placed(replays, n, run, identity)|
    {
      counts := counts + multiset{(replays[n].replay.run, replays[n].replay.identity)};
    }
  }

  // ---------- the decision ----------

  /** The display under which the transcript's text is also known. */
  function Canonical(s: Sources, identity: Identity, key: Text): Option<Text> {
    var spoken := Found(s.spoken, (identity, key));
    if spoken == [] then None else spoken[|spoken| - 1].display
  }

  /** The native outputs that may stand behind the imported one: its owner by message id, or else those of the same
      text and second. */
  function Matched(v: Voices, s: Sources, imported: Imported): seq<Row>
    requires imported.replay.identity.time.Some?
  {
    var identity, key := imported.replay.identity, imported.replay.key;
    var second := Second(identity.time.value);
    var owned := Found(v.said, identity.event);
    if owned == [] then Found(v.heard, (second, key))
    else if && |owned| == 1 && s.messages[identity.event] == 1 && owned[0].time.Some? && Second(owned[0].time.value) == second
            && (|| owned[0].key == Some(key)
                || (Canonical(s, identity, key).Some? && Canonical(s, identity, key) == owned[0].display))
    then owned else []
  }

  predicate Decided(v: Voices, s: Sources, counts: multiset<(Run, Identity)>, imported: Imported, batch: Batch) {
    var identity, key := imported.replay.identity, imported.replay.key;
    && identity.time.Some?
    && var matched, spoken := Matched(v, s, imported), Found(s.spoken, (identity, key));
       && |matched| == 1 && |spoken| == 1 && s.identities[identity] == 1 && counts[(imported.replay.run, identity)] == 1
       && var voice := matched[0];
          && voice.time.Some? && Agrees(imported, voice)
          && (voice.message.None? || voice.message == Some(identity.event))
          && (voice.message.None? ==> |Credited(s.credits, Second(identity.time.value), key)| == 1)
          && Covers(batch, imported.replay.number, spoken[0].offset)
  }

  ghost predicate Holds(window: seq<Row>, voices: seq<Row>, outputs: seq<Output>, v: Voices, s: Sources) {
    HoldsVoices(window, voices, |voices|, v) && HoldsNames(outputs, |outputs|, s) && HoldsTexts(outputs, |outputs|, s)
  }

  lemma PlacedOnce(replays: seq<Imported>, imported: Imported)
    requires imported in replays
    ensures |Placed(replays, |replays|, imported.replay.run, imported.replay.identity)| == 1 <==> OnlyImported(replays, imported)
  {
    var run, identity := imported.replay.run, imported.replay.identity;
    var p := (r: Imported) => SamePlace(r, run, identity);
    OneLeft(replays, |replays|, p);
    var i :| 0 <= i < |replays| && replays[i] == imported;
    assert forall j | 0 <= j < |replays| :: p(replays[j]) == AtPlaceOf(imported, replays[j]);
    if OnlyImported(replays, imported) {
      assert AtPlaceOf(imported, replays[i]);
      assert OnlyAt(replays, |replays|, p, i);
    }
    if k :| OnlyAt(replays, |replays|, p, k) {
      forall a, b | 0 <= a < |replays| && 0 <= b < |replays|
        ensures AtPlaceOf(imported, replays[a]) && AtPlaceOf(imported, replays[b]) ==> a == b
      {
        assert p(replays[a]) == AtPlaceOf(imported, replays[a]) && p(replays[b]) == AtPlaceOf(imported, replays[b]);
      }
    }
  }

  /** The transcript holds one record of this identity, and it reads so. */
  ghost predicate OnlySpoken(outputs: seq<Output>, identity: Identity, key: Text, o: int) {
    && 0 <= o < |outputs| && SpokenAs(outputs[o], identity, key)
    && (forall j | 0 <= j < |outputs| :: outputs[j].identity == identity ==> j == o)
  }

  lemma SpokenOnce(outputs: seq<Output>, s: Sources, identity: Identity, key: Text)
    requires HoldsNames(outputs, |outputs|, s) && HoldsTexts(outputs, |outputs|, s)
    ensures |Found(s.spoken, (identity, key))| == 1 && s.identities[identity] == 1 <==> exists o :: OnlySpoken(outputs, identity, key, o)
    ensures forall o :: OnlySpoken(outputs, identity, key, o) ==> Found(s.spoken, (identity, key)) == [outputs[o]]
  {
    var p, q := (o: Output) => SpokenAs(o, identity, key), (o: Output) => o.identity == identity;
    OneLeft(outputs, |outputs|, p);
    OneLeft(outputs, |outputs|, q);
    assert Found(s.spoken, (identity, key)) == Filter(outputs, |outputs|, p);
    assert s.identities[identity] == |Filter(outputs, |outputs|, q)|;
    if |Found(s.spoken, (identity, key))| == 1 && s.identities[identity] == 1 {
      var o :| OnlyAt(outputs, |outputs|, p, o);
      var k :| OnlyAt(outputs, |outputs|, q, k);
      assert q(outputs[o]);
      forall j | 0 <= j < |outputs| ensures outputs[j].identity == identity ==> j == o {
        assert q(outputs[j]) == (outputs[j].identity == identity);
      }
      assert OnlySpoken(outputs, identity, key, o);
    }
    forall o | OnlySpoken(outputs, identity, key, o)
      ensures Found(s.spoken, (identity, key)) == [outputs[o]] && s.identities[identity] == 1
    {
      assert OnlyAt(outputs, |outputs|, p, o) && OnlyAt(outputs, |outputs|, q, o);
    }
  }

  lemma NumberedOnce(outputs: seq<Output>, s: Sources, event: Text, o: int)
    requires HoldsNames(outputs, |outputs|, s) && 0 <= o < |outputs| && outputs[o].identity.event == event
    ensures s.messages[event] == 1 <==> forall j | 0 <= j < |outputs| :: outputs[j].identity.event == event ==> j == o
  {
    var p := (o: Output) => o.identity.event == event;
    OneLeft(outputs, |outputs|, p);
    assert s.messages[event] == |Filter(outputs, |outputs|, p)|;
    if forall j | 0 <= j < |outputs| :: outputs[j].identity.event == event ==> j == o {
      assert OnlyAt(outputs, |outputs|, p, o);
    }
    if s.messages[event] == 1 {
      var k :| OnlyAt(outputs, |outputs|, p, k);
      forall j | 0 <= j < |outputs| ensures outputs[j].identity.event == event ==> j == o {
        assert p(outputs[j]) == (outputs[j].identity.event == event) && p(outputs[o]);
      }
    }
  }

  lemma CreditedOnce(outputs: seq<Output>, s: Sources, second: int, key: Text, o: int)
    requires HoldsTexts(outputs, |outputs|, s) && 0 <= o < |outputs| && SpokenIn(outputs[o], second, key)
    ensures |Credited(s.credits, second, key)| == 1
       <==> forall j | 0 <= j < |outputs| :: SpokenIn(outputs[j], second, key) ==> outputs[j].identity == outputs[o].identity
  {
    var p := (x: Output) => SpokenIn(x, second, key);
    var left := Filter(outputs, |outputs|, p);
    var credited := Credited(s.credits, second, key);
    assert credited == IdentitiesIn(left);
    forall x ensures x in left <==> exists j :: 0 <= j < |outputs| && p(outputs[j]) && outputs[j] == x {
      LeftIsPicked(outputs, |outputs|, p, x);
    }
    assert p(outputs[o]);
    assert outputs[o] in left && outputs[o].identity in credited;
    if forall j | 0 <= j < |outputs| :: SpokenIn(outputs[j], second, key) ==> outputs[j].identity == outputs[o].identity {
      assert credited == {outputs[o].identity};
    }
    if |credited| == 1 {
      assert |credited - {outputs[o].identity}| == 0;
      forall j | 0 <= j < |outputs| && SpokenIn(outputs[j], second, key) ensures outputs[j].identity == outputs[o].identity {
        assert p(outputs[j]) && outputs[j] in left && outputs[j].identity in credited;
      }
    }
  }

  ghost predicate OnlySaid(window: seq<Row>, voices: seq<Row>, message: Text, i: int) {
    && 0 <= i < |voices| && SaidAs(window, voices[i], message)
    && (forall j | 0 <= j < |voices| :: SaidAs(window, voices[j], message) ==> j == i)
  }

  ghost predicate OnlyHeard(window: seq<Row>, voices: seq<Row>, second: int, key: Text, i: int) {
    && 0 <= i < |voices| && HeardAt(window, voices[i], second, key)
    && (forall j | 0 <= j < |voices| :: HeardAt(window, voices[j], second, key) ==> j == i)
  }

  lemma SaidOnce(window: seq<Row>, voices: seq<Row>, v: Voices, message: Text)
    requires HoldsVoices(window, voices, |voices|, v)
    ensures |Found(v.said, message)| == 1 <==> exists i :: OnlySaid(window, voices, message, i)
    ensures forall i :: OnlySaid(window, voices, message, i) ==> Found(v.said, message) == [voices[i]]
    ensures Found(v.said, message) == [] <==> forall j | 0 <= j < |voices| :: !SaidAs(window, voices[j], message)
  {
    var p := (r: Row) => SaidAs(window, r, message);
    OneLeft(voices, |voices|, p);
    NoneLeft(voices, |voices|, p);
    assert HearsSaid(window, voices, |voices|, v, message);
    assert Found(v.said, message) == Filter(voices, |voices|, p);
    forall i ensures OnlySaid(window, voices, message, i) <==> OnlyAt(voices, |voices|, p, i) {
      assert forall j | 0 <= j < |voices| :: p(voices[j]) == SaidAs(window, voices[j], message);
    }
    if |Found(v.said, message)| == 1 {
      var i :| OnlyAt(voices, |voices|, p, i);
      assert OnlySaid(window, voices, message, i);
    }
  }

  lemma HeardOnce(window: seq<Row>, voices: seq<Row>, v: Voices, second: int, key: Text)
    requires HoldsVoices(window, voices, |voices|, v)
    ensures |Found(v.heard, (second, key))| == 1 <==> exists i :: OnlyHeard(window, voices, second, key, i)
    ensures forall i :: OnlyHeard(window, voices, second, key, i) ==> Found(v.heard, (second, key)) == [voices[i]]
  {
    var p := (r: Row) => HeardAt(window, r, second, key);
    OneLeft(voices, |voices|, p);
    assert HearsAt(window, voices, |voices|, v, second, key);
    assert Found(v.heard, (second, key)) == Filter(voices, |voices|, p);
    forall i ensures OnlyHeard(window, voices, second, key, i) <==> OnlyAt(voices, |voices|, p, i) {
      assert forall j | 0 <= j < |voices| :: p(voices[j]) == HeardAt(window, voices[j], second, key);
    }
    if |Found(v.heard, (second, key))| == 1 {
      var i :| OnlyAt(voices, |voices|, p, i);
      assert OnlyHeard(window, voices, second, key, i);
    }
  }

  /** Given the one record of the identity, the native side is decided by which output is left to match. */
  ghost predicate VoiceDecides(window: seq<Row>, voices: seq<Row>, outputs: seq<Output>, v: Voices, s: Sources, imported: Imported, i: int, o: int)
    requires 0 <= i < |voices| && 0 <= o < |outputs| && imported.replay.identity.time.Some?
  {
    var second := Second(imported.replay.identity.time.value);
    && IsVoice(window, voices[i]) && Agrees(imported, voices[i]) && Second(voices[i].time.value) == second
    && (OwnedBy(window, voices, outputs, imported, i, o) || Anonymous(window, voices, outputs, imported, second, i))
  }

  predicate MatchDecides(v: Voices, s: Sources, imported: Imported)
    requires imported.replay.identity.time.Some?
  {
    var matched := Matched(v, s, imported);
    && |matched| == 1
    && var voice := matched[0];
       && voice.time.Some? && Agrees(imported, voice)
       && (voice.message.None? || voice.message == Some(imported.replay.identity.event))
       && (voice.message.None? ==> |Credited(s.credits, Second(imported.replay.identity.time.value), imported.replay.key)| == 1)
  }

  lemma OwnedDecides(window: seq<Row>, voices: seq<Row>, outputs: seq<Output>, v: Voices, s: Sources, imported: Imported, o: int)
    requires Holds(window, voices, outputs, v, s) && imported.replay.identity.time.Some?
    requires OnlySpoken(outputs, imported.replay.identity, imported.replay.key, o)
    requires Found(v.said, imported.replay.identity.event) != []
    ensures MatchDecides(v, s, imported)
       <==> exists i :: 0 <= i < |voices| && VoiceDecides(window, voices, outputs, v, s, imported, i, o)
  {
    var event := imported.replay.identity.event;
    SaidOnce(window, voices, v, event);
    NumberedOnce(outputs, s, event, o);
    SpokenOnce(outputs, s, imported.replay.identity, imported.replay.key);
    assert Canonical(s, imported.replay.identity, imported.replay.key) == outputs[o].display;
    if MatchDecides(v, s, imported) {
      var i :| OnlySaid(window, voices, event, i);
      assert OwnedBy(window, voices, outputs, imported, i, o);
      assert VoiceDecides(window, voices, outputs, v, s, imported, i, o);
    }
    if i :| 0 <= i < |voices| && VoiceDecides(window, voices, outputs, v, s, imported, i, o) {
      assert OwnedBy(window, voices, outputs, imported, i, o);
      assert OnlySaid(window, voices, event, i);
    }
  }

  lemma AnonymousDecides(window: seq<Row>, voices: seq<Row>, outputs: seq<Output>, v: Voices, s: Sources, imported: Imported, o: int)
    requires Holds(window, voices, outputs, v, s) && imported.replay.identity.time.Some?
    requires OnlySpoken(outputs, imported.replay.identity, imported.replay.key, o)
    requires Found(v.said, imported.replay.identity.event) == []
    ensures MatchDecides(v, s, imported)
       <==> exists i :: 0 <= i < |voices| && VoiceDecides(window, voices, outputs, v, s, imported, i, o)
  {
    var event, key := imported.replay.identity.event, imported.replay.key;
    var second := Second(imported.replay.identity.time.value);
    SaidOnce(window, voices, v, event);
    HeardOnce(window, voices, v, second, key);
    CreditedOnce(outputs, s, second, key, o);
    if MatchDecides(v, s, imported) {
      var i :| OnlyHeard(window, voices, second, key, i);
      assert !SaidAs(window, voices[i], event);
      assert Anonymous(window, voices, outputs, imported, second, i);
      assert VoiceDecides(window, voices, outputs, v, s, imported, i, o);
    }
    if i :| 0 <= i < |voices| && VoiceDecides(window, voices, outputs, v, s, imported, i, o) {
      assert Anonymous(window, voices, outputs, imported, second, i);
      assert OnlyHeard(window, voices, second, key, i);
    }
  }

  /** All the counts are as asked exactly when one native output and one record stand behind the imported output. */
  lemma DecidedExactlyWhenReplayed(window: seq<Row>, outputs: seq<Output>, v: Voices, s: Sources, counts: multiset<(Run, Identity)>,
                                   imported: Imported, batch: Batch)
    requires Holds(window, VoicesOf(window, |window|), outputs, v, s) && imported in ReplaysOf(window, |window|)
    requires counts[(imported.replay.run, imported.replay.identity)]
          == |Placed(ReplaysOf(window, |window|), |ReplaysOf(window, |window|)|, imported.replay.run, imported.replay.identity)|
    ensures Decided(v, s, counts, imported, batch) <==> Replayed(window, outputs, imported, batch)
  {
    var voices := VoicesOf(window, |window|);
    var identity, key := imported.replay.identity, imported.replay.key;
    PlacedOnce(ReplaysOf(window, |window|), imported);
    SpokenOnce(outputs, s, identity, key);
    if identity.time.Some? {
      if o :| OnlySpoken(outputs, identity, key, o) {
        if Found(v.said, identity.event) == [] {
          AnonymousDecides(window, voices, outputs, v, s, imported, o);
        } else {
          OwnedDecides(window, voices, outputs, v, s, imported, o);
        }
        StandsOnExactlyWhen(window, voices, outputs, v, s, imported, batch, o);
      }
    }
    if i, o :| StandsOn(window, voices, outputs, imported, batch, i, o) {
      assert OnlySpoken(outputs, identity, key, o);
    }
  }

  lemma StandsOnExactlyWhen(window: seq<Row>, voices: seq<Row>, outputs: seq<Output>, v: Voices, s: Sources, imported: Imported, batch: Batch, o: int)
    requires imported.replay.identity.time.Some? && OnlySpoken(outputs, imported.replay.identity, imported.replay.key, o)
    ensures (exists i, other :: StandsOn(window, voices, outputs, imported, batch, i, other))
       <==> Covers(batch, imported.replay.number, outputs[o].offset)
            && exists i :: 0 <= i < |voices| && VoiceDecides(window, voices, outputs, v, s, imported, i, o)
  {
    if i :| 0 <= i < |voices| && VoiceDecides(window, voices, outputs, v, s, imported, i, o)
            && Covers(batch, imported.replay.number, outputs[o].offset) {
      assert StandsOn(window, voices, outputs, imported, batch, i, o);
    }
    if i, other :| StandsOn(window, voices, outputs, imported, batch, i, other) {
      assert other == o;
      assert VoiceDecides(window, voices, outputs, v, s, imported, i, o);
    }
  }

  /** `_AssistantReplays.prove`: exactly the imported outputs that are replayed; nothing when the transcript has too many. */
  method ProveReplays(t: Tables, outputs: seq<Output>, eligible: map<Run, Batch>, ghost window: seq<Row>) returns (proven: Option<set<Replay>>)
    requires Working(window, |window|, t.work) && t.replays == ReplaysOf(window, |window|)
    ensures proven.Some? ==> forall replay :: replay in proven.value <==>
              exists r: Imported :: r in t.replays && r.replay == replay && replay.run in eligible
                && Replayed(window, outputs, r, eligible[replay.run])
  {
    var sources := ReadOutputs(outputs);
    if sources.None? {
      return None;
    }
    var voices := CollectVoices(t.work, window);
    var counts := CountPlaces(t.replays);
    var found := DecideReplays(t.replays, voices, sources.value, counts, eligible, window, outputs);
    return Some(found);
  }

  method DecideReplays(replays: seq<Imported>, v: Voices, s: Sources, counts: multiset<(Run, Identity)>, eligible: map<Run, Batch>,
                       ghost window: seq<Row>, ghost outputs: seq<Output>)
    returns (proven: set<Replay>)
    requires Holds(window, VoicesOf(window, |window|), outputs, v, s) && replays == ReplaysOf(window, |window|)
    requires forall run, identity :: counts[(run, identity)] == |Placed(replays, |replays|, run, identity)|
    ensures forall replay :: replay in proven <==>
              exists r: Imported :: r in replays && r.replay == replay && replay.run in eligible
                && Replayed(window, outputs, r, eligible[replay.run])
  {
    proven := {};
    for n := 0 to |replays|
      invariant forall replay :: replay in proven <==>
                  exists i :: 0 <= i < n && replays[i].replay == replay && replay.run in eligible
                    && Replayed(window, outputs, replays[i], eligible[replay.run])
    {
      var imported := replays[n];
      if imported.replay.run in eligible {
        DecidedExactlyWhenReplayed(window, outputs, v, s, counts, imported, eligible[imported.replay.run]);
        if Decided(v, s, counts, imported, eligible[imported.replay.run]) {
          proven := proven + {imported.replay};
        }
      }
    }
  }
}
