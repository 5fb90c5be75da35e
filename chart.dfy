/** The chord chart of src/oligophony.js: a song (`Oligophony`) owning an
    ordered sequence of measures and newlines, its metadata, its
    transposition setting and its event registry, and the `Measure`s in
    it. */
module Chart {
  import opened Wrappers
  import opened JsArray
  import opened JsMath
  import opened Chords
  import opened Events

  const TransposeEvent := "Oligophony.transpose"
  const NewlineEvent := "Oligophony.addNewline"
  const ImportEvent := "Oligophony.import"
  const MeasureCreateEvent := "Measure.create"
  const MeasureMoveEvent := "Measure.move"

  /** The arguments of a dispatch: `{}`, `{measure: m}`, or a payload of
      some caller outside the chart. */
  datatype Args = NoArgs | MeasureArgs(measure: Measure) | OtherArgs(tag: nat)

  /** The options of `new Oligophony(options)`. */
  datatype Options = Options(timeSignature: Option<seq<int>>, transpose: Option<int>)

  /** The object given to `import`; a `None` chord entry is a null
      (newline). */
  datatype SongData = SongData(
    title: Option<string>,
    composer: Option<string>,
    timeSignature: Option<seq<int>>,
    key: Option<string>,
    chords: seq<Option<seq<string>>>)

  /** A string field of `import`'s argument counts only when present and
      non-empty (JavaScript truthiness). */
  predicate Truthy(s: Option<string>)
  {
    s.Some? && s.value != ""
  }

  /** The registry together with the log of subscriber calls. */
  datatype BusState = BusState(events: Registry<Args>, log: seq<Invocation<Args>>)

  /** `dispatchEvent(name, args)`, its calls appended to the log. */
  function Emit(b: BusState, name: string, args: Args): BusState
  {
    var d := Dispatch(b.events, name, args);
    BusState(d.db, b.log + d.invoked)
  }

  /** What constructing measure `m` does to the registry and log: it
      registers the two measure events, dispatches `Measure.move` when it
      was given an index, then dispatches `Measure.create`. */
  function MeasureAdded(b: BusState, m: Measure, moved: bool): BusState
  {
    var events := Register(Register(b.events, MeasureCreateEvent, false, NoArgs), MeasureMoveEvent, false, NoArgs);
    var b1 := BusState(events, b.log);
    var b2 := if moved then Emit(b1, MeasureMoveEvent, MeasureArgs(m)) else b1;
    Emit(b2, MeasureCreateEvent, MeasureArgs(m))
  }

  /** What one entry of `parseArray` does to the registry and log: a
      measure appended without an index, or a newline. */
  function EntryStep(b: BusState, item: Option<Measure>): BusState
  {
    match item
    case Some(m) => MeasureAdded(b, m, false)
    case None => Emit(b, NewlineEvent, NoArgs)
  }

  /** What `parseArray` does to the registry and log, given the entries it
      appended to the measure sequence. */
  function EntriesParsed(b: BusState, items: seq<Option<Measure>>): BusState
    decreases |items|
  {
    if items == [] then b
    else EntryStep(EntriesParsed(b, items[..|items| - 1]), items[|items| - 1])
  }

  /** Parsing one more entry is one more step. */
  lemma EntriesParsedSnoc(b: BusState, items: seq<Option<Measure>>, x: Option<Measure>)
    ensures EntriesParsed(b, items + [x]) == EntryStep(EntriesParsed(b, items), x)
  {
    assert (items + [x])[..|items|] == items;
  }

  /** The subscribers of `name`, none when it is not registered. */
  function FuncsOf(events: Registry<Args>, name: string): seq<SubscriberId>
  {
    if name in events then events[name].funcs else []
  }

  /** The calls `parseArray` makes for `items`: for each entry, in order,
      every `Measure.create` subscriber with the new measure, or every
      `Oligophony.addNewline` subscriber with `{}`. */
  function ParseCalls(onCreate: seq<SubscriberId>, onNewline: seq<SubscriberId>, items: seq<Option<Measure>>): seq<Invocation<Args>>
    decreases |items|
  {
    if items == [] then []
    else
      ParseCalls(onCreate, onNewline, items[..|items| - 1]) +
      match items[|items| - 1]
      case Some(m) => Fanout(onCreate, MeasureArgs(m))
      case None => Fanout(onNewline, NoArgs)
  }

  /** One step of `parseArray` keeps every event's subscribers and
      registrations, and moves no counter. */
  lemma EntryStepKeepsRegistry(b: BusState, item: Option<Measure>)
    ensures var after := EntryStep(b, item);
            && (forall n :: FuncsOf(after.events, n) == FuncsOf(b.events, n))
            && b.events.Keys <= after.events.Keys
            && (NeverCounted(b.events) ==> NeverCounted(after.events))
  {
  }

  /** One step of `parseArray` appends the calls of that entry. */
  lemma EntryStepLog(b: BusState, item: Option<Measure>)
    ensures var after := EntryStep(b, item);
            after.log == b.log + (if item.Some? then Fanout(FuncsOf(b.events, MeasureCreateEvent), MeasureArgs(item.value))
                                  else Fanout(FuncsOf(b.events, NewlineEvent), NoArgs))
  {
  }

  /** `parseArray` subscribes no one, unsubscribes no one, unregisters
      nothing and moves no counter. */
  lemma {:induction false} EntriesParsedKeepsRegistry(b: BusState, items: seq<Option<Measure>>)
    ensures var after := EntriesParsed(b, items);
            && (forall n :: FuncsOf(after.events, n) == FuncsOf(b.events, n))
            && b.events.Keys <= after.events.Keys
            && (NeverCounted(b.events) ==> NeverCounted(after.events))
    decreases |items|
  {
    if items != [] {
      var init, last := items[..|items| - 1], items[|items| - 1];
      EntriesParsedKeepsRegistry(b, init);
      EntryStepKeepsRegistry(EntriesParsed(b, init), last);
    }
  }

  /** The log `parseArray` leaves is the old log followed by one fan-out
      per entry, in the order of the entries. */
  lemma {:induction false} EntriesParsedCalls(b: BusState, items: seq<Option<Measure>>)
    ensures EntriesParsed(b, items).log
            == b.log + ParseCalls(FuncsOf(b.events, MeasureCreateEvent), FuncsOf(b.events, NewlineEvent), items)
    decreases |items|
  {
    if items != [] {
      var init, last := items[..|items| - 1], items[|items| - 1];
      var fc, fn := FuncsOf(b.events, MeasureCreateEvent), FuncsOf(b.events, NewlineEvent);
      var mid := EntriesParsed(b, init);
      EntriesParsedCalls(b, init);
      EntriesParsedKeepsRegistry(b, init);
      EntryStepLog(mid, last);
      assert FuncsOf(mid.events, MeasureCreateEvent) == fc && FuncsOf(mid.events, NewlineEvent) == fn;
    }
  }

  /** Every measure in `ms` belongs to `song`. */
  ghost predicate Owned(ms: seq<Option<Measure>>, song: Oligophony)
  {
    forall i :: 0 <= i < |ms| && ms[i].Some? ==> ms[i].value.song == song
  }

  /** No measure occurs twice in `ms` (newlines may). */
  ghost predicate Distinct(ms: seq<Option<Measure>>)
  {
    forall i, j :: 0 <= i < j < |ms| && ms[i].Some? ==> ms[i] != ms[j]
  }

  /** The same, counted: every measure in `ms` occurs exactly once. */
  ghost predicate CountedOnce(ms: seq<Option<Measure>>)
  {
    forall i :: 0 <= i < |ms| && ms[i].Some? ==> multiset(ms)[ms[i]] == 1
  }

  lemma DistinctIsCountedOnce(ms: seq<Option<Measure>>)
    ensures Distinct(ms) <==> CountedOnce(ms)
  {
    if Distinct(ms) {
      forall i | 0 <= i < |ms| && ms[i].Some?
        ensures multiset(ms)[ms[i]] == 1
      {
        var v := ms[i];
        assert ms == ms[..i] + [v] + ms[i + 1..];
        forall k | 0 <= k < i
          ensures ms[..i][k] != v
        {
          if ms[k].Some? {
            assert ms[k] != ms[i];
          }
        }
        var tail := ms[i + 1..];
        forall k | 0 <= k < |tail|
          ensures tail[k] != v
        {
          assert tail[k] == ms[i + 1 + k];
        }
        assert v !in ms[..i] && v !in tail;
      }
    }
    if CountedOnce(ms) {
      forall i, j | 0 <= i < j < |ms| && ms[i].Some?
        ensures ms[i] != ms[j]
      {
        var v := ms[i];
        assert ms == ms[..j] + ms[j..];
        assert ms[..j][i] == v;
        assert multiset(ms)[v] == multiset(ms[..j])[v] + multiset(ms[j..])[v];
        assert multiset(ms[j..])[v] == 0;
        assert ms[j..][0] == ms[j];
      }
    }
  }

  /** The song's own events are registered and no dispatch counter has
      moved. */
  ghost predicate EventsReady(events: Registry<Args>)
  {
    NeverCounted(events) && TransposeEvent in events && NewlineEvent in events && ImportEvent in events
  }

  /** Moving or inserting a measure of `song` keeps the sequence owned by
      `song` and free of repeated measures. */
  lemma RepositionKeepsSequenceValid(ms: seq<Option<Measure>>, m: Measure, index: int)
    requires Owned(ms, m.song) && Distinct(ms)
    ensures Owned(Reposition(ms, Some(m), index), m.song)
    ensures Distinct(Reposition(ms, Some(m), index))
  {
    var r := Reposition(ms, Some(m), index);
    DistinctIsCountedOnce(ms);
    assert multiset(ms)[Some(m)] <= 1 by {
      if Some(m) in ms {
        var j := IndexOf(ms, Some(m));
        assert ms[j] == Some(m);
      }
    }
    RepositionCounts(ms, Some(m), index);
    forall i | 0 <= i < |r| && r[i].Some?
      ensures r[i].value.song == m.song && multiset(r)[r[i]] == 1
    {
      if r[i] != Some(m) {
        assert r[i] in multiset(r);
        assert r[i] in ms;
        var j := IndexOf(ms, r[i]);
        assert ms[j] == r[i];
      }
    }
    DistinctIsCountedOnce(r);
  }

  /** Appending a measure that is not in the sequence yet, or a newline,
      keeps it valid. */
  lemma AppendKeepsSequenceValid(ms: seq<Option<Measure>>, song: Oligophony, x: Option<Measure>)
    requires Owned(ms, song) && Distinct(ms)
    requires x.Some? ==> x.value.song == song && x !in ms
    ensures Owned(ms + [x], song) && Distinct(ms + [x])
  {
    var r := ms + [x];
    DistinctIsCountedOnce(ms);
    forall i | 0 <= i < |r| && r[i].Some?
      ensures multiset(r)[r[i]] == 1
    {
      if i < |ms| {
        assert r[i] == ms[i];
      }
    }
    DistinctIsCountedOnce(r);
  }

  /** Inserting a newline anywhere keeps the sequence valid. */
  lemma NewlineKeepsSequenceValid(ms: seq<Option<Measure>>, song: Oligophony, index: int)
    requires Owned(ms, song) && Distinct(ms)
    ensures Owned(SpliceInsert(ms, index, None), song) && Distinct(SpliceInsert(ms, index, None))
  {
    var r := SpliceInsert(ms, index, None);
    DistinctIsCountedOnce(ms);
    forall i | 0 <= i < |r| && r[i].Some?
      ensures r[i].value.song == song && multiset(r)[r[i]] == 1
    {
      assert r[i] in multiset(r);
      assert r[i] in ms;
      var j := IndexOf(ms, r[i]);
      assert ms[j] == r[i];
    }
    DistinctIsCountedOnce(r);
  }

  /** The song: `Oligophony`. */
  class Oligophony {
    /** The chord parser and theory routines (`chordMagic`, `tonal`). */
    const lib: ChordLib
    var timeSignature: seq<int>
    var transpose: int
    var title: string
    var composer: string
    /** The original key, untouched by transposition. */
    var key: string
    /** `_eventsDB`. */
    var events: Registry<Args>
    /** The subscriber calls made so far, in order. */
    var log: seq<Invocation<Args>>
    /** Measures and newlines (`None`), in order. */
    var measures: seq<Option<Measure>>

    /** Every measure in the sequence belongs to this song and occurs once;
        no dispatch counter has moved; the song's own events are
        registered. */
    ghost predicate Valid()
      reads this
    {
      Owned(measures, this) && Distinct(measures) && EventsReady(events)
    }

    function Bus(): BusState
      reads this
    {
      BusState(events, log)
    }

    /** `new Oligophony(options)`: time signature [4, 4] and transposition
        0 unless given, empty title and composer, key "C", no measures, and
        the song's three events registered as continuous. */
    constructor (lib: ChordLib, options: Option<Options>)
      ensures Valid() && this.lib == lib
      ensures timeSignature == if options.Some? && options.value.timeSignature.Some?
                               then options.value.timeSignature.value else [4, 4]
      ensures transpose == if options.Some? && options.value.transpose.Some?
                           then options.value.transpose.value else 0
      ensures title == "" && composer == "" && key == "C"
      ensures measures == [] && log == []
      ensures events == map[TransposeEvent := NewRecord(false, NoArgs),
                            NewlineEvent := NewRecord(false, NoArgs),
                            ImportEvent := NewRecord(false, NoArgs)]
    {
      this.lib := lib;
      timeSignature := if options.Some? && options.value.timeSignature.Some?
                       then options.value.timeSignature.value else [4, 4];
      transpose := if options.Some? && options.value.transpose.Some? then options.value.transpose.value else 0;
      title := "";
      composer := "";
      key := "C";
      events := map[];
      log := [];
      measures := [];
      new;
      var _ := CreateEvent(TransposeEvent, false);
      var _ := CreateEvent(NewlineEvent, false);
      var _ := CreateEvent(ImportEvent, false);
    }

    /** The two `createEvent` calls a new measure makes: `Measure.create`
        and `Measure.move`, continuous, registered only if unknown. */
    method RegisterMeasureEvents()
      modifies this`events
      ensures old(Valid()) ==> Valid()
      ensures events == Register(Register(old(events), MeasureCreateEvent, false, NoArgs), MeasureMoveEvent, false, NoArgs)
    {
      var _ := CreateEvent(MeasureCreateEvent, false);
      var _ := CreateEvent(MeasureMoveEvent, false);
    }

    /** `createEvent(name, oneTime)`: returns the record of `name`, which
        is newly registered only if it was unknown. */
    method CreateEvent(name: string, oneTime: bool) returns (record: EventRecord<Args>)
      modifies this`events
      ensures old(Valid()) ==> Valid()
      ensures events == Register(old(events), name, oneTime, NoArgs)
      ensures record == events[name]
      ensures name in old(events) ==> record == old(events[name])
    {
      if name !in events {
        events := events[name := EventRecord([], 0, oneTime, NoArgs)];
      }
      record := events[name];
    }

    /** `onEvent(name, id)`. */
    method OnEvent(name: string, id: SubscriberId)
      modifies this`events, this`log
      ensures old(Valid()) ==> Valid()
      ensures events == Subscribe(old(events), name, id, NoArgs).db
      ensures log == old(log) + Subscribe(old(events), name, id, NoArgs).invoked
    {
      var event: EventRecord<Args>;
      if name in events {
        event := events[name];
      } else {
        event := CreateEvent(name, false);
      }
      if event.oneTime && event.dispatchCount != 0 {
        log := log + [Invocation(id, event.args)];
      } else {
        events := events[name := event.(funcs := event.funcs + [id])];
      }
      if old(NeverCounted(events)) {
        CountersStayZero(old(events), name, false, id, NoArgs, NoArgs);
      }
    }

    /** `dispatchEvent(name, args)`: the loop over the subscribers. */
    method DispatchEvent(name: string, args: Args) returns (found: bool)
      modifies this`events, this`log
      ensures old(Valid()) ==> Valid()
      ensures events == Dispatch(old(events), name, args).db
      ensures log == old(log) + Dispatch(old(events), name, args).invoked
      ensures found == Dispatch(old(events), name, args).found
    {
      if name !in events {
        return false;
      }
      var event := events[name];
      events := events[name := event.(args := args)];
      var i := 0;
      while i < |event.funcs|
        invariant 0 <= i <= |event.funcs|
        invariant log == old(log) + Fanout(event.funcs[..i], args)
        invariant events == old(events)[name := event.(args := args)]
      {
        assert event.funcs[..i + 1] == event.funcs[..i] + [event.funcs[i]];
        log := log + [Invocation(event.funcs[i], events[name].args)];
        i := i + 1;
      }
      assert event.funcs[..i] == event.funcs;
      return true;
    }

    /** `setTranspose(arg)`. */
    method SetTranspose(arg: TransposeArg)
      requires Valid()
      modifies this`transpose, this`events, this`log
      ensures Valid()
      ensures transpose == TransposeFor(lib, key, arg)
      ensures Bus() == Emit(old(Bus()), TransposeEvent, NoArgs)
    {
      match arg {
        case Semitones(n) =>
          transpose := Rem12(n);
        case KeyName(name) =>
          var origChord := lib.parse(key);
          var newChord := lib.parse(name);
          transpose := lib.semitones(origChord.root + "4", newChord.root + "4");
          if origChord.quality != newChord.quality {
            if newChord.quality == MinorQuality {
              transpose := Rem12(transpose + 3);
            } else {
              transpose := Rem12(transpose - 3);
            }
          }
      }
      var _ := DispatchEvent(TransposeEvent, NoArgs);
    }

    /** `addMeasure(chords, index)`: a `None` chord list is an empty one, a
        `None` index appends. */
    method AddMeasure(chords: Option<seq<string>>, index: Option<int>) returns (m: Measure)
      requires Valid()
      modifies this`measures, this`events, this`log
      ensures Valid() && fresh(m) && m.song == this
      ensures m.beats == Beats(lib, BeatCount(timeSignature), if chords.Some? then chords.value else [])
      ensures measures == if index.None? then old(measures) + [Some(m)]
                          else Reposition(old(measures), Some(m), index.value)
      ensures Bus() == MeasureAdded(old(Bus()), m, index.Some?)
    {
      m := new Measure(this, index, chords);
    }

    /** `addNewline(index)`: a `None` index appends. */
    method AddNewline(index: Option<int>)
      requires Valid()
      modifies this`measures, this`events, this`log
      ensures Valid()
      ensures measures == if index.None? then old(measures) + [None]
                          else SpliceInsert(old(measures), index.value, None)
      ensures Bus() == Emit(old(Bus()), NewlineEvent, NoArgs)
    {
      if index.None? {
        measures := measures + [None];
      } else {
        measures := SpliceInsert(measures, index.value, None);
      }
      var _ := DispatchEvent(NewlineEvent, NoArgs);
    }

    /** Entry `k` of `parseArray`'s argument and the sequence entry it
        produced: a newline for a null, a measure of `n` beats built from
        the chords for an array (an empty array included). */
    ghost predicate Parsed(n: nat, entry: Option<seq<string>>, slot: Option<Measure>)
    {
      && (entry.None? <==> slot.None?)
      && (entry.Some? ==> slot.value.song == this && slot.value.beats == Beats(lib, n, entry.value))
    }

    /** `after` is `before` followed by one slot per entry, each parsed
        with `n` beats per measure. */
    ghost predicate Appended(n: nat, before: seq<Option<Measure>>, after: seq<Option<Measure>>,
                             entries: seq<Option<seq<string>>>)
    {
      && |after| == |before| + |entries|
      && after[..|before|] == before
      && forall k :: 0 <= k < |entries| ==> Parsed(n, entries[k], after[|before| + k])
    }

    /** One iteration of `parseArray`: a measure for an array, a newline
        for a null, appended at the end. */
    method ParseEntry(entry: Option<seq<string>>) returns (slot: Option<Measure>)
      requires Valid()
      modifies this`measures, this`events, this`log
      ensures Valid()
      ensures measures == old(measures) + [slot]
      ensures Parsed(BeatCount(timeSignature), entry, slot)
      ensures slot.Some? ==> fresh(slot.value)
      ensures Bus() == EntryStep(old(Bus()), slot)
    {
      if entry.Some? {
        var m := AddMeasure(entry, None);
        slot := Some(m);
      } else {
        AddNewline(None);
        slot := None;
      }
    }

    /** `parseArray(entries)`. */
    method ParseArray(entries: seq<Option<seq<string>>>)
      requires Valid()
      modifies this`measures, this`events, this`log
      ensures Valid()
      ensures Appended(BeatCount(timeSignature), old(measures), measures, entries)
      ensures Bus() == EntriesParsed(old(Bus()), measures[|old(measures)|..])
    {
      ghost var bus0 := Bus();
      ghost var n := BeatCount(timeSignature);
      ghost var added: seq<Option<Measure>> := [];
      var i := 0;
      while i < |entries|
        invariant 0 <= i <= |entries| && |added| == i
        invariant Valid()
        invariant measures == old(measures) + added
        invariant forall k :: 0 <= k < i ==> Parsed(n, entries[k], added[k])
        invariant Bus() == EntriesParsed(bus0, added)
      {
        var slot := ParseEntry(entries[i]);
        EntriesParsedSnoc(bus0, added, slot);
        added := added + [slot];
        i := i + 1;
      }
      assert measures[|old(measures)|..] == added;
    }

    /** The first four lines of `import`: each header field is overwritten
        when the song gives a truthy value for it. */
    method ReadHeader(data: SongData)
      requires Valid()
      modifies this`title, this`composer, this`timeSignature, this`key
      ensures Valid()
      ensures title == if Truthy(data.title) then data.title.value else old(title)
      ensures composer == if Truthy(data.composer) then data.composer.value else old(composer)
      ensures timeSignature == if data.timeSignature.Some? then data.timeSignature.value else old(timeSignature)
      ensures key == if Truthy(data.key) then data.key.value else old(key)
    {
      if Truthy(data.title) { title := data.title.value; }
      if Truthy(data.composer) { composer := data.composer.value; }
      if data.timeSignature.Some? { timeSignature := data.timeSignature.value; }
      if Truthy(data.key) { key := data.key.value; }
    }

    /** `import(data)`. */
    method Import(data: SongData)
      requires Valid()
      modifies this`title, this`composer, this`timeSignature, this`key
      modifies this`measures, this`events, this`log
      ensures Valid()
      ensures title == if Truthy(data.title) then data.title.value else old(title)
      ensures composer == if Truthy(data.composer) then data.composer.value else old(composer)
      ensures timeSignature == if data.timeSignature.Some? then data.timeSignature.value else old(timeSignature)
      ensures key == if Truthy(data.key) then data.key.value else old(key)
      ensures Appended(BeatCount(timeSignature), old(measures), measures, data.chords)
      ensures Bus() == Emit(EntriesParsed(old(Bus()), measures[|old(measures)|..]), ImportEvent, NoArgs)
    {
      ReadHeader(data);
      ParseArray(data.chords);
      var _ := DispatchEvent(ImportEvent, NoArgs);
    }
  }

  /** The counting loop of the `Measure` constructor that fills `_beats`:
      one entry per beat of `timeSignature[0]`, a parsed chord where the
      chord text is present and non-empty, `None` elsewhere. */
  method BuildBeats(lib: ChordLib, timeSignature: seq<int>, chords: seq<string>) returns (built: seq<Option<Chord>>)
    ensures built == Beats(lib, BeatCount(timeSignature), chords)
  {
    ghost var n := BeatCount(timeSignature);
    built := [];
    var i := 0;
    while |timeSignature| > 0 && i < timeSignature[0]
      invariant 0 <= i <= n
      invariant |built| == i
      invariant forall k :: 0 <= k < i ==> built[k] == Slot(lib, chords, k)
    {
      if i < |chords| && chords[i] != "" {
        var corrected := JsText.ReplaceFirst(chords[i], "-7", "m7");
        var parsed := lib.parse(corrected);
        parsed := parsed.(raw := chords[i]);
        built := built + [Some(parsed)];
      } else {
        built := built + [None];
      }
      i := i + 1;
    }
  }

  /** A measure: `Measure`. Its beats are fixed when it is built. */
  class Measure {
    /** The song it belongs to. */
    const song: Oligophony
    /** `_beats`: a chord or `None` per beat. */
    const beats: seq<Option<Chord>>

    /** `new Measure(song, index, chords)`: builds the beats from the song's
        current time signature, then appends the measure (`None` index) or
        places it with `setIndex`, and announces it. */
    constructor (song: Oligophony, index: Option<int>, chords: Option<seq<string>>)
      requires song.Valid()
      modifies song`measures, song`events, song`log
      ensures song.Valid() && this.song == song
      ensures beats == Beats(song.lib, BeatCount(song.timeSignature), if chords.Some? then chords.value else [])
      ensures song.measures == if index.None? then old(song.measures) + [Some(this)]
                               else Reposition(old(song.measures), Some(this), index.value)
      ensures song.Bus() == MeasureAdded(old(song.Bus()), this, index.Some?)
    {
      var given := if chords.Some? then chords.value else [];
      var built := BuildBeats(song.lib, song.timeSignature, given);
      this.song := song;
      beats := built;
      new;
      song.RegisterMeasureEvents();
      Place(index);
      var _ := song.DispatchEvent(MeasureCreateEvent, MeasureArgs(this));
    }

    /** The placement step of the constructor: appended for a `None`
        index, moved there by `setIndex` otherwise. */
    method Place(index: Option<int>)
      requires song.Valid() && Some(this) !in song.measures
      modifies song`measures, song`events, song`log
      ensures song.Valid()
      ensures song.measures == if index.None? then old(song.measures) + [Some(this)]
                               else Reposition(old(song.measures), Some(this), index.value)
      ensures song.Bus() == if index.Some? then Emit(old(song.Bus()), MeasureMoveEvent, MeasureArgs(this)) else old(song.Bus())
    {
      if index.None? {
        AppendKeepsSequenceValid(song.measures, song, Some(this));
        song.measures := song.measures + [Some(this)];
      } else {
        SetIndex(index.value);
      }
    }

    /** `getBeat(beat)`: nothing for an empty or missing beat, otherwise
        the stored chord read under the song's current transposition; the
        stored chord itself is not changed. */
    function GetBeat(beat: int): (r: Option<SpelledChord>)
      reads song
      ensures r.None? <==> !(0 <= beat < |beats|) || beats[beat].None?
      ensures r.Some? ==> r.value == Spell(song.lib, beats[beat].value, song.transpose)
    {
      if 0 <= beat < |beats| && beats[beat].Some?
      then Some(Spell(song.lib, beats[beat].value, song.transpose))
      else None
    }

    /** `setIndex(index)`. */
    method SetIndex(index: int)
      requires song.Valid()
      modifies song`measures, song`events, song`log
      ensures song.Valid()
      ensures song.measures == Reposition(old(song.measures), Some(this), index)
      ensures song.Bus() == Emit(old(song.Bus()), MeasureMoveEvent, MeasureArgs(this))
    {
      var currentIndex := IndexOf(song.measures, Some(this));
      if currentIndex != -1 {
        song.measures := RemoveAt(song.measures, currentIndex);
      }
      if index > currentIndex {
        song.measures := SpliceInsert(song.measures, index - 1, Some(this));
      } else {
        song.measures := SpliceInsert(song.measures, index, Some(this));
      }
      RepositionKeepsSequenceValid(old(song.measures), this, index);
      var _ := song.DispatchEvent(MeasureMoveEvent, MeasureArgs(this));
    }

    /** `getIndex()`: the measure's position in the song, -1 when it is not
        in it. */
    function GetIndex(): (r: int)
      reads song
      ensures -1 <= r < |song.measures|
      ensures r == -1 <==> Some(this) !in song.measures
      ensures r >= 0 ==> song.measures[r] == Some(this)
    {
      IndexOf(song.measures, Some(this))
    }
  }
}
