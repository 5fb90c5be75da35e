# Oligophony chord chart, modelled in Dafny

Oligophony stores the chord data of a song. `src/oligophony.js` defines
two objects:

- A song (`Oligophony`). It holds a title, a composer, an original key, a
  time signature and a transposition setting. It owns an ordered sequence
  of measures and newlines, where a null entry is a newline. It also keeps
  a small event registry, through which other parts of the program
  subscribe to what happens to the song.
- A measure (`Measure`). It holds one parsed chord or an empty slot per
  beat, built when the measure is created. A beat is read under the song's
  current transposition.

The project models that file in imperative Dafny:

- `chart.dfy` (module `Chart`) has the class `Oligophony`, whose fields
  are the song's fields. `measures` is a `seq<Option<Measure>>`, `events`
  is a `map` from event name to record, and `log` records every subscriber
  call. It also has the class `Measure`, with its song and its beats. Each
  mutator of the source is a method with a `modifies` clause. Each method
  states its new state through the pure specifications in the other
  modules. The invariant `Oligophony.Valid` says three things: every
  measure in the sequence belongs to the song and occurs once, no dispatch
  counter has moved, and the song's own events are registered. Every
  mutator keeps it.
- `events.dfy` (module `Events`) is the registry `_eventsDB` as pure
  functions: registering, subscribing and dispatching. Lemmas state what
  each does on a known and on an unknown name.
- `jsarray.dfy` (module `JsArray`) covers the array operations the
  measure sequence relies on:
  - JavaScript's `indexOf`, which returns -1 when the element is absent;
  - the start clamping of `splice`, where a negative start counts from the
    end and a start past the end appends;
  - the remove-then-insert step of `setIndex`, as `Reposition`, with its
    properties.
- `jstext.dfy` (module `JsText`) covers `String.prototype.replace` with a
  string pattern, which replaces only the first match, and `toUpperCase`
  on one character.
- `jsmath.dfy` (module `JsMath`) has JavaScript's `%` by 12, whose result
  takes the sign of the dividend.
- `chords.dfy` (module `Chords`) covers:
  - the chord datatype;
  - how a measure's beats are built from chord texts;
  - how a beat is read and its root spelled (`rawRoot`);
  - the transposition `setTranspose` stores.
- `wrappers.dfy` has `Option`.

The chord-symbol parser (`chord-magic`) and the interval routine (`tonal`)
are outside libraries. The model receives them as a `ChordLib` value of
three functions: `parse`, `transpose` and `semitones`. Nothing is assumed
about what they compute. Subscriber callbacks are opaque subscriber
numbers. Calling a subscriber appends an `Invocation(id, args)` to the
song's `log`.

Two places where the code and its documentation disagree. The model
follows the code in both:

- `dispatchEvent` never increments `dispatchCount`, so
  `oneTime && dispatchCount !== 0` in `onEvent`
  (src/oligophony.js:158) never holds. This contradicts the promise in the
  documentation of `createEvent` (src/oligophony.js:134) that functions
  added later to a one-time event "run immediately". Instead such a
  function is queued for the next dispatch, like any other.
  `Events.CountersStayZero`, `Events.ReplayUnreachable` and
  `Events.LateOneTimeSubscriberIsQueued` state this. `Oligophony.Valid`
  carries "no counter has moved" as an invariant.
- `setTranspose` towards a key of the other quality adds 3 semitones when
  the target is `'Minor'` and subtracts 3 otherwise
  (src/oligophony.js:197-200). The comment above it (src/oligophony.js:195)
  gives C major to A minor as the example. A is 9 semitones above C, so the
  code stores (9 + 3) % 12 = 0, and relative keys (C to Am, Am to C) give
  transposition 0 (`Chords.RelativeKeysNeedNoShift`). A quality other than
  major or minor is not rejected, although the comment at line 196 says
  it is unsupported: it takes the -3 branch.

## Model

| member | source | states |
|---|---|---|
| JsArray.IndexOf | src/oligophony.js:64 | the result is -1 exactly when the value is absent; otherwise it is a position holding the value, with no earlier occurrence |
| JsArray.SpliceStart | src/oligophony.js:66-72 | where `splice` acts: in-range starts as given, starts past the end at the end, negative starts counted back from the end and clamped at 0 |
| JsArray.SpliceInsert | src/oligophony.js:68-72 | inserting with `splice(start, 0, x)` adds exactly one entry, `x`, and keeps every other entry |
| JsArray.RemoveAt | src/oligophony.js:65-67 | `splice(k, 1)` removes exactly the entry at `k` |
| JsArray.Reposition | src/oligophony.js:63-74 | after the move the value is present; the length is unchanged when it was present and one more when it was absent |
| JsArray.RepositionKeepsOthers | src/oligophony.js:63-74 | the relative order of all other entries is unchanged by a move |
| JsArray.RepositionCounts | src/oligophony.js:63-74 | a value that occurred at most once occurs exactly once afterwards; every other value occurs as often as before |
| JsArray.RepositionLandsBefore | src/oligophony.js:63-74 | a present value moved to `0 <= index <= length` lands just before the entry that was at `index` (last for `index == length`), at `index - 1` when moving forward, and `indexOf` then reports that position |
| JsArray.RepositionInPlace | src/oligophony.js:63-74 | moving a value to its own position, or one past it, leaves the array unchanged |
| JsArray.RepositionAbsentAtZero | src/oligophony.js:63-74 | an absent value placed at index 0 lands second to last, because its old position -1 makes the splice start -1 |
| JsArray.RepositionAbsentShiftsDown | src/oligophony.js:63-74 | an absent value given a positive index lands at `index - 1`, clamped to the end |
| JsText.FindFrom | src/oligophony.js:30 | the first occurrence of the pattern at or after a position, or -1 when there is none |
| JsText.ReplaceFirst | src/oligophony.js:30 | replacing with a text of the pattern's length keeps the length |
| JsText.ReplaceFirstMeaning | src/oligophony.js:30 | either the pattern is absent and the text is unchanged, or exactly its first occurrence is replaced |
| JsText.ReplaceFirstLeavesLaterMatches | src/oligophony.js:30 | "C-7-7" is corrected to "Cm7-7": a second dash-seven is left alone |
| JsText.UpperAscii | src/oligophony.js:48 | each lower-case letter becomes the capital of the same letter, every other character is kept |
| JsMath.Rem12 | src/oligophony.js:189 | JavaScript's `% 12`: strictly between -12 and 12, with the sign of the dividend, and differing from it by a multiple of 12 |
| JsMath.Rem12AgainstFloored | src/oligophony.js:198-200 | it differs from the floored remainder exactly on negative non-multiples of 12, by 12 |
| Chords.ParseChord | src/oligophony.js:28-33 | a stored chord keeps the text as typed; the parser sees the text with its first `-7` rewritten to `m7` |
| Chords.BeatCount | src/oligophony.js:27 | a measure gets `timeSignature[0]` beats, or none when that entry is missing or not positive |
| Chords.Beats | src/oligophony.js:24-37 | exactly `n` beats whatever the number of chords; beat `i` is empty exactly when `chords[i]` is missing or empty, and otherwise keeps `chords[i]` as its raw text |
| Chords.EmptyChordsGiveEmptyBeats | src/oligophony.js:25-36 | an empty chord list gives a measure of empty beats |
| Chords.Spell | src/oligophony.js:42-52 | a read keeps the stored raw text; `rawRoot` is the transposed root under a non-zero transposition, otherwise the capitalised first letter plus `#` when the text has `#` second, otherwise the stored root |
| Chords.ReadKeepsLiteral | src/oligophony.js:30-44 | under any transposition a read gives back the literal typed for that beat |
| Chords.UntransposedSharpShownAsTyped | src/oligophony.js:47-48 | untransposed, "c#m7" is shown with root "C#" |
| Chords.TransposeFor | src/oligophony.js:187-203 | an integer argument gives a value strictly between -12 and 12 that is congruent to it mod 12; a key name of the same quality gives the semitone distance between the roots unreduced; a key name of the other quality gives a value strictly between -12 and 12 |
| Chords.SemitoneTranspose | src/oligophony.js:188-189 | an integer argument is stored as its JavaScript remainder by 12 |
| Chords.KeyTranspose | src/oligophony.js:190-202 | towards a key name, the same quality stores the semitone distance unreduced; a different quality shifts it by +3 towards a minor target and by -3 otherwise, then reduces it by JavaScript's `% 12`, which keeps the sign of the shifted distance |
| Chords.RelativeKeysNeedNoShift | src/oligophony.js:190-202 | relative keys (major to the minor 9 semitones up, minor to the major 9 down) give transposition 0 |
| Events.Register | src/oligophony.js:138-148 | the name is registered afterwards, every existing record is kept as it was, and a new name gets an empty record with the given flag |
| Events.RegisterIdempotent | src/oligophony.js:138-148 | registering a name again, with either flag, changes nothing |
| Events.Subscribe | src/oligophony.js:155-164 | subscribing registers the name and changes no other event |
| Events.SubscribeUnknown | src/oligophony.js:155-164 | on an unknown name it registers a continuous event whose only subscriber is the new one, and calls nothing |
| Events.SubscribeKnown | src/oligophony.js:155-164 | on a known name it either appends the subscriber and calls nothing, or, for a one-time event with a non-zero counter, calls it once with the stored arguments without adding it |
| Events.Fanout | src/oligophony.js:176-178 | one call per subscriber, in list order, each with the given arguments |
| Events.Dispatch | src/oligophony.js:172-180 | the result is true exactly when the name is registered; no name is registered or unregistered; there is one call per subscriber of the name (none for an unknown name); a known event stores the new arguments |
| Events.DispatchUnknown | src/oligophony.js:172-174 | dispatching an unknown name returns false and changes nothing |
| Events.DispatchKnown | src/oligophony.js:172-180 | dispatching a known name returns true, stores the arguments, calls each subscriber once in order, leaves subscribers, flag and counter unchanged, and changes no other event |
| Events.CountersStayZero | src/oligophony.js:138-180 | no registry operation moves a dispatch counter off zero |
| Events.ReplayUnreachable | src/oligophony.js:155-164 | with all counters at zero, subscribing always appends and never calls |
| Events.LateOneTimeSubscriberIsQueued | src/oligophony.js:134-180 | a subscriber that comes after a one-time event was dispatched is queued, not called with the stored arguments |
| Chart.EntryStepKeepsRegistry | src/oligophony.js:247-253 | one entry of `parseArray` keeps every event's subscribers and moves no counter |
| Chart.EntryStepLog | src/oligophony.js:247-253 | one entry appends the calls of `Measure.create` for a measure, or of `Oligophony.addNewline` for a newline |
| Chart.EntriesParsedKeepsRegistry | src/oligophony.js:246-254 | `parseArray` subscribes and unregisters nothing and moves no counter |
| Chart.EntriesParsedCalls | src/oligophony.js:246-254 | the calls `parseArray` makes are one fan-out per entry, in the order of the entries |
| Chart.EntriesParsedSnoc | src/oligophony.js:246-254 | parsing one more entry is one more step after the others |
| Chart.RepositionKeepsSequenceValid | src/oligophony.js:63-74 | moving or inserting a measure keeps every measure owned by the song and occurring once |
| Chart.AppendKeepsSequenceValid | src/oligophony.js:76-77 | appending a new measure of the song, or a newline, keeps the sequence valid |
| Chart.NewlineKeepsSequenceValid | src/oligophony.js:232-237 | inserting a newline anywhere keeps the sequence valid |
| Chart.BuildBeats | src/oligophony.js:24-37 | the counting loop builds exactly the beats `Chords.Beats` describes |
| Chart.Oligophony.constructor | src/oligophony.js:100-107 | defaults: time signature [4, 4] and transposition 0 unless given, empty title and composer, key "C", no measures, events `Oligophony.transpose`, `Oligophony.addNewline` and `Oligophony.import` registered as continuous, and the invariant established |
| Chart.Oligophony.CreateEvent | src/oligophony.js:138-148 | the registry becomes `Register` of the old one, and the returned record is the existing one when the name was known |
| Chart.Oligophony.RegisterMeasureEvents | src/oligophony.js:16-17 | a new measure registers `Measure.create` and `Measure.move` as continuous events when unknown |
| Chart.Oligophony.OnEvent | src/oligophony.js:155-164 | registry and call log change as `Subscribe` says, and the invariant is kept |
| Chart.Oligophony.DispatchEvent | src/oligophony.js:172-180 | the loop over the subscribers leaves registry, call log and result as `Dispatch` says |
| Chart.Oligophony.SetTranspose | src/oligophony.js:187-205 | the stored transposition is `TransposeFor` of the original key and the argument, and `Oligophony.transpose` is dispatched |
| Chart.Oligophony.AddMeasure | src/oligophony.js:222-224 | a new measure of the song with its beats built from the current time signature, appended for a null index and otherwise moved there as `setIndex` does, with `Measure.move` (index given) and then `Measure.create` dispatched |
| Chart.Oligophony.AddNewline | src/oligophony.js:232-239 | a newline appended for a null index and otherwise spliced in at the index, then `Oligophony.addNewline` dispatched |
| Chart.Oligophony.ParseEntry | src/oligophony.js:248-252 | a truthy entry (even an empty array) appends a measure built from it, a null appends a newline |
| Chart.Oligophony.ParseArray | src/oligophony.js:246-254 | the sequence grows by one entry per element, in order, each a measure parsed with the current time signature or a newline, before it unchanged; the registry and log change as those steps say |
| Chart.Oligophony.ReadHeader | src/oligophony.js:269-272 | title, composer and key are overwritten only by non-empty strings, the time signature by any array given |
| Chart.Oligophony.Import | src/oligophony.js:268-275 | header overwritten as above, then the chords parsed with the possibly new time signature, then `Oligophony.import` dispatched; a measure's beats are a constant field, so earlier measures keep theirs |
| Chart.Measure.constructor | src/oligophony.js:13-91 | the beats come from the song's current time signature, the measure is appended (null index) or placed by `setIndex`, the invariant is kept, and the events follow `MeasureAdded` |
| Chart.Measure.Place | src/oligophony.js:76-80 | a null index appends the measure; any other index places it by `setIndex` and dispatches `Measure.move` |
| Chart.Measure.GetBeat | src/oligophony.js:39-55 | nothing for a missing or empty beat, otherwise the stored chord read by `Spell` under the song's transposition |
| Chart.Measure.SetIndex | src/oligophony.js:63-74 | the sequence becomes `Reposition` of the old one, the invariant is kept, and `Measure.move` is dispatched with the measure |
| Chart.Measure.GetIndex | src/oligophony.js:87-89 | -1 exactly when the measure is not in the song, otherwise a position holding it |

## Left out

- The outside libraries `chord-magic` (`parse`, `transpose`) and `tonal`
  (`semitones`) are parameters (`ChordLib`). The model says nothing about
  the chords they produce beyond what the chart itself does with them.
- The effects of subscriber callbacks are not modelled, and neither is
  reentrant changing of the registry during a dispatch. A subscriber is a
  number, and a call is an entry in the log.
- The `require` wiring, the `'use strict'` wrapper and `module.exports`
  are not modelled. The viewer (`src/viewer/Viewer.js`) and the player
  styles (`src/player/styles/samba.js`) are UI and audio, and they are not
  part of this model.
- An omitted (`undefined`) index for `addMeasure`, `addNewline` or the
  `Measure` constructor is not modelled. It fails the `=== null` test,
  so the else branch runs (src/oligophony.js:78-79 through `setIndex`,
  and 235-236), and JavaScript splices at `undefined`, which means
  position 0. The
  model's `None` is `null`, and `Some(i)` is an integer index.
- Non-integer numbers are not modelled: in the time signature, the index,
  or a number given to `setTranspose` or as the `transpose` option. The
  model has integers only, and a `setTranspose` argument is either an
  integer or a key name.
- Chord arrays whose entries are `null` or non-strings are not modelled.
  A chord entry is a string, and an empty string is the falsy case.
  Likewise, a `SongData.chords` entry is a chord array or a null.
- `toUpperCase` beyond ASCII is not modelled. `JsText.UpperAscii`
  capitalises `a`-`z` only.
- UTF-16 indexing is not modelled. `Chords.ExplicitSharp` reads `raw[1]`
  as the second Unicode character, while JavaScript reads the second
  UTF-16 code unit (src/oligophony.js:47-48). The two differ only when
  the chord text starts with a character outside the Basic Multilingual
  Plane.
- A parse failure is not modelled. If `chord-magic` recognises no chord,
  setting `parsed.raw` throws (src/oligophony.js:31-32). `ChordLib.parse`
  is total, so the model has no such error path.
- Event names that collide with properties of `Object.prototype` (such as
  `"constructor"`) are not modelled. The registry is a plain map, while
  `_eventsDB` is an object literal, where such names look registered.
- Oligophony.constructor: the three `createEvent` calls are made after
  all fields are set, whereas the source interleaves them with the
  definitions of its methods (src/oligophony.js:182, 226, 256). No
  observable state depends on the order.
- Oligophony.ParseArray: its ensures does not repeat, for each new entry,
  that the measure is newly allocated. `AddMeasure` and `ParseEntry` state
  freshness for each single measure.
