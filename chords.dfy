/** Chords as the chart stores and reads them (src/oligophony.js:25-56,
    187-203). The chord-symbol parser and the music-theory routines are
    outside libraries (`chord-magic`, `tonal`); they are passed in as a
    `ChordLib` value and nothing is assumed about what they compute. */
module Chords {
  import opened Wrappers
  import opened JsText
  import opened JsMath

  /** A parsed chord: its root spelling, its quality (`"Major"`,
      `"Minor"`, ...) and the literal text the user typed. */
  datatype Chord = Chord(root: string, quality: string, raw: string)

  /** The outside routines: `chordMagic.parse`, `chordMagic.transpose` and
      `tonal.semitones`. */
  datatype ChordLib = ChordLib(
    parse: string -> Chord,
    transpose: (Chord, int) -> Chord,
    semitones: (string, string) -> int)

  /** A chord as a beat read hands it out: the transposed chord and the
      root spelling to display. */
  datatype SpelledChord = SpelledChord(chord: Chord, rawRoot: string)

  /** Parses one beat's text. The parser does not know the dash notation
      for minor sevenths, so its input has the first `-7` rewritten to
      `m7`; the stored chord keeps the text as typed. */
  function ParseChord(lib: ChordLib, text: string): (c: Chord)
    ensures c.raw == text
    ensures c.(raw := "") == lib.parse(ReplaceFirst(text, "-7", "m7")).(raw := "")
  {
    lib.parse(ReplaceFirst(text, "-7", "m7")).(raw := text)
  }

  /** The number of beats a new measure gets from the time signature: its
      first entry, no beat when that is missing or not positive (the loop
      `i < timeSignature[0]` then never runs). */
  function BeatCount(timeSignature: seq<int>): (n: nat)
    ensures |timeSignature| > 0 && timeSignature[0] > 0 ==> n == timeSignature[0]
    ensures |timeSignature| == 0 || timeSignature[0] <= 0 ==> n == 0
  {
    if |timeSignature| == 0 || timeSignature[0] < 0 then 0 else timeSignature[0]
  }

  /** The content of beat `i` of a measure built from `chords`. */
  function Slot(lib: ChordLib, chords: seq<string>, i: nat): Option<Chord>
  {
    if i < |chords| && chords[i] != "" then Some(ParseChord(lib, chords[i])) else None
  }

  /** The beats of a new measure: exactly `n` of them whatever the number
      of chords given; beat `i` is empty exactly when `chords[i]` is
      missing or empty, and otherwise keeps `chords[i]` as its raw text. */
  function Beats(lib: ChordLib, n: nat, chords: seq<string>): (b: seq<Option<Chord>>)
    ensures |b| == n
    ensures forall i :: 0 <= i < n ==> (b[i].None? <==> i >= |chords| || chords[i] == "")
    ensures forall i :: 0 <= i < n && b[i].Some? ==> b[i].value.raw == chords[i]
  {
    seq(n, i requires 0 <= i < n => Slot(lib, chords, i))
  }

  /** An empty chord list still makes a measure, with every beat empty. */
  lemma EmptyChordsGiveEmptyBeats(lib: ChordLib, n: nat)
    ensures Beats(lib, n, []) == seq(n, i => None)
  {
  }

  /** The text has an explicit sharp as its second character. */
  predicate ExplicitSharp(raw: string)
  {
    |raw| > 1 && raw[1] == '#'
  }

  /** Reads a stored chord under transposition `t`. */
  function Spell(lib: ChordLib, stored: Chord, t: int): (r: SpelledChord)
    ensures r.chord.raw == stored.raw
    ensures r.chord.(raw := "") == lib.transpose(stored, t).(raw := "")
    ensures t != 0 ==> r.rawRoot == r.chord.root
    ensures t == 0 && ExplicitSharp(stored.raw) ==> r.rawRoot == [UpperAscii(stored.raw[0]), '#']
    ensures t == 0 && !ExplicitSharp(stored.raw) ==> r.rawRoot == stored.root
  {
    var out := lib.transpose(stored, t).(raw := stored.raw);
    var rawRoot :=
      if t != 0 then out.root
      else if ExplicitSharp(stored.raw) then [UpperAscii(stored.raw[0]), '#']
      else stored.root;
    SpelledChord(out, rawRoot)
  }

  /** Whatever the transposition, a beat read gives back the literal the
      user typed for that beat. */
  lemma ReadKeepsLiteral(lib: ChordLib, n: nat, chords: seq<string>, i: nat, t: int)
    requires i < n && i < |chords| && chords[i] != ""
    ensures Beats(lib, n, chords)[i].Some?
    ensures Spell(lib, Beats(lib, n, chords)[i].value, t).chord.raw == chords[i]
  {
  }

  /** Untransposed, a lower-case sharp is shown as the user typed it, with
      its letter capitalised: "c#m7" shows root "C#". */
  lemma UntransposedSharpShownAsTyped(lib: ChordLib)
    ensures Spell(lib, ParseChord(lib, "c#m7"), 0).rawRoot == "C#"
  {
  }

  /** The argument of `setTranspose`: a number of semitones, or the name
      of the chord (key) to transpose to. */
  datatype TransposeArg = Semitones(n: int) | KeyName(name: string)

  const MinorQuality := "Minor"

  /** The transposition `setTranspose` stores, given the song's original
      key. */
  function TransposeFor(lib: ChordLib, key: string, arg: TransposeArg): (t: int)
    ensures arg.Semitones? ==> -12 < t < 12 && (arg.n - t) % 12 == 0
    ensures arg.KeyName? && lib.parse(key).quality == lib.parse(arg.name).quality ==>
              t == lib.semitones(lib.parse(key).root + "4", lib.parse(arg.name).root + "4")
    ensures arg.KeyName? && lib.parse(key).quality != lib.parse(arg.name).quality ==> -12 < t < 12
  {
    match arg
    case Semitones(n) => Rem12(n)
    case KeyName(name) =>
      var orig := lib.parse(key);
      var next := lib.parse(name);
      var d := lib.semitones(orig.root + "4", next.root + "4");
      if orig.quality == next.quality then d
      else if next.quality == MinorQuality then Rem12(d + 3)
      else Rem12(d - 3)
  }

  /** A number of semitones is reduced by JavaScript's `%`: the result
      lies strictly between -12 and 12, keeps the sign of the argument and
      differs from it by a multiple of 12. */
  lemma SemitoneTranspose(lib: ChordLib, key: string, n: int)
    ensures var t := TransposeFor(lib, key, Semitones(n));
            && -12 < t < 12
            && (n >= 0 ==> t >= 0) && (n <= 0 ==> t <= 0)
            && (n - t) % 12 == 0
  {
  }

  /** Transposing to a key name: with the same quality the semitone
      distance is stored unreduced; when the qualities differ it is moved
      by +3 towards a minor target and by -3 otherwise, then reduced. */
  lemma KeyTranspose(lib: ChordLib, key: string, name: string)
    ensures var orig := lib.parse(key);
            var next := lib.parse(name);
            var d := lib.semitones(orig.root + "4", next.root + "4");
            var t := TransposeFor(lib, key, KeyName(name));
            && (orig.quality == next.quality ==> t == d)
            && (orig.quality != next.quality ==> -12 < t < 12 && (d - t) % 12 == (if next.quality == MinorQuality then 9 else 3))
            && (orig.quality != next.quality ==>
                  var s := d + (if next.quality == MinorQuality then 3 else -3);
                  (s >= 0 ==> t >= 0) && (s <= 0 ==> t <= 0))
  {
    var orig := lib.parse(key);
    var next := lib.parse(name);
    var d := lib.semitones(orig.root + "4", next.root + "4");
    if orig.quality != next.quality {
      var shift := if next.quality == MinorQuality then 3 else -3;
      var t := Rem12(d + shift);
      assert TransposeFor(lib, key, KeyName(name)) == t;
      var q := (d + shift - t) / 12;
      assert d - t == 12 * q - shift;
      assert d - t == 12 * (q - 1) + (12 - shift);
    }
  }

  /** Relative keys need no shift: from a major key to the minor a major
      sixth above it (C to Am, 9 semitones), or from a minor key to the
      major a major sixth below it (Am to C, -9 semitones), the stored
      transposition is 0. */
  lemma RelativeKeysNeedNoShift(lib: ChordLib, key: string, name: string)
    requires lib.parse(key).quality != lib.parse(name).quality
    requires lib.parse(name).quality == MinorQuality ==>
               lib.semitones(lib.parse(key).root + "4", lib.parse(name).root + "4") == 9
    requires lib.parse(name).quality != MinorQuality ==>
               lib.semitones(lib.parse(key).root + "4", lib.parse(name).root + "4") == -9
    ensures TransposeFor(lib, key, KeyName(name)) == 0
  {
  }
}
