/** The two JavaScript string operations the chart applies to chord text:
    `String.prototype.replace` with a string pattern (src/oligophony.js:30)
    and `toUpperCase` of one character (src/oligophony.js:48). */
module JsText {

  /** `pat` occurs in `s` starting at position `j`. */
  predicate MatchAt(s: string, pat: string, j: int)
  {
    0 <= j && j + |pat| <= |s| && s[j..j + |pat|] == pat
  }

  /** The first match of `pat` in `s` at or after `from`, or -1 when there
      is none; from 0 this is `s.indexOf(pat)`, which is all `replace`
      needs. */
  function FindFrom(s: string, pat: string, from: nat): (k: int)
    ensures k == -1 || (from <= k && MatchAt(s, pat, k))
    ensures forall j :: from <= j && (k == -1 || j < k) ==> !MatchAt(s, pat, j)
    decreases |s| - from
  {
    if from + |pat| > |s| then -1
    else if s[from..from + |pat|] == pat then from
    else FindFrom(s, pat, from + 1)
  }

  /** `s.replace(pat, rep)` with a string pattern: only the first
      occurrence of `pat` is replaced. */
  function ReplaceFirst(s: string, pat: string, rep: string): (r: string)
    ensures |pat| == |rep| ==> |r| == |s|
  {
    var k := FindFrom(s, pat, 0);
    if k == -1 then s else s[..k] + rep + s[k + |pat|..]
  }

  /** Either `pat` does not occur and the text is returned as it is, or the
      result is the text with its first occurrence of `pat`, and only that
      one, replaced by `rep`. */
  lemma ReplaceFirstMeaning(s: string, pat: string, rep: string)
    ensures || ((forall j :: !MatchAt(s, pat, j)) && ReplaceFirst(s, pat, rep) == s)
            || (exists k :: && MatchAt(s, pat, k)
                             && (forall j :: 0 <= j < k ==> !MatchAt(s, pat, j))
                             && ReplaceFirst(s, pat, rep) == s[..k] + rep + s[k + |pat|..])
  {
    var k := FindFrom(s, pat, 0);
    if k != -1 {
      assert MatchAt(s, pat, k);
    }
  }

  /** A later occurrence survives: only the first dash-seven is rewritten. */
  lemma ReplaceFirstLeavesLaterMatches()
    ensures ReplaceFirst("C-7-7", "-7", "m7") == "Cm7-7"
  {
    var s := "C-7-7";
    assert s[0..2] != "-7" by { assert s[0..2][0] == 'C'; }
    assert s[1..3] == "-7";
    assert FindFrom(s, "-7", 0) == 1;
  }

  /** `c.toUpperCase()` on the ASCII letters: lower-case letters become
      capitals and every other character is kept. */
  function UpperAscii(c: char): (u: char)
    ensures !('a' <= u <= 'z')
    ensures 'a' <= c <= 'z' || u == c
    ensures 'a' <= c <= 'z' ==> 'A' <= u <= 'Z'
    ensures 'a' <= c <= 'z' ==> u as int - 'A' as int == c as int - 'a' as int
  {
    if 'a' <= c <= 'z' then (c as int - 32) as char else c
  }
}
