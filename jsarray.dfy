/** The JavaScript array operations the chart is built on: `indexOf`, the
    start-index clamping of `splice`, and the remove-then-insert arithmetic
    of `Measure.setIndex` (src/oligophony.js:63-74). */
module JsArray {

  /** `Array.prototype.indexOf`: the first position holding `x`, or -1. */
  function IndexOf<T(==)>(s: seq<T>, x: T): (r: int)
    ensures -1 <= r < |s|
    ensures r == -1 <==> x !in s
    ensures 0 <= r ==> s[r] == x && x !in s[..r]
  {
    if |s| == 0 then -1
    else if s[0] == x then 0
    else
      var k := IndexOf(s[1..], x);
      assert s == [s[0]] + s[1..];
      if k == -1 then -1
      else
        assert s[..k + 1] == [s[0]] + s[1..][..k];
        k + 1
  }

  /** The position at which `splice(start, ...)` acts on an array of
      length `len`: a negative start counts back from the end but not
      below 0, and a start past the end means the end. */
  function SpliceStart(start: int, len: nat): (k: nat)
    ensures k <= len
    ensures 0 <= start <= len ==> k == start
    ensures start >= len ==> k == len
    ensures start < 0 && len + start >= 0 ==> k == len + start
    ensures len + start < 0 ==> k == 0
  {
    if start < 0 then (if len + start < 0 then 0 else len + start)
    else if start < len then start
    else len
  }

  /** `s.splice(start, 0, x)`: inserts `x` at the clamped start. */
  function SpliceInsert<T>(s: seq<T>, start: int, x: T): (r: seq<T>)
    ensures |r| == |s| + 1
    ensures multiset(r) == multiset(s) + multiset{x}
  {
    var k := SpliceStart(start, |s|);
    assert s == s[..k] + s[k..];
    s[..k] + [x] + s[k..]
  }

  /** `s.splice(k, 1)` for a position `k` inside the array. */
  function RemoveAt<T>(s: seq<T>, k: nat): (r: seq<T>)
    requires k < |s|
    ensures |r| == |s| - 1
    ensures multiset(r) == multiset(s) - multiset{s[k]}
  {
    assert s == s[..k] + [s[k]] + s[k + 1..];
    s[..k] + s[k + 1..]
  }

  /** The array after `setIndex(index)` moves (or inserts) `x`: first `x`
      is taken out if it occurs, then, with `c` the position it had (-1
      when absent), it is spliced in at `index - 1` when `index > c` and
      at `index` otherwise. */
  function Reposition<T(==)>(s: seq<T>, x: T, index: int): (r: seq<T>)
    ensures |r| == if x in s then |s| else |s| + 1
    ensures x in r
  {
    var c := IndexOf(s, x);
    var rest := if c != -1 then RemoveAt(s, c) else s;
    var r := if index > c then SpliceInsert(rest, index - 1, x) else SpliceInsert(rest, index, x);
    assert x in multiset(r);
    r
  }

  /** The elements of `s` other than `x`, in their order. */
  function Without<T(==)>(s: seq<T>, x: T): seq<T>
  {
    if s == [] then [] else (if s[0] == x then [] else [s[0]]) + Without(s[1..], x)
  }

  lemma {:induction false} WithoutConcat<T>(a: seq<T>, b: seq<T>, x: T)
    ensures Without(a + b, x) == Without(a, x) + Without(b, x)
  {
    if a == [] {
      assert a + b == b;
    } else {
      assert (a + b)[1..] == a[1..] + b;
      WithoutConcat(a[1..], b, x);
    }
  }

  /** Putting `x` back at a splice position does not disturb the others. */
  lemma {:induction false} WithoutInsert<T>(s: seq<T>, k: nat, x: T)
    requires k <= |s|
    ensures Without(s[..k] + [x] + s[k..], x) == Without(s, x)
  {
    var a, b := s[..k], s[k..];
    WithoutConcat(a + [x], b, x);
    WithoutConcat(a, [x], x);
    WithoutConcat(a, b, x);
    assert Without([x], x) == [];
    assert a + b == s;
  }

  /** Moving `x` keeps every other entry, in the same relative order. */
  lemma {:induction false} RepositionKeepsOthers<T>(s: seq<T>, x: T, index: int)
    ensures Without(Reposition(s, x, index), x) == Without(s, x)
  {
    var c := IndexOf(s, x);
    var rest := if c != -1 then RemoveAt(s, c) else s;
    if c != -1 {
      WithoutRemove(s, c);
    }
    var k := SpliceStart(if index > c then index - 1 else index, |rest|);
    assert Reposition(s, x, index) == rest[..k] + [x] + rest[k..];
    WithoutInsert(rest, k, x);
  }

  /** Taking out one occurrence of `x` does not disturb the others. */
  lemma {:induction false} WithoutRemove<T>(s: seq<T>, c: nat)
    requires c < |s|
    ensures Without(RemoveAt(s, c), s[c]) == Without(s, s[c])
  {
    var rest := RemoveAt(s, c);
    assert rest[..c] == s[..c] && rest[c..] == s[c + 1..];
    WithoutInsert(rest, c, s[c]);
    assert rest[..c] + [s[c]] + rest[c..] == s;
  }

  /** When `x` occurs at most once before the move, it occurs exactly once
      after it, and every other value occurs as often as before. */
  lemma RepositionCounts<T>(s: seq<T>, x: T, index: int)
    requires multiset(s)[x] <= 1
    ensures multiset(Reposition(s, x, index)) == multiset(s)[x := 1]
  {
    var c := IndexOf(s, x);
    var rest := if c != -1 then RemoveAt(s, c) else s;
    assert multiset(rest) == multiset(s)[x := 0];
  }

  /** `indexOf` finds `x` just after a prefix that does not hold it. */
  lemma {:induction false} IndexOfAfter<T>(a: seq<T>, x: T, b: seq<T>)
    requires x !in a
    ensures IndexOf(a + [x] + b, x) == |a|
  {
    if a != [] {
      assert (a + [x] + b)[1..] == a[1..] + [x] + b;
      IndexOfAfter(a[1..], x, b);
    }
  }

  /** Moving a present `x` to `0 <= index <= |s|` puts it immediately
      before the entry that was at `index` (last when `index == |s|`), and
      `indexOf` then reports that new position. */
  lemma {:induction false} RepositionLandsBefore<T>(s: seq<T>, x: T, index: int)
    requires x in s && multiset(s)[x] <= 1
    requires 0 <= index <= |s| && index != IndexOf(s, x)
    ensures var c := IndexOf(s, x);
            var r := Reposition(s, x, index);
            var p := if index > c then index - 1 else index;
            && r[p] == x
            && IndexOf(r, x) == p
            && (index < |s| ==> r[p + 1] == s[index])
            && (index == |s| ==> p == |r| - 1)
  {
    var c := IndexOf(s, x);
    var rest := RemoveAt(s, c);
    var p := if index > c then index - 1 else index;
    assert SpliceStart(p, |rest|) == p;
    var r := rest[..p] + [x] + rest[p..];
    assert Reposition(s, x, index) == r;
    assert multiset(rest)[x] == 0;
    assert x !in rest[..p] by {
      assert rest == rest[..p] + rest[p..];
      assert multiset(rest) == multiset(rest[..p]) + multiset(rest[p..]);
    }
    IndexOfAfter(rest[..p], x, rest[p..]);
    if index < |s| {
      assert r[p + 1] == rest[p];
      assert rest == s[..c] + s[c + 1..];
      assert rest[p] == s[index];
    }
  }

  /** Asking for the position a measure already has, or the one right
      after it, leaves the array as it was. */
  lemma RepositionInPlace<T>(s: seq<T>, x: T, index: int)
    requires x in s
    requires index == IndexOf(s, x) || index == IndexOf(s, x) + 1
    ensures Reposition(s, x, index) == s
  {
    var c := IndexOf(s, x);
    var rest := RemoveAt(s, c);
    var at := if index > c then index - 1 else index;
    assert at == c;
    assert Reposition(s, x, index) == SpliceInsert(rest, c, x);
    SpliceBack(s, c);
  }

  /** Removing the entry at `c` and splicing it back in at `c` is the
      identity. */
  lemma SpliceBack<T>(s: seq<T>, c: nat)
    requires c < |s|
    ensures SpliceInsert(RemoveAt(s, c), c, s[c]) == s
  {
    var rest := RemoveAt(s, c);
    assert SpliceStart(c, |rest|) == c;
    assert rest[..c] == s[..c];
    assert rest[c..] == s[c + 1..];
    assert s == s[..c] + [s[c]] + s[c + 1..];
  }

  /** The edge case of setIndex(0) on an absent entry: -1 counts as its old
      position, so the splice start is -1 and `x` lands second to last. */
  lemma RepositionAbsentAtZero<T>(s: seq<T>, x: T)
    requires x !in s && |s| > 0
    ensures Reposition(s, x, 0) == s[..|s| - 1] + [x, s[|s| - 1]]
  {
  }

  /** An absent entry given a positive index lands one place earlier than
      asked, at `index - 1` (clamped to the end). */
  lemma RepositionAbsentShiftsDown<T>(s: seq<T>, x: T, index: int)
    requires x !in s && 1 <= index
    ensures var r := Reposition(s, x, index);
            r[if index - 1 < |s| then index - 1 else |s|] == x
  {
  }
}
