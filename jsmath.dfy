/** JavaScript's `%` by 12 on integers, the only remainder the chart takes
    (src/oligophony.js:189, 198, 200). */
module JsMath {

  /** `a % 12` as JavaScript computes it: the remainder of division
      truncated toward zero, so its sign follows the dividend. */
  function Rem12(a: int): (r: int)
    ensures -12 < r < 12
    ensures a >= 0 ==> r >= 0
    ensures a <= 0 ==> r <= 0
    ensures (a - r) % 12 == 0
  {
    if a >= 0 then a % 12 else -((-a) % 12)
  }

  /** The two conventions differ exactly on negative non-multiples of 12:
      there JavaScript's remainder is Dafny's (floored) one minus 12. */
  lemma Rem12AgainstFloored(a: int)
    ensures Rem12(a) == if a >= 0 || a % 12 == 0 then a % 12 else a % 12 - 12
  {
    if a < 0 {
      var q, m := (-a) / 12, (-a) % 12;
      assert -a == 12 * q + m;
      if m == 0 {
        assert a == 12 * (-q);
      } else {
        assert a == 12 * (-q - 1) + (12 - m);
      }
    }
  }
}
