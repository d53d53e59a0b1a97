/** Facts about integer division that the clock and the gallery share. */
module Arith {

  /** Division with remainder has one answer. */
  lemma DivModUnique(a: int, m: int, q: int, r: int)
    requires m > 0 && a == q * m + r && 0 <= r < m
    ensures a / m == q && a % m == r
  {
    var q0, r0 := a / m, a % m;
    assert q0 * m + r0 == q * m + r;
    if q0 != q {
      var d := if q0 > q then q0 - q else q - q0;
      assert d * m == (if q0 > q then r - r0 else r0 - r) by {
        assert d * m == (if q0 > q then q0 * m - q * m else q * m - q0 * m);
      }
      AtLeastOnce(d, m);
    }
  }

  lemma AtLeastOnce(d: int, m: int)
    requires d >= 1 && m > 0
    ensures d * m >= m
  {
  }
}
