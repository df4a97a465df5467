/** Display rounding of currency amounts. */
module Money {

  /** Rounds to a whole number of cents, ties upward: the stand-in for Python's
      `round(x, 2)` (whose binary-float tie-breaking is not modelled). */
  function Round2(x: real): (r: real)
    ensures (r * 100.0).Floor as real == r * 100.0
    ensures x - 0.005 < r <= x + 0.005
    ensures (x * 100.0).Floor as real == x * 100.0 ==> r == x
    ensures x >= 0.0 ==> r >= 0.0
  {
    var cents := (x * 100.0 + 0.5).Floor;
    assert cents as real <= x * 100.0 + 0.5 < cents as real + 1.0;
    assert (cents as real / 100.0) * 100.0 == cents as real;
    assert (x * 100.0).Floor as real == x * 100.0 ==> cents == (x * 100.0).Floor;
    cents as real / 100.0
  }

  /** Rounding never reverses the order of two amounts. */
  lemma Round2Monotone(x: real, y: real)
    requires x <= y
    ensures Round2(x) <= Round2(y)
  {
    var cx, cy := (x * 100.0 + 0.5).Floor, (y * 100.0 + 0.5).Floor;
    assert cx as real <= x * 100.0 + 0.5 <= y * 100.0 + 0.5 < cy as real + 1.0;
    assert cx <= cy;
  }
}
