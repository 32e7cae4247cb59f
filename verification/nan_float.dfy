/**
 * pandas float64 cells with NaN.  A cell is `Option<real>`: `None` is NaN,
 * `Some(x)` an ordinary number.  Arithmetic with a NaN operand yields NaN,
 * and every ordered comparison that involves NaN is false, as in IEEE 754.
 * Floating-point rounding is not modelled: defined values are exact reals.
 */
module NanFloat {
  import opened Wrappers

  type Float = Option<real>

  /** a - b */
  function Sub(a: Float, b: Float): (r: Float)
    ensures r.Some? <==> a.Some? && b.Some?
    ensures r.Some? ==> r.value + b.value == a.value
  {
    if a.Some? && b.Some? then Some(a.value - b.value) else None
  }

  /** a * k for a plain number k */
  function Scale(a: Float, k: real): (r: Float)
    ensures r.Some? <==> a.Some?
    ensures r.Some? ==> r.value == a.value * k
  {
    if a.Some? then Some(a.value * k) else None
  }

  /** a / d for a non-zero plain number d */
  function Div(a: Float, d: real): (r: Float)
    requires d != 0.0
    ensures r.Some? <==> a.Some?
    ensures r.Some? ==> r.value * d == a.value
  {
    if a.Some? then Some(a.value / d) else None
  }

  /** Dividing a scaled cell by the same non-zero factor gives the cell back. */
  lemma ScaleDivRoundTrip(a: Float, k: real)
    requires k != 0.0
    ensures Div(Scale(a, k), k) == a
  {
    if a.Some? {
      var q := Div(Scale(a, k), k).value;
      assert q * k == a.value * k;
      assert (q - a.value) * k == 0.0;
    }
  }

  /** a < k; false when a is NaN */
  predicate Less(a: Float, k: real) {
    a.Some? && a.value < k
  }

  /** a > k; false when a is NaN */
  predicate Greater(a: Float, k: real) {
    a.Some? && a.value > k
  }

  /** x <= b; false when b is NaN */
  predicate AtMost(x: real, b: Float) {
    b.Some? && x <= b.value
  }

  /** No ordered comparison with NaN holds, whatever the other operand. */
  lemma NanComparesFalse(k: real)
    ensures !Less(None, k) && !Greater(None, k) && !AtMost(k, None)
  {
  }
}
