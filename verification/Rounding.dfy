/**
 Exact rounding of real quantities to a positive step. `FloorStep` and
 `CeilStep` are characterised by the step multiple they select; everything
 else in the project reasons from those characterisations.
 */
module Rounding {

  /** `k` steps. */
  function Multiple(k: int, step: real): real {
    k as real * step
  }

  /** `value` lies on the grid of multiples of `step`. */
  ghost predicate OnGrid(value: real, step: real) {
    exists k: int :: value == Multiple(k, step)
  }

  function Min(a: real, b: real): (m: real) {
    if a <= b then a else b
  }

  function Max(a: real, b: real): (m: real) {
    if a >= b then a else b
  }

  function Abs(a: real): (m: real) {
    if a < 0.0 then -a else a
  }

  /** The number of whole steps that fit below `value`. */
  function Lots(value: real, step: real): int
    requires step > 0.0
  {
    (value / step).Floor
  }

  function FloorStep(value: real, step: real): (r: real)
    requires step > 0.0
  {
    Multiple(Lots(value, step), step)
  }

  function CeilStep(value: real, step: real): (r: real)
    requires step > 0.0
  {
    -FloorStep(-value, step)
  }

  // ---------------------------------------------------------- multiplication

  lemma MulDiv(value: real, step: real)
    requires step > 0.0
    ensures (value / step) * step == value
  {
  }

  lemma MulMono(a: real, b: real, step: real)
    requires step > 0.0
    ensures a <= b <==> a * step <= b * step
    ensures a < b <==> a * step < b * step
  {
    if a < b {
      assert (b - a) * step > 0.0;
    }
    if b < a {
      assert (a - b) * step > 0.0;
    }
  }

  lemma MultipleAdd(m: int, n: int, step: real)
    ensures Multiple(m + n, step) == Multiple(m, step) + Multiple(n, step)
    ensures Multiple(m - n, step) == Multiple(m, step) - Multiple(n, step)
    ensures Multiple(-m, step) == -Multiple(m, step)
  {
    var x, y := m as real, n as real;
    assert (m + n) as real == x + y;
    assert (m - n) as real == x - y;
    assert (-m) as real == -x;
  }

  lemma MultipleMono(m: int, n: int, step: real)
    requires step > 0.0
    ensures m <= n <==> Multiple(m, step) <= Multiple(n, step)
  {
    MulMono(m as real, n as real, step);
    assert m <= n <==> m as real <= n as real;
  }

  lemma MultipleOne(step: real)
    ensures Multiple(1, step) == step && Multiple(0, step) == 0.0
  {
  }

  // ---------------------------------------------------------------- rounding

  lemma QuotientBounds(value: real, step: real, y: real)
    requires step > 0.0
    ensures y <= value / step ==> y * step <= value
    ensures value / step < y ==> value < y * step
  {
  }

  lemma FloorStepBounds(value: real, step: real)
    requires step > 0.0
    ensures FloorStep(value, step) == Multiple(Lots(value, step), step)
    ensures FloorStep(value, step) <= value < FloorStep(value, step) + step
    ensures OnGrid(FloorStep(value, step), step)
  {
    var k := Lots(value, step);
    QuotientBounds(value, step, k as real);
    QuotientBounds(value, step, (k + 1) as real);
    MultipleAdd(k, 1, step);
    MultipleOne(step);
  }

  /** `FloorStep` is the largest multiple of `step` not above `value`. */
  lemma FloorStepLargest(value: real, step: real, k: int)
    requires step > 0.0
    ensures Multiple(k, step) <= value <==> k <= Lots(value, step)
    ensures Multiple(k, step) <= value <==> Multiple(k, step) <= FloorStep(value, step)
  {
    FloorStepBounds(value, step);
    var n := Lots(value, step);
    MultipleMono(k, n, step);
    MultipleMono(n + 1, k, step);
    MultipleAdd(n, 1, step);
    MultipleOne(step);
  }

  lemma FloorStepOfMultiple(k: int, step: real)
    requires step > 0.0
    ensures Lots(Multiple(k, step), step) == k
    ensures FloorStep(Multiple(k, step), step) == Multiple(k, step)
  {
    var value := Multiple(k, step);
    FloorStepBounds(value, step);
    FloorStepLargest(value, step, k);
    MultipleMono(Lots(value, step), k, step);
  }

  lemma FloorStepOfGrid(value: real, step: real)
    requires step > 0.0 && OnGrid(value, step)
    ensures FloorStep(value, step) == value
  {
    var k :| value == Multiple(k, step);
    FloorStepOfMultiple(k, step);
  }

  /** Removing whole steps commutes with flooring. */
  lemma FloorStepMinus(value: real, a: real, step: real)
    requires step > 0.0 && OnGrid(a, step)
    ensures FloorStep(value - a, step) == FloorStep(value, step) - a
  {
    var n :| a == Multiple(n, step);
    var m, j := Lots(value, step), Lots(value - a, step);
    FloorStepBounds(value, step);
    FloorStepBounds(value - a, step);
    MultipleAdd(m, n, step);
    MultipleAdd(j, n, step);
    FloorStepLargest(value - a, step, m - n);
    FloorStepLargest(value, step, j + n);
    MultipleMono(m - n, j, step);
    MultipleMono(j + n, m, step);
  }

  lemma CeilStepBounds(value: real, step: real)
    requires step > 0.0
    ensures CeilStep(value, step) - step < value <= CeilStep(value, step)
    ensures CeilStep(value, step) == Multiple(-Lots(-value, step), step)
    ensures OnGrid(CeilStep(value, step), step)
  {
    FloorStepBounds(-value, step);
    MultipleAdd(Lots(-value, step), 0, step);
  }

  /** `CeilStep` is the smallest multiple of `step` not below `value`. */
  lemma CeilStepSmallest(value: real, step: real, k: int)
    requires step > 0.0
    ensures Multiple(k, step) >= value <==> Multiple(k, step) >= CeilStep(value, step)
  {
    FloorStepLargest(-value, step, -k);
    MultipleAdd(k, 0, step);
  }

  // -------------------------------------------------------------------- grid

  lemma GridAdd(a: real, b: real, step: real)
    requires OnGrid(a, step) && OnGrid(b, step)
    ensures OnGrid(a + b, step) && OnGrid(a - b, step) && OnGrid(-a, step)
  {
    var m :| a == Multiple(m, step);
    var n :| b == Multiple(n, step);
    MultipleAdd(m, n, step);
    assert a + b == Multiple(m + n, step);
    assert a - b == Multiple(m - n, step);
    assert -a == Multiple(-m, step);
  }

  lemma GridZero(step: real)
    ensures OnGrid(0.0, step)
  {
    MultipleOne(step);
    assert 0.0 == Multiple(0, step);
  }

  /** A positive grid value is worth at least one step. */
  lemma GridPositive(a: real, step: real)
    requires step > 0.0 && OnGrid(a, step) && a > 0.0
    ensures a >= step
  {
    var k :| a == Multiple(k, step);
    MultipleOne(step);
    MultipleMono(k, 0, step);
    MultipleMono(1, k, step);
  }
}
