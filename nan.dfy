/** Column entries as pandas and numpy see them: a real number or NaN.

    The model computes over exact reals; a NaN entry is `None`. The rules
    below are the ones the indicator code depends on: arithmetic with NaN
    gives NaN, every comparison involving NaN is false, and Python's
    built-in `max`/`min` keep their first argument when the second is NaN. */
module Nan {

  datatype Option<+T> = None | Some(value: T)

  /** A float64 entry of a pandas Series: `None` stands for NaN. */
  type Num = Option<real>

  function AbsReal(x: real): real {
    if x < 0.0 then -x else x
  }

  function MaxReal(a: real, b: real): real {
    if a >= b then a else b
  }

  function MinReal(a: real, b: real): real {
    if a <= b then a else b
  }

  function Add(a: Num, b: Num): Num {
    if a.Some? && b.Some? then Some(a.value + b.value) else None
  }

  function Sub(a: Num, b: Num): Num {
    if a.Some? && b.Some? then Some(a.value - b.value) else None
  }

  /** A constant times an entry (`0.5 * atr`, `100 * k`). */
  function Scale(k: real, a: Num): Num {
    if a.Some? then Some(k * a.value) else None
  }

  /** Division. A zero denominator gives NaN: exact for 0/0; IEEE would
      give an infinity for a nonzero numerator, which is not modelled. */
  function Div(a: Num, b: Num): (r: Num)
    ensures r.Some? <==> a.Some? && b.Some? && b.value != 0.0
    ensures r.Some? ==> r.value * b.value == a.value
  {
    if a.Some? && b.Some? && b.value != 0.0 then Some(a.value / b.value) else None
  }

  function Abs(a: Num): Num {
    if a.Some? then Some(AbsReal(a.value)) else None
  }

  /** `a > b` elementwise: false when either side is NaN. */
  predicate Gt(a: Num, b: Num) {
    a.Some? && b.Some? && a.value > b.value
  }

  /** `a < b` elementwise: false when either side is NaN. */
  predicate Lt(a: Num, b: Num) {
    a.Some? && b.Some? && a.value < b.value
  }

  /** `a <= b` elementwise: false when either side is NaN. */
  predicate Le(a: Num, b: Num) {
    a.Some? && b.Some? && a.value <= b.value
  }

  /** Python's built-in `max(a, b)`: `b` replaces `a` only when `b > a`,
      so a NaN second argument leaves `a`. */
  function PyMax(a: real, b: Num): (r: real)
    ensures r >= a
    ensures b.Some? ==> r >= b.value
    ensures r == a || (b.Some? && r == b.value)
    ensures b.None? ==> r == a
  {
    if b.Some? && b.value > a then b.value else a
  }

  /** Python's built-in `min(a, b)`: `b` replaces `a` only when `b < a`,
      so a NaN second argument leaves `a`. */
  function PyMin(a: real, b: Num): (r: real)
    ensures r <= a
    ensures b.Some? ==> r <= b.value
    ensures r == a || (b.Some? && r == b.value)
    ensures b.None? ==> r == a
  {
    if b.Some? && b.value < a then b.value else a
  }
}
