/** The floating-point library functions the pipeline calls.

    `sin`, `cos`, `asin`, `sqrt` and `atan2` are not defined here: every
    formula that uses them takes a `Trig` value, and each property proved
    about such a formula states, as a precondition, exactly the laws of
    these functions it relies on. */
module RealMath {
  import opened Angles

  datatype Trig = Trig(
    sin: real -> real,
    cos: real -> real,
    asin: real -> real,
    sqrt: real -> real,
    atan2: (real, real) -> real)

  /** The laws the separation and precession proofs use: the values at
      zero, `asin` non-decreasing on [0, 1], `sqrt` non-negative on its
      domain, and `cos` non-negative on [-PI/2, PI/2]. */
  ghost predicate Lawful(t: Trig) {
    && t.sin(0.0) == 0.0
    && t.cos(0.0) == 1.0
    && t.sqrt(0.0) == 0.0
    && t.asin(0.0) == 0.0
    && (forall x: real, y: real :: 0.0 <= x <= y <= 1.0 ==> t.asin(x) <= t.asin(y))
    && (forall x: real :: 0.0 <= x ==> 0.0 <= t.sqrt(x))
    && (forall x: real :: -HALF_PI <= x <= HALF_PI ==> 0.0 <= t.cos(x))
  }

  /** `asin` undoes `sin` on [-PI/2, PI/2]. */
  ghost predicate AsinUndoesSin(t: Trig) {
    forall x: real :: -HALF_PI <= x <= HALF_PI ==> t.asin(t.sin(x)) == x
  }

  /** `sin` and `cos` are the coordinates of a point on the unit circle. */
  ghost predicate Pythagorean(t: Trig) {
    forall x: real :: t.sin(x) * t.sin(x) + t.cos(x) * t.cos(x) == 1.0
  }

  /** `sin` is odd. */
  ghost predicate OddSine(t: Trig) {
    forall x: real :: t.sin(-x) == -t.sin(x)
  }

  /** `kotlin.math.min` on two values. */
  function Min(a: real, b: real): (r: real)
    ensures r <= a && r <= b
    ensures r == a || r == b
  {
    if a <= b then a else b
  }

  /** `kotlin.math.abs`. */
  function Abs(x: real): (r: real)
    ensures 0.0 <= r
    ensures r == x || r == -x
  {
    if x >= 0.0 then x else -x
  }
}
