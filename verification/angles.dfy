/** Angle units and canonical angle reduction.

    Angles are exact reals. `PI` is the decimal value of `Math.PI`; every
    conversion between degrees and radians goes through `DegToRad` and
    `RadToDeg`, and every angle the pipeline produces is brought into
    [0, 2*PI) by the single reduction `Wrap`. */
module Angles {

  /** The value of `Math.PI`, as an exact real. */
  const PI: real := 3.141592653589793
  const TWO_PI: real := 2.0 * PI
  const HALF_PI: real := PI / 2.0

  /** `Math.toRadians`: keeps the sign, and a half turn is `PI`. */
  function DegToRad(d: real): (r: real)
    ensures 0.0 <= d <==> 0.0 <= r
    ensures d == 180.0 ==> r == PI
  {
    d * (PI / 180.0)
  }

  /** `Math.toDegrees`: keeps the sign, and `PI` is a half turn. */
  function RadToDeg(x: real): (d: real)
    ensures 0.0 <= x <==> 0.0 <= d
    ensures x == PI ==> d == 180.0
  {
    x * (180.0 / PI)
  }

  lemma DegRadRoundTrip(d: real, r: real)
    ensures RadToDeg(DegToRad(d)) == d
    ensures DegToRad(RadToDeg(r)) == r
  {
  }

  /** The conversion to degrees keeps order, so a threshold in degrees is a
      threshold in radians. */
  lemma RadToDegMonotone(a: real, b: real)
    ensures a <= b <==> RadToDeg(a) <= RadToDeg(b)
    ensures a < b <==> RadToDeg(a) < RadToDeg(b)
  {
  }

  /** Truncation toward zero, as a cast of a `Double` to an integer does. */
  function Trunc(x: real): (n: int)
    ensures 0.0 <= x ==> 0.0 <= n as real <= x < n as real + 1.0
    ensures x < 0.0 ==> n as real - 1.0 < x <= n as real <= 0.0
  {
    if x >= 0.0 then x.Floor else -((-x).Floor)
  }

  /** The `%` operator of Kotlin on `Double`: the remainder of a division
      truncated toward zero, which takes the sign of the dividend. */
  function FMod(a: real, m: real): (r: real)
    requires 0.0 < m
    ensures 0.0 <= a ==> 0.0 <= r < m
    ensures a < 0.0 ==> -m < r <= 0.0
    ensures IsMultiple(a - r, m)
  {
    var q := Trunc(a / m);
    MultipleOfInteger(q, m);
    QuotientBounds(a, m, q);
    a - m * q as real
  }

  /** `d` is an integer multiple of `m`. */
  predicate IsMultiple(d: real, m: real)
    requires 0.0 < m
  {
    (d / m).Floor as real == d / m
  }

  /** `a` and `b` denote the same angle modulo `m`. */
  predicate Congruent(a: real, b: real, m: real)
    requires 0.0 < m
  {
    IsMultiple(a - b, m)
  }

  /** The canonical residue of `a` modulo `m`: the unique value in [0, m)
      that differs from `a` by an integer multiple of `m`. */
  function Reduce(a: real, m: real): (r: real)
    requires 0.0 < m
    ensures 0.0 <= r < m
    ensures Congruent(a, r, m)
  {
    var q := (a / m).Floor;
    MultipleOfInteger(q, m);
    QuotientBounds(a, m, q);
    a - m * q as real
  }

  lemma MultipleOfInteger(k: int, m: real)
    requires 0.0 < m
    ensures IsMultiple(m * k as real, m)
  {
    assert m * k as real / m == k as real;
  }

  lemma QuotientBounds(a: real, m: real, q: int)
    requires 0.0 < m
    ensures q as real <= a / m ==> m * q as real <= a
    ensures a / m < q as real + 1.0 ==> a < m * q as real + m
    ensures a / m <= q as real ==> a <= m * q as real
    ensures q as real - 1.0 < a / m ==> m * q as real - m < a
  {
    var x := a / m;
    var n := q as real;
    if x < n + 1.0 {
      calc {
        a;
      ==
        m * x;
      < { MulStrict(m, x, n + 1.0); }
        m * (n + 1.0);
      ==
        m * n + m;
      }
    }
    if n - 1.0 < x {
      calc {
        a;
      ==
        m * x;
      > { MulStrict(m, n - 1.0, x); }
        m * (n - 1.0);
      ==
        m * n - m;
      }
    }
    if n <= x {
      calc {
        m * n;
      <= { MulStrict(m, n, x); }
        m * x;
      ==
        a;
      }
    }
    if x <= n {
      calc {
        a;
      ==
        m * x;
      <= { MulStrict(m, x, n); }
        m * n;
      }
    }
  }

  lemma MulStrict(m: real, x: real, y: real)
    requires 0.0 < m
    ensures x < y ==> m * x < m * y
    ensures x <= y ==> m * x <= m * y
  {
    assert m * y - m * x == m * (y - x);
  }

  /** Any value in [0, m) congruent to `a` is the canonical residue. */
  lemma {:induction false} ReduceUnique(a: real, m: real, y: real)
    requires 0.0 < m
    requires 0.0 <= y < m
    requires Congruent(a, y, m)
    ensures Reduce(a, m) == y
  {
    var k := ((a - y) / m).Floor;
    assert a - y == m * k as real;
    var q := (a / m).Floor;
    assert a / m == y / m + k as real;
    MulStrict(1.0 / m, 0.0, y);
    MulStrict(1.0 / m, y, m);
    assert 0.0 <= y / m < 1.0;
    assert q == k;
  }

  /** Adding a whole number of turns does not change the residue. */
  lemma {:induction false} ReduceShift(a: real, m: real, k: int)
    requires 0.0 < m
    ensures Reduce(a + m * k as real, m) == Reduce(a, m)
  {
    var r := Reduce(a, m);
    var j := ((a - r) / m).Floor;
    assert a - r == m * j as real;
    assert (a + m * k as real - r) / m == (j + k) as real;
    ReduceUnique(a + m * k as real, m, r);
  }

  /** `wrapRad` as a value: the canonical angle in [0, 2*PI). */
  function Wrap(a: real): (r: real)
    ensures 0.0 <= r < TWO_PI
    ensures Congruent(a, r, TWO_PI)
  {
    Reduce(a, TWO_PI)
  }

  lemma WrapIdentity(a: real)
    requires 0.0 <= a < TWO_PI
    ensures Wrap(a) == a
  {
    assert (a - a) / TWO_PI == 0.0;
    ReduceUnique(a, TWO_PI, a);
  }

  lemma WrapIdempotent(a: real)
    ensures Wrap(Wrap(a)) == Wrap(a)
  {
    WrapIdentity(Wrap(a));
  }

  lemma WrapShift(a: real, k: int)
    ensures Wrap(a + TWO_PI * k as real) == Wrap(a)
  {
    ReduceShift(a, TWO_PI, k);
  }

  /** `wrapRad`: the truncated remainder by 2*PI, moved up by one turn when
      it is negative. */
  method WrapRad(a: real) returns (x: real)
    ensures 0.0 <= x < TWO_PI
    ensures x == Wrap(a)
  {
    x := FMod(a, TWO_PI);
    if x < 0.0 {
      var before := x;
      x := x + TWO_PI;
      var k := ((a - before) / TWO_PI).Floor;
      assert a - before == TWO_PI * k as real;
      assert (a - x) / TWO_PI == (k - 1) as real;
    }
    ReduceUnique(a, TWO_PI, x);
  }
}
