/** Precession of an equatorial direction from the date of observation back
    to the J2000.0 epoch, with the three-angle rotation. */
module Precession {
  import opened Angles
  import opened RealMath
  import opened Spherical
  import opened Sidereal

  /** The precession angles zeta, z and theta, in radians. */
  datatype Angles3 = Angles3(zeta: real, z: real, theta: real)

  /** A direction as a Cartesian vector. */
  datatype Vec3 = Vec3(x: real, y: real, z: real)

  /** Julian centuries from the date of observation back to J2000.0: the
      interval is negated because the rotation goes from the date to the
      epoch. */
  function CenturiesToJ2000(jd: real): (t: real)
    ensures jd > J2000_JD <==> t < 0.0
    ensures jd == J2000_JD <==> t == 0.0
  {
    -(jd - J2000_JD) / DAYS_PER_CENTURY
  }

  function ZetaArcsec(t: real): (a: real)
    ensures t == 0.0 ==> a == 0.0
  {
    2306.2181 * t + 0.30188 * t * t + 0.017998 * t * t * t
  }

  function ZArcsec(t: real): (a: real)
    ensures t == 0.0 ==> a == 0.0
  {
    2306.2181 * t + 1.09468 * t * t + 0.018203 * t * t * t
  }

  function ThetaArcsec(t: real): (a: real)
    ensures t == 0.0 ==> a == 0.0
  {
    2004.3109 * t - 0.42665 * t * t - 0.041833 * t * t * t
  }

  function ArcsecToRad(a: real): real {
    DegToRad(a / 3600.0)
  }

  /** The three angles for the date `jd`. */
  function PrecessionAngles(jd: real): (a: Angles3)
    ensures jd == J2000_JD ==> a == Angles3(0.0, 0.0, 0.0)
  {
    var t := CenturiesToJ2000(jd);
    Angles3(ArcsecToRad(ZetaArcsec(t)), ArcsecToRad(ZArcsec(t)), ArcsecToRad(ThetaArcsec(t)))
  }

  /** All three angles vanish at the J2000.0 instant. */
  lemma AnglesVanishAtJ2000()
    ensures PrecessionAngles(J2000_JD) == Angles3(0.0, 0.0, 0.0)
  {
    assert CenturiesToJ2000(J2000_JD) == 0.0;
  }

  /** Within ten thousand years of J2000.0 each angle has the sign of the
      interval back to J2000.0: negative for dates after the epoch and
      positive for dates before it. */
  lemma {:induction false} AnglesFollowIntervalSign(t: real)
    requires -100.0 <= t <= 100.0
    ensures t < 0.0 ==> ZetaArcsec(t) < 0.0 && ZArcsec(t) < 0.0 && ThetaArcsec(t) < 0.0
    ensures 0.0 < t ==> 0.0 < ZetaArcsec(t) && 0.0 < ZArcsec(t) && 0.0 < ThetaArcsec(t)
  {
    var t2 := t * t;
    assert 0.0 <= t2 <= 10000.0 by {
      if t < 0.0 {
        assert t2 == (-t) * (-t);
      }
      assert t * t <= 100.0 * 100.0 by {
        var a := if t < 0.0 then -t else t;
        assert t * t == a * a;
        assert a * a <= 100.0 * a <= 100.0 * 100.0;
      }
    }
    var zetaFactor := 2306.2181 + 0.30188 * t + 0.017998 * t2;
    var zFactor := 2306.2181 + 1.09468 * t + 0.018203 * t2;
    var thetaFactor := 2004.3109 - 0.42665 * t - 0.041833 * t2;
    assert 0.0 < zetaFactor && 0.0 < zFactor && 0.0 < thetaFactor;
    assert ZetaArcsec(t) == t * zetaFactor;
    assert ZArcsec(t) == t * zFactor;
    assert ThetaArcsec(t) == t * thetaFactor;
    if t < 0.0 {
      SignOfProduct(t, zetaFactor);
      SignOfProduct(t, zFactor);
      SignOfProduct(t, thetaFactor);
    } else if 0.0 < t {
      SignOfProduct(t, zetaFactor);
      SignOfProduct(t, zFactor);
      SignOfProduct(t, thetaFactor);
    }
  }

  lemma SignOfProduct(t: real, f: real)
    requires 0.0 < f
    ensures t < 0.0 ==> t * f < 0.0
    ensures 0.0 < t ==> 0.0 < t * f
  {
  }

  /** The squared length of a vector. */
  function Norm2(v: Vec3): real {
    v.x * v.x + v.y * v.y + v.z * v.z
  }

  /** Spherical to Cartesian: a unit vector. */
  function ToCartesian(tr: Trig, ra: real, dec: real): (v: Vec3)
    ensures Pythagorean(tr) ==> Norm2(v) == 1.0
  {
    UnitFromAngles(tr.cos(dec), tr.sin(dec), tr.cos(ra), tr.sin(ra));
    Vec3(tr.cos(dec) * tr.cos(ra), tr.cos(dec) * tr.sin(ra), tr.sin(dec))
  }

  lemma UnitFromAngles(cd: real, sd: real, cr: real, sr: real)
    ensures cd * cd + sd * sd == 1.0 && cr * cr + sr * sr == 1.0 ==>
      (cd * cr) * (cd * cr) + (cd * sr) * (cd * sr) + sd * sd == 1.0
  {
    calc {
      (cd * cr) * (cd * cr) + (cd * sr) * (cd * sr) + sd * sd;
    ==
      (cd * cd) * (cr * cr + sr * sr) + sd * sd;
    }
  }

  /** A point of a coordinate plane. */
  datatype PlanePoint = PlanePoint(a: real, b: real)

  /** One factor of the rotation: the point (x, y) turned by the angle
      whose cosine is `c` and sine `s`. On the unit circle it keeps the sum
      of the two squares. */
  function Turn(x: real, y: real, c: real, s: real): (p: PlanePoint)
    ensures c * c + s * s == 1.0 ==> p.a * p.a + p.b * p.b == x * x + y * y
  {
    calc {
      (x * c + y * s) * (x * c + y * s) + (-x * s + y * c) * (-x * s + y * c);
    ==
      x * x * (c * c + s * s) + y * y * (c * c + s * s);
    }
    PlanePoint(x * c + y * s, -x * s + y * c)
  }

  /** The rotation R3(-z) * R2(theta) * R3(-zeta), applied right to left:
      each factor turns one coordinate plane, so the length is kept. */
  function Rotate(tr: Trig, v: Vec3, a: Angles3): (w: Vec3)
    ensures Pythagorean(tr) ==> Norm2(w) == Norm2(v)
  {
    // R3(-zeta) turns the x-y plane
    var p1 := Turn(v.x, v.y, tr.cos(-a.zeta), tr.sin(-a.zeta));
    // R2(theta) turns the x-z plane
    var p2 := Turn(p1.a, v.z, tr.cos(a.theta), tr.sin(a.theta));
    // R3(-z) turns the x-y plane
    var p3 := Turn(p2.a, p1.b, tr.cos(-a.z), tr.sin(-a.z));
    Vec3(p3.a, p3.b, p2.b)
  }

  /** Cartesian back to spherical, the right ascension wrapped into
      [0, 2*PI). */
  function ToSpherical(tr: Trig, v: Vec3): (r: Equatorial)
    ensures 0.0 <= r.ra < TWO_PI
  {
    Equatorial(Wrap(tr.atan2(v.y, v.x)), tr.asin(v.z))
  }

  /** `precessToJ2000`. */
  function PrecessToJ2000(tr: Trig, ra: real, dec: real, jd: real): (r: Equatorial)
    ensures 0.0 <= r.ra < TWO_PI
  {
    ToSpherical(tr, Rotate(tr, ToCartesian(tr, ra, dec), PrecessionAngles(jd)))
  }

  /** With all three angles zero the rotation leaves every vector as it is. */
  lemma RotateByZeroIsIdentity(tr: Trig, v: Vec3)
    requires Lawful(tr)
    ensures Rotate(tr, v, Angles3(0.0, 0.0, 0.0)) == v
  {
    assert -0.0 == 0.0;
    assert v.x * 1.0 + v.y * 0.0 == v.x;
    assert -v.x * 0.0 + v.y * 1.0 == v.y;
    assert v.x * 1.0 + v.z * 0.0 == v.x;
    assert -v.x * 0.0 + v.z * 1.0 == v.z;
  }

  /** Precessing an observation made at the J2000.0 instant only passes the
      direction through the Cartesian form and back: the rotation itself
      changes nothing. */
  lemma PrecessAtJ2000(tr: Trig, ra: real, dec: real)
    requires Lawful(tr)
    ensures PrecessToJ2000(tr, ra, dec, J2000_JD) == ToSpherical(tr, ToCartesian(tr, ra, dec))
  {
    AnglesVanishAtJ2000();
    RotateByZeroIsIdentity(tr, ToCartesian(tr, ra, dec));
  }
}
