/** Spherical astronomy on the unit sphere: the great-circle separation used
    by the catalog matcher and the horizon-to-equator conversion. */
module Spherical {
  import opened Angles
  import opened RealMath

  /** A right ascension and a declination, in radians. */
  datatype Equatorial = Equatorial(ra: real, dec: real)

  /** `angularSeparation`: the half-angle (haversine) formula, with the
      argument of `asin` clamped to at most 1. Under the laws of `Lawful`, a
      direction is at separation 0 from itself, and for declinations in
      [-PI/2, PI/2] the haversine term is non-negative, so the clamped
      argument lies in [0, 1] and the separation between 0 and 2 * asin(1). */
  function AngularSeparation(t: Trig, ra1: real, dec1: real, ra2: real, dec2: real): (r: real)
    ensures Lawful(t) && ra1 == ra2 && dec1 == dec2 ==> r == 0.0
    ensures Lawful(t) && -HALF_PI <= dec1 <= HALF_PI && -HALF_PI <= dec2 <= HALF_PI ==>
      0.0 <= r <= 2.0 * t.asin(1.0)
  {
    HaversineTerm(t.sin((dec2 - dec1) / 2.0), t.sin((ra2 - ra1) / 2.0), t.cos(dec1), t.cos(dec2));
    2.0 * t.asin(Min(1.0, t.sqrt(Haversine(t, ra1, dec1, ra2, dec2))))
  }

  /** The haversine of the separation: the squared sine of half the
      declination difference plus the product of the two cosines and the
      squared sine of half the right-ascension difference. */
  function Haversine(t: Trig, ra1: real, dec1: real, ra2: real, dec2: real): real {
    var s := t.sin((dec2 - dec1) / 2.0);
    var u := t.sin((ra2 - ra1) / 2.0);
    s * s + t.cos(dec1) * t.cos(dec2) * u * u
  }

  /** The haversine term `s^2 + c1 * c2 * u^2` is zero when both half-angle
      sines are, and non-negative when both cosines are. */
  lemma HaversineTerm(s: real, u: real, c1: real, c2: real)
    ensures s == 0.0 && u == 0.0 ==> s * s + c1 * c2 * u * u == 0.0
    ensures 0.0 <= c1 && 0.0 <= c2 ==> 0.0 <= s * s + c1 * c2 * u * u
  {
    if 0.0 <= c1 && 0.0 <= c2 {
      assert 0.0 <= c1 * c2;
      assert 0.0 <= (c1 * c2) * (u * u);
      assert c1 * c2 * u * u == (c1 * c2) * (u * u);
    }
  }

  /** The separation does not depend on which direction comes first. */
  lemma {:induction false} SeparationSymmetric(t: Trig, ra1: real, dec1: real, ra2: real, dec2: real)
    requires OddSine(t)
    ensures AngularSeparation(t, ra1, dec1, ra2, dec2) == AngularSeparation(t, ra2, dec2, ra1, dec1)
  {
    var s := t.sin((dec2 - dec1) / 2.0);
    var u := t.sin((ra2 - ra1) / 2.0);
    assert (dec1 - dec2) / 2.0 == -((dec2 - dec1) / 2.0);
    assert (ra1 - ra2) / 2.0 == -((ra2 - ra1) / 2.0);
    var c1, c2 := t.cos(dec1), t.cos(dec2);
    calc {
      Haversine(t, ra2, dec2, ra1, dec1);
    ==
      (-s) * (-s) + c2 * c1 * (-u) * (-u);
    ==
      s * s + c1 * c2 * u * u;
    ==
      Haversine(t, ra1, dec1, ra2, dec2);
    }
  }

  /** `altAzToRaDec`: altitude and true azimuth (from north through east)
      at latitude `lat` and local sidereal time `lst` give the right
      ascension and declination of date. */
  function AltAzToRaDec(t: Trig, alt: real, az: real, lat: real, lst: real): (r: Equatorial)
    ensures 0.0 <= r.ra < TWO_PI
  {
    var dec := t.asin(SinDec(t, alt, az, lat));
    var y := -t.sin(az) * t.cos(alt);
    var x := t.sin(alt) * t.cos(lat) - t.cos(alt) * t.sin(lat) * t.cos(az);
    var hourAngle := t.atan2(y, x);
    Equatorial(Wrap(lst - hourAngle), dec)
  }

  /** The sine of the declination for altitude `alt`, azimuth `az` and
      latitude `lat`. */
  function SinDec(t: Trig, alt: real, az: real, lat: real): real {
    t.sin(alt) * t.sin(lat) + t.cos(alt) * t.cos(lat) * t.cos(az)
  }

  /** Pointing straight up (an altitude `zen` whose sine is 1 and cosine 0),
      the declination is the latitude, whatever the azimuth and the sidereal
      time. */
  lemma ZenithDeclination(t: Trig, zen: real, az: real, lat: real, lst: real)
    requires t.sin(zen) == 1.0 && t.cos(zen) == 0.0
    requires AsinUndoesSin(t)
    requires -HALF_PI <= lat <= HALF_PI
    ensures AltAzToRaDec(t, zen, az, lat, lst).dec == lat
  {
    assert t.cos(zen) * t.cos(lat) == 0.0;
    assert SinDec(t, zen, az, lat) == t.sin(lat);
    assert t.asin(t.sin(lat)) == lat;
  }
}
