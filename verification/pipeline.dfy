/** The pipeline from a pointing direction in the local East-North-Up frame
    to J2000 coordinates, their sexagesimal readings and the nearest Messier
    object. */
module Pipeline {
  import opened Angles
  import opened RealMath
  import opened Spherical
  import opened Sidereal
  import opened Precession
  import opened Catalog
  import opened Matcher
  import opened Sexagesimal

  /** A unit pointing vector: east, north and up components. */
  datatype Enu = Enu(east: real, north: real, up: real)

  /** What one run of the pipeline produces. */
  datatype SkyResult = SkyResult(
    altDeg: real,
    azDeg: real,
    raJ2000: real,
    decJ2000: real,
    raHms: Parts,
    decDms: SignedParts,
    nearest: Display)

  /** The local sidereal time: sidereal time at Greenwich plus the east
      longitude, wrapped. */
  function LocalSidereal(jd: real, lonDeg: real): (lst: real)
    ensures 0.0 <= lst < TWO_PI
  {
    Wrap(Gmst(jd) + DegToRad(lonDeg))
  }

  /** The equatorial direction of date the pipeline derives, before
      precession. */
  function OfDate(t: Trig, enu: Enu, declRad: real, jd: real, latDeg: real, lonDeg: real): (eq: Equatorial)
    ensures 0.0 <= eq.ra < TWO_PI
  {
    var az := Wrap(t.atan2(enu.east, enu.north) + declRad);
    AltAzToRaDec(t, t.asin(enu.up), az, DegToRad(latDeg), LocalSidereal(jd, lonDeg))
  }

  /** Steps 2 to 5 of `computeSkySolutionFromRotationVector`: the pointing
      vector to altitude and magnetic azimuth, the azimuth corrected by the
      magnetic declination `declRad` (east-positive, radians), the local
      sidereal time, and the direction of date. */
  method PointingOfDate(t: Trig, enu: Enu, declRad: real, jd: real, latDeg: real, lonDeg: real)
    returns (altRad: real, azTrueRad: real, eq: Equatorial)
    ensures altRad == t.asin(enu.up)
    ensures 0.0 <= azTrueRad < TWO_PI
    ensures azTrueRad == Wrap(t.atan2(enu.east, enu.north) + declRad)
    ensures eq == OfDate(t, enu, declRad, jd, latDeg, lonDeg)
    ensures 0.0 <= eq.ra < TWO_PI
  {
    var azRadMag := t.atan2(enu.east, enu.north);
    altRad := t.asin(enu.up);
    azTrueRad := WrapRad(azRadMag + declRad);
    var gmst := GmstRadians(jd);
    assert gmst == Gmst(jd);
    var lst := WrapRad(gmst + DegToRad(lonDeg));
    assert lst == LocalSidereal(jd, lonDeg);
    var latRad := DegToRad(latDeg);
    eq := AltAzToRaDec(t, altRad, azTrueRad, latRad, lst);
  }

  /** `computeSkySolutionFromRotationVector`. The pointing vector `enu`
      and the magnetic declination `declRad` are inputs: the rotation-matrix
      and geomagnetic-field models that produce them are not part of this
      model. */
  method ComputeSky(t: Trig, enu: Enu, declRad: real, nowMs: int, latDeg: real, lonDeg: real)
    returns (r: SkyResult)
    ensures r.altDeg == RadToDeg(t.asin(enu.up))
    ensures 0.0 <= r.azDeg < 360.0
    ensures r.azDeg == RadToDeg(Wrap(t.atan2(enu.east, enu.north) + declRad))
    ensures var jd := UnixMsToJulianDate(nowMs);
      var eq := OfDate(t, enu, declRad, jd, latDeg, lonDeg);
      Equatorial(r.raJ2000, r.decJ2000) == PrecessToJ2000(t, eq.ra, eq.dec, jd)
    ensures 0.0 <= r.raJ2000 < TWO_PI
    ensures r.raHms == RaToHms(r.raJ2000) && 0 <= r.raHms.whole <= 23
    ensures r.decDms == DecToDms(r.decJ2000)
    ensures r.nearest == Match(t, Messier, r.raJ2000, r.decJ2000)
  {
    var jd := UnixMsToJulianDate(nowMs);
    var altRad, azTrueRad, eq := PointingOfDate(t, enu, declRad, jd, latDeg, lonDeg);
    var j := PrecessToJ2000(t, eq.ra, eq.dec, jd);
    var m := FindNearestMessier(t, j.ra, j.dec);
    AzimuthDegrees(azTrueRad);
    r := SkyResult(RadToDeg(altRad), RadToDeg(azTrueRad), j.ra, j.dec, RaToHms(j.ra), DecToDms(j.dec), m);
  }

  /** An angle in [0, 2*PI) is in [0, 360) degrees. */
  lemma AzimuthDegrees(a: real)
    requires 0.0 <= a < TWO_PI
    ensures 0.0 <= RadToDeg(a) < 360.0
  {
    RadToDegMonotone(0.0, a);
    RadToDegMonotone(a, TWO_PI);
    assert RadToDeg(TWO_PI) == 360.0;
  }

  /** An observation made at the J2000.0 instant needs no precession: for
      any result `r` that `ComputeSky` can return at that instant, the
      reported J2000 direction is the direction of date only passed through
      the Cartesian form and back. */
  lemma ObservedAtJ2000(t: Trig, enu: Enu, declRad: real, latDeg: real, lonDeg: real, r: SkyResult)
    requires Lawful(t)
    requires var jd := UnixMsToJulianDate(J2000_UNIX_MS);
      var eq := OfDate(t, enu, declRad, jd, latDeg, lonDeg);
      Equatorial(r.raJ2000, r.decJ2000) == PrecessToJ2000(t, eq.ra, eq.dec, jd)
    ensures var eq := OfDate(t, enu, declRad, J2000_JD, latDeg, lonDeg);
      Equatorial(r.raJ2000, r.decJ2000) == ToSpherical(t, ToCartesian(t, eq.ra, eq.dec))
  {
    J2000Instant();
    var eq := OfDate(t, enu, declRad, J2000_JD, latDeg, lonDeg);
    PrecessAtJ2000(t, eq.ra, eq.dec);
  }
}
