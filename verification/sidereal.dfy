/** Wall-clock time to Julian Date, and Greenwich mean sidereal time. */
module Sidereal {
  import opened Angles

  /** The Julian Date of the Unix epoch. */
  const UNIX_EPOCH_JD: real := 2440587.5
  /** The Julian Date of the J2000.0 epoch. */
  const J2000_JD: real := 2451545.0
  const MS_PER_DAY: real := 86400000.0
  /** Days in a Julian century. */
  const DAYS_PER_CENTURY: real := 36525.0
  /** 2000-01-01 12:00 UTC as Unix milliseconds, which `UnixMsToJulianDate`
      maps to the J2000.0 Julian Date 2451545.0. */
  const J2000_UNIX_MS: int := 946728000000

  /** `unixMsToJulianDate`: milliseconds since the Unix epoch to a Julian
      Date, a linear map. */
  function UnixMsToJulianDate(ms: int): (jd: real)
    ensures (jd - UNIX_EPOCH_JD) * MS_PER_DAY == ms as real
  {
    ms as real / MS_PER_DAY + UNIX_EPOCH_JD
  }

  lemma JulianDateAtUnixEpoch()
    ensures UnixMsToJulianDate(0) == 2440587.5
  {
  }

  lemma JulianDateStrictlyIncreasing(ms1: int, ms2: int)
    requires ms1 < ms2
    ensures UnixMsToJulianDate(ms1) < UnixMsToJulianDate(ms2)
  {
  }

  /** `J2000_UNIX_MS` is the J2000.0 epoch. */
  lemma J2000Instant()
    ensures UnixMsToJulianDate(J2000_UNIX_MS) == J2000_JD
  {
  }

  /** One day of milliseconds advances the Julian Date by exactly one. */
  lemma JulianDateOneDay(ms: int)
    ensures UnixMsToJulianDate(ms + 86400000) == UnixMsToJulianDate(ms) + 1.0
  {
  }

  /** The sidereal-time polynomial in degrees, before any reduction. */
  function GmstPolynomial(jd: real): (g: real)
    ensures jd == J2000_JD ==> g == 280.46061837
  {
    var d := jd - J2000_JD;
    var t := d / DAYS_PER_CENTURY;
    280.46061837 + 360.98564736629 * d + 0.000387933 * t * t - t * t * t / 38710000.0
  }

  /** `gmstRadians`: the polynomial reduced twice with `%` (the first
      remainder may be negative, so 360 is added before the second), then
      converted to radians. */
  method GmstRadians(jd: real) returns (r: real)
    ensures 0.0 <= r < TWO_PI
    ensures r == DegToRad(Reduce(GmstPolynomial(jd), 360.0))
  {
    var gmstDeg := GmstPolynomial(jd);
    ghost var raw := gmstDeg;
    gmstDeg := FMod(FMod(gmstDeg, 360.0) + 360.0, 360.0);
    NormalizeTwice(raw);
    r := DegToRad(gmstDeg);
  }

  /** The sidereal time as a value: the canonical residue of the polynomial
      in [0, 360), in radians. */
  function Gmst(jd: real): (r: real)
    ensures 0.0 <= r < TWO_PI
  {
    DegToRad(Reduce(GmstPolynomial(jd), 360.0))
  }

  /** `((x % 360) + 360) % 360` is the canonical residue of `x` in [0, 360):
      it lies in that range and differs from `x` by whole turns. */
  lemma NormalizeTwice(x: real)
    ensures FMod(FMod(x, 360.0) + 360.0, 360.0) == Reduce(x, 360.0)
  {
    var a := FMod(x, 360.0);
    var b := FMod(a + 360.0, 360.0);
    var k := ((x - a) / 360.0).Floor;
    var j := ((a + 360.0 - b) / 360.0).Floor;
    assert x - a == 360.0 * k as real;
    assert a + 360.0 - b == 360.0 * j as real;
    assert (x - b) / 360.0 == (k + j - 1) as real;
    ReduceUnique(x, 360.0, b);
  }

  /** At the J2000.0 instant the sidereal time is 280.46061837 degrees. */
  lemma GmstAtJ2000()
    ensures Gmst(J2000_JD) == DegToRad(280.46061837)
  {
    assert GmstPolynomial(J2000_JD) == 280.46061837;
    assert (280.46061837 - 280.46061837) / 360.0 == 0.0;
    ReduceUnique(280.46061837, 360.0, 280.46061837);
  }
}
