# Star-Here sky pipeline, modelled in Dafny

Star-Here is an Android app. It turns the direction the phone points at
into sky coordinates and names the nearest Messier object. The
computational core lives in one Kotlin file,
`app/src/main/java/com/example/myapplication_intro/MainActivity.kt`. It does
the following:

- turns the pointing vector (east, north, up) into altitude and azimuth;
- corrects the magnetic azimuth by the magnetic declination;
- computes the Julian Date and the Greenwich and local sidereal times;
- converts horizon coordinates to right ascension and declination of date;
- precesses them back to the J2000.0 epoch with the three-angle rotation;
- scans a fixed table of 110 Messier objects for the one at the least
  great-circle separation, and accepts it only within 10 degrees;
- prints the result as `HH:MM:SS` and `±DD:MM:SS`.

This project models that core on exact reals.

| module | file | what it holds |
|---|---|---|
| `Angles` | `angles.dfy` | degree/radian conversion and Kotlin's `%` on `Double` (a truncated remainder, `FMod`). It also holds the canonical residue `Reduce`, which is the reference `wrapRad` is proved against. |
| `RealMath` | `realmath.dfy` | `Trig`, a value that carries `sin`, `cos`, `asin`, `sqrt` and `atan2`. The predicates `Lawful`, `AsinUndoesSin`, `OddSine` and `Pythagorean` state the laws of those functions that proofs rely on. |
| `Spherical` | `spherical.dfy` | `angularSeparation` (the haversine form with the `min(1, …)` clamp) and `altAzToRaDec` |
| `Sidereal` | `sidereal.dfy` | `unixMsToJulianDate` and `gmstRadians` |
| `Precession` | `precession.dfy` | the polynomials and the rotation of `precessToJ2000` |
| `Catalog` | `catalog.dfy` | the `messierMini` table, entry by entry and in its order |
| `Matcher` | `matcher.dfy` | `findNearestMessier`: the scan as a method and the first-argmin function it is proved against |
| `Sexagesimal` | `sexagesimal.dfy` | the numeric parts of `raRadToHMS` and `decRadToDMS`, and how the seconds field is rounded for display |
| `Pipeline` | `pipeline.dfy` | `computeSkySolutionFromRotationVector`, from the pointing vector on |

`wrapRad`, `gmstRadians` and `findNearestMessier` reassign local variables
in the source, so they are methods here. The pipeline only declares `val`s;
it is a method because it calls the methods `WrapRad`, `GmstRadians` and
`FindNearestMessier`:
- `WrapRad` and `GmstRadians` are proved equal to the canonical residue.
- `FindNearest` is proved equal to `Match`, the first least separation
  within the threshold.
- `ComputeSky` is proved equal to the composition of the pure stages.

The rest are functions. Every property that needs a value of `sin`,
`cos`, `asin` or `sqrt` states the laws it relies on as a precondition on
the `Trig` value `t`. `Lawful(t)` bundles the laws the separation and
precession proofs need, and some proofs use only part of it (the zero
values). `AsinUndoesSin(t)`, `OddSine(t)` and `Pythagorean(t)` are the
laws the remaining proofs use.

Two behaviours of the source are worth stating, and the model follows both:
- The altitude is `asin` of the up component as it stands (line 292); the
  argument is not clamped to [-1, 1] first.
- The acceptance threshold is 10 degrees and inclusive: the separation in
  degrees is compared with `<= 10.0` (line 526).

The table is kept exactly as written:
- From m85 on, the right ascensions are hour values (for example 13.1464 for
  m85) passed through the degree conversion, where `hToRad` would convert
  hours.
- Several entries share coordinates: m91 with m85; m96 and m105 with m95;
  m99 to m103 with m98.

The matcher lemmas prove what this means. The later entry of such a pair can
never be reported, because an equally near earlier entry always wins the tie.

## Model

| member | source | states |
|---|---|---|
| `Angles.DegToRad` | app/src/main/java/com/example/myapplication_intro/MainActivity.kt:574 | `Math.toRadians`: the sign is kept, and 180 degrees is `PI` |
| `Angles.RadToDeg` | app/src/main/java/com/example/myapplication_intro/MainActivity.kt:526 | `Math.toDegrees`: the sign is kept, and `PI` is 180 degrees |
| `Angles.DegRadRoundTrip` | app/src/main/java/com/example/myapplication_intro/MainActivity.kt:574 | converting degrees to radians and back, or radians to degrees and back, gives the value started from |
| `Angles.RadToDegMonotone` | app/src/main/java/com/example/myapplication_intro/MainActivity.kt:526 | the conversion to degrees preserves `<=` and `<` in both directions, so the 10-degree test is a test on the separation in radians |
| `Angles.Trunc` | app/src/main/java/com/example/myapplication_intro/MainActivity.kt:543 | the quotient inside `%` is truncated toward zero: for x >= 0 it is the largest integer not above x, for x < 0 the smallest not below it |
| `Angles.FMod` | app/src/main/java/com/example/myapplication_intro/MainActivity.kt:543 | Kotlin's `%`: the remainder has the sign of the dividend, is smaller in size than the divisor, and differs from the dividend by a whole multiple of it |
| `Angles.Reduce` | app/src/main/java/com/example/myapplication_intro/MainActivity.kt:542-546 | the canonical residue lies in [0, m) and is congruent to the input modulo m |
| `Angles.ReduceUnique` | app/src/main/java/com/example/myapplication_intro/MainActivity.kt:542-546 | any value in [0, m) congruent to the input is the canonical residue |
| `Angles.ReduceShift` | app/src/main/java/com/example/myapplication_intro/MainActivity.kt:542-546 | adding whole multiples of m does not change the residue |
| `Angles.Wrap` | app/src/main/java/com/example/myapplication_intro/MainActivity.kt:542-546 | the wrapped angle lies in [0, 2*PI) and differs from the input by whole turns |
| `Angles.WrapIdentity` | app/src/main/java/com/example/myapplication_intro/MainActivity.kt:542-546 | an angle already in [0, 2*PI) is left as it is |
| `Angles.WrapIdempotent` | app/src/main/java/com/example/myapplication_intro/MainActivity.kt:542-546 | wrapping twice is wrapping once |
| `Angles.WrapShift` | app/src/main/java/com/example/myapplication_intro/MainActivity.kt:542-546 | angles that differ by whole turns wrap to the same value |
| `Angles.WrapRad` | app/src/main/java/com/example/myapplication_intro/MainActivity.kt:542-546 | `wrapRad` (remainder, then add 2*PI if negative) returns a value in [0, 2*PI), equal to the canonical residue |
| `RealMath.Min` | app/src/main/java/com/example/myapplication_intro/MainActivity.kt:553 | `min` returns one of its arguments, and one no larger than either |
| `RealMath.Abs` | app/src/main/java/com/example/myapplication_intro/MainActivity.kt:567 | `abs` is non-negative and equals the input or its negation |
| `Spherical.AngularSeparation` | app/src/main/java/com/example/myapplication_intro/MainActivity.kt:548-554 | under the laws of `Lawful`, a direction is at separation 0 from itself. For declinations within [-PI/2, PI/2], the clamp keeps the argument of `asin` in [0, 1], so the separation lies between 0 and 2*asin(1) |
| `Spherical.SeparationSymmetric` | app/src/main/java/com/example/myapplication_intro/MainActivity.kt:548-554 | with an odd `sin`, the separation of two directions does not depend on their order |
| `Spherical.AltAzToRaDec` | app/src/main/java/com/example/myapplication_intro/MainActivity.kt:350-360 | the right ascension of date lies in [0, 2*PI) |
| `Spherical.ZenithDeclination` | app/src/main/java/com/example/myapplication_intro/MainActivity.kt:350-353 | at an altitude whose sine is 1 and cosine 0, and with `asin` undoing `sin` on [-PI/2, PI/2], the declination equals the latitude for every azimuth and sidereal time |
| `Sidereal.UnixMsToJulianDate` | app/src/main/java/com/example/myapplication_intro/MainActivity.kt:531 | the Julian Date less the Julian Date of the Unix epoch, times the milliseconds in a day, gives back the Unix time in milliseconds |
| `Sidereal.JulianDateAtUnixEpoch` | app/src/main/java/com/example/myapplication_intro/MainActivity.kt:531 | the Unix epoch is Julian Date 2440587.5 |
| `Sidereal.J2000Instant` | app/src/main/java/com/example/myapplication_intro/MainActivity.kt:531 | Unix time 946728000000 ms is the J2000.0 epoch, Julian Date 2451545.0 |
| `Sidereal.JulianDateStrictlyIncreasing` | app/src/main/java/com/example/myapplication_intro/MainActivity.kt:531 | a later instant has a larger Julian Date |
| `Sidereal.JulianDateOneDay` | app/src/main/java/com/example/myapplication_intro/MainActivity.kt:531 | 86400000 ms advance the Julian Date by exactly one day |
| `Sidereal.GmstPolynomial` | app/src/main/java/com/example/myapplication_intro/MainActivity.kt:534-537 | the sidereal-time polynomial in degrees is 280.46061837 at J2000.0 |
| `Sidereal.GmstRadians` | app/src/main/java/com/example/myapplication_intro/MainActivity.kt:533-540 | `gmstRadians` returns a value in [0, 2*PI), equal to the canonical residue of the sidereal-time polynomial modulo 360 degrees, in radians |
| `Sidereal.Gmst` | app/src/main/java/com/example/myapplication_intro/MainActivity.kt:533-540 | the sidereal time lies in [0, 2*PI) |
| `Sidereal.NormalizeTwice` | app/src/main/java/com/example/myapplication_intro/MainActivity.kt:538 | `((x % 360) + 360) % 360` is the canonical residue of x in [0, 360), for negative x as well |
| `Sidereal.GmstAtJ2000` | app/src/main/java/com/example/myapplication_intro/MainActivity.kt:533-540 | at J2000.0 the sidereal time is 280.46061837 degrees |
| `Precession.CenturiesToJ2000` | app/src/main/java/com/example/myapplication_intro/MainActivity.kt:366 | the interval back to J2000.0 is negative exactly for dates after the epoch, and zero exactly at it |
| `Precession.ZetaArcsec` | app/src/main/java/com/example/myapplication_intro/MainActivity.kt:368 | the zeta polynomial, in arcseconds, is zero at T = 0 |
| `Precession.ZArcsec` | app/src/main/java/com/example/myapplication_intro/MainActivity.kt:369 | the z polynomial, in arcseconds, is zero at T = 0 |
| `Precession.ThetaArcsec` | app/src/main/java/com/example/myapplication_intro/MainActivity.kt:370 | the theta polynomial, in arcseconds, is zero at T = 0 |
| `Precession.PrecessionAngles` | app/src/main/java/com/example/myapplication_intro/MainActivity.kt:366-374 | the three angles in radians are all zero for the J2000.0 date |
| `Precession.AnglesVanishAtJ2000` | app/src/main/java/com/example/myapplication_intro/MainActivity.kt:366-374 | zeta, z and theta are all zero at J2000.0 |
| `Precession.AnglesFollowIntervalSign` | app/src/main/java/com/example/myapplication_intro/MainActivity.kt:368-370 | within 100 centuries of J2000.0, each of the three polynomials has the sign of the interval |
| `Precession.ToCartesian` | app/src/main/java/com/example/myapplication_intro/MainActivity.kt:377-379 | when `sin` and `cos` lie on the unit circle, the Cartesian form of a direction is a unit vector |
| `Precession.Turn` | app/src/main/java/com/example/myapplication_intro/MainActivity.kt:381-392 | one plane turn by a cosine and sine on the unit circle keeps the sum of the two squared coordinates |
| `Precession.Rotate` | app/src/main/java/com/example/myapplication_intro/MainActivity.kt:381-392 | when `sin` and `cos` lie on the unit circle, the rotation R3(-z)·R2(theta)·R3(-zeta) keeps the length of every vector |
| `Precession.ToSpherical` | app/src/main/java/com/example/myapplication_intro/MainActivity.kt:394-395 | the right ascension recovered from the rotated vector lies in [0, 2*PI) |
| `Precession.PrecessToJ2000` | app/src/main/java/com/example/myapplication_intro/MainActivity.kt:363-397 | the precessed right ascension lies in [0, 2*PI) |
| `Precession.RotateByZeroIsIdentity` | app/src/main/java/com/example/myapplication_intro/MainActivity.kt:381-392 | the rotation R3(-z)·R2(theta)·R3(-zeta) with all angles zero leaves every vector unchanged |
| `Precession.PrecessAtJ2000` | app/src/main/java/com/example/myapplication_intro/MainActivity.kt:363-397 | an observation at J2000.0 is only converted to Cartesian form and back: the rotation changes nothing |
| `Catalog.MessierTable` | app/src/main/java/com/example/myapplication_intro/MainActivity.kt:401-513 | the table has 110 entries, and the last is m110 |
| `Matcher.DisplayOf` | app/src/main/java/com/example/myapplication_intro/MainActivity.kt:522 | the reported tag, name and link are the entry's own, and never the "-" sentinel |
| `Matcher.FirstLeast` | app/src/main/java/com/example/myapplication_intro/MainActivity.kt:516-524 | the index the scan settles on lies among the entries scanned |
| `Matcher.FirstLeastIsFirstMinimum` | app/src/main/java/com/example/myapplication_intro/MainActivity.kt:516-524 | the strict `<` update makes the scan an argmin, and the first one: no scanned value is smaller, and every earlier one is strictly larger |
| `Matcher.NearestIndex` | app/src/main/java/com/example/myapplication_intro/MainActivity.kt:515-524 | the nearest index of a non-empty table is a valid index |
| `Matcher.NearestIndexIsFirstNearest` | app/src/main/java/com/example/myapplication_intro/MainActivity.kt:515-524 | no entry is nearer than the chosen one, and every earlier entry is strictly farther |
| `Matcher.Match` | app/src/main/java/com/example/myapplication_intro/MainActivity.kt:515-527 | an empty table gives the sentinel, and any other answer is the display of some table entry |
| `Matcher.FindNearest` | app/src/main/java/com/example/myapplication_intro/MainActivity.kt:515-527 | the scan with its running best returns the first nearest entry when it lies within 10 degrees (inclusive), and otherwise, or for an empty table, the sentinel |
| `Matcher.FindNearestMessier` | app/src/main/java/com/example/myapplication_intro/MainActivity.kt:515-527 | the same, over the 110-entry table |
| `Matcher.MatchIsNearest` | app/src/main/java/com/example/myapplication_intro/MainActivity.kt:515-527 | a reported object is a table entry within the threshold, and no entry is nearer |
| `Matcher.NoMatchExactlyWhenAllFar` | app/src/main/java/com/example/myapplication_intro/MainActivity.kt:526 | the sentinel is reported if and only if every entry lies more than 10 degrees away |
| `Matcher.CatalogPositionAlwaysMatches` | app/src/main/java/com/example/myapplication_intro/MainActivity.kt:515-527 | pointing exactly at an entry's coordinates always reports some object |
| `Matcher.LaterTwinNeverNearest` | app/src/main/java/com/example/myapplication_intro/MainActivity.kt:520-524 | of two entries at the same coordinates, the later one is never chosen |
| `Matcher.M91ShadowedByM85` | app/src/main/java/com/example/myapplication_intro/MainActivity.kt:487-493 | m91 repeats m85's coordinates and can never be reported |
| `Matcher.M96ShadowedByM95` | app/src/main/java/com/example/myapplication_intro/MainActivity.kt:497-498 | m96 repeats m95's coordinates and can never be reported |
| `Matcher.M105ShadowedByM95` | app/src/main/java/com/example/myapplication_intro/MainActivity.kt:497-507 | m105 repeats m95's coordinates and can never be reported |
| `Matcher.M99ShadowedByM98` | app/src/main/java/com/example/myapplication_intro/MainActivity.kt:500-501 | m99 repeats m98's coordinates and can never be reported |
| `Matcher.M100ShadowedByM98` | app/src/main/java/com/example/myapplication_intro/MainActivity.kt:500-502 | m100 repeats m98's coordinates and can never be reported |
| `Matcher.M101ShadowedByM98` | app/src/main/java/com/example/myapplication_intro/MainActivity.kt:500-503 | m101 repeats m98's coordinates and can never be reported |
| `Matcher.M102ShadowedByM98` | app/src/main/java/com/example/myapplication_intro/MainActivity.kt:500-504 | m102 repeats m98's coordinates and can never be reported |
| `Matcher.M103ShadowedByM98` | app/src/main/java/com/example/myapplication_intro/MainActivity.kt:500-505 | m103 repeats m98's coordinates and can never be reported |
| `Pipeline.LocalSidereal` | app/src/main/java/com/example/myapplication_intro/MainActivity.kt:302-304 | the local sidereal time lies in [0, 2*PI) |
| `Pipeline.OfDate` | app/src/main/java/com/example/myapplication_intro/MainActivity.kt:290-308 | the right ascension of date derived from the pointing lies in [0, 2*PI) |
| `Pipeline.PointingOfDate` | app/src/main/java/com/example/myapplication_intro/MainActivity.kt:290-308 | steps 2 to 5 give the altitude as `asin` of the up component and a true azimuth in [0, 2*PI), the magnetic azimuth plus the declination wrapped, and the direction of date for that azimuth and the local sidereal time |
| `Pipeline.ComputeSky` | app/src/main/java/com/example/myapplication_intro/MainActivity.kt:279-333 | the altitude is the degrees of `asin` of the up component. The azimuth is the degrees of the wrapped magnetic azimuth plus the declination, so it lies in [0, 360). The J2000 direction is the precessed direction of date, with a right ascension in [0, 2*PI). The readings are its split, and the reported object is the matcher's answer for that direction |
| `Pipeline.ObservedAtJ2000` | app/src/main/java/com/example/myapplication_intro/MainActivity.kt:310-311 | for a pipeline result at Unix time 946728000000 ms (J2000.0), the reported J2000 direction is the direction of date only passed through the Cartesian form and back |
| `Sexagesimal.Split` | app/src/main/java/com/example/myapplication_intro/MainActivity.kt:559-561 | the floor-based split has minutes and seconds in [0, 60) and a whole part that is the floor of the reading, and the parts add up to the reading |
| `Sexagesimal.SplitUnique` | app/src/main/java/com/example/myapplication_intro/MainActivity.kt:559-561 | the split is the only one with those properties |
| `Sexagesimal.RaToHms` | app/src/main/java/com/example/myapplication_intro/MainActivity.kt:557-563 | the hours, minutes and seconds add up to the right ascension in hours, and a right ascension in [0, 2*PI) has an hour field from 0 to 23 |
| `Sexagesimal.RaZeroReadsZero` | app/src/main/java/com/example/myapplication_intro/MainActivity.kt:557-563 | right ascension 0 reads 00:00:00 |
| `Sexagesimal.DecToDms` | app/src/main/java/com/example/myapplication_intro/MainActivity.kt:565-572 | the sign is '+' exactly for non-negative declinations, and the parts split the absolute value in degrees. Sign and parts together give back the declination in arcseconds, and a declination within [-PI/2, PI/2] has a degree field of at most 90 |
| `Sexagesimal.DecZeroReadsPlusZero` | app/src/main/java/com/example/myapplication_intro/MainActivity.kt:565-572 | the equator reads +00:00:00 |
| `Sexagesimal.DecMirror` | app/src/main/java/com/example/myapplication_intro/MainActivity.kt:565-572 | a declination and its negation read the same apart from the sign |
| `Sexagesimal.RoundHalfUp` | app/src/main/java/com/example/myapplication_intro/MainActivity.kt:562 | `%.0f` rounding gives the whole number within half a unit, with halves rounded up |
| `Sexagesimal.ShownAsWritten` | app/src/main/java/com/example/myapplication_intro/MainActivity.kt:562 | the printed fields keep hours and minutes as split, and the seconds field is the split's seconds rounded on their own, within half a unit, so it can be 60 |
| `Sexagesimal.ShownSecondsCanReachSixty` | app/src/main/java/com/example/myapplication_intro/MainActivity.kt:557-563 | right ascension 0h 0m 59.75s prints a seconds field of 60 |
| `Sexagesimal.DecSecondsCanReachSixty` | app/src/main/java/com/example/myapplication_intro/MainActivity.kt:565-572 | declination 0° 0′ 59.75″ north prints a seconds field of 60 |
| `Sexagesimal.ShownCarried` | app/src/main/java/com/example/myapplication_intro/MainActivity.kt:557-563 | rounding the reading to whole seconds first gives minutes and seconds in [0, 60) within half a second of the reading |
| `Sexagesimal.CarriedAgreesBelowSixty` | app/src/main/java/com/example/myapplication_intro/MainActivity.kt:557-563 | whenever the seconds do not round up to 60, the carried fields are exactly the fields the source prints |

## Left out

- The user interface, the sensor listener, location permissions and the
  Compose screens. They are outside the computation.
- `worldVectorFromRotationVector` is left out because it relies on
  `SensorManager.getRotationMatrixFromVector`, a platform call. The pointing
  vector is an input of `Pipeline.ComputeSky`.
- `GeomagneticField` is left out because it is a platform model of the
  Earth's magnetic field. The magnetic declination is an input of
  `Pipeline.ComputeSky`.
- The clock is not modelled: the current time in milliseconds is an input.
- `sin`, `cos`, `asin`, `sqrt` and `atan2` are not defined. They are carried
  by the `Trig` value, and each proof states the laws it uses.
- Floating point is not modelled. Values are exact reals, so there is no
  rounding, NaN or infinity. `Math.PI` is its decimal value, and a `Long`
  time is converted to `Double` without loss.
- The running best of `findNearestMessier` starts at positive infinity. Here
  a "found" flag stands in for it. Over reals the first entry always
  replaces the infinite start, so the two agree.
- `Sexagesimal.RaToHms`: the `toInt` conversions of the whole and minute
  fields are floors on unbounded integers. The saturation of `toInt` at the
  `Int` range is not modelled.
- `Sexagesimal.DecToDms`: as with `RaToHms`, the saturation of `toInt` is not
  modelled.
- The `String.format` text itself (zero padding and the separators) is not
  modelled. Only the numbers it prints are.
- The IRSA link built from the J2000 coordinates is not modelled: it is
  string building for display.
- `hToRad` and `Double.format` are defined but unused by the pipeline, so
  they are left out.
- `Precession.PrecessToJ2000`, `Spherical.AltAzToRaDec` and
  `Pipeline.ComputeSky` state ranges and compositions, not that a result
  is the true sky position. That would need trigonometric identities beyond
  the laws stated in `RealMath`.
- Spherical.ZenithDeclination: the altitude is any value whose sine is
  exactly 1 and cosine exactly 0. The decimal `HALF_PI` is not such a value
  for the real sine, so the lemma treats the zenith as an exact right angle;
  in `Double` arithmetic the equality holds only up to rounding.
- Tag uniqueness in the table is not stated. The shadowing lemmas speak of
  table positions, which is what the scan depends on.

## Findings

| source | as written | input that shows it | evidently intended | confidence | as-written member | corrected member |
|---|---|---|---|---|---|---|
| app/src/main/java/com/example/myapplication_intro/MainActivity.kt:557-572 | in `raRadToHMS` and `decRadToDMS` alike, the whole part and minutes come from `floor`; the seconds are then rounded on their own by `%02.0f`, with no carry | right ascension 0h 0m 59.75s (`DegToRad(59.75 / 240)`) prints `00:00:60`; declination 0° 0′ 59.75″ prints `+00:00:60` (`Sexagesimal.DecSecondsCanReachSixty`) | round to whole seconds first, then split, printing `00:01:00`; the whole part is left unreduced, so a right ascension within half a second of 24h shows `24:00:00` | high; not executed | `Sexagesimal.ShownSecondsCanReachSixty` | `Sexagesimal.ShownCarried` |
