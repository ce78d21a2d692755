/** Right ascension as hours, minutes and seconds, and declination as signed
    degrees, arcminutes and arcseconds. */
module Sexagesimal {
  import opened Angles
  import opened RealMath

  /** A non-negative reading split into a whole part, minutes and seconds
      (hours or degrees, the split is the same). */
  datatype Parts = Parts(whole: int, minutes: int, seconds: real)

  /** The rules a split obeys: minutes and seconds in [0, 60), and the three
      parts add back up to the reading. */
  predicate IsSplitOf(p: Parts, v: real) {
    && 0 <= p.minutes < 60
    && 0.0 <= p.seconds < 60.0
    && p.whole as real * 3600.0 + p.minutes as real * 60.0 + p.seconds == v * 3600.0
  }

  /** Whole part by `floor`, minutes by `floor` of the remaining fraction
      times 60, seconds the rest. */
  function Split(v: real): (p: Parts)
    ensures IsSplitOf(p, v)
    ensures p.whole as real <= v < p.whole as real + 1.0
  {
    var w := v.Floor;
    var f := v - w as real;
    var m := (f * 60.0).Floor;
    var s := (f * 60.0 - m as real) * 60.0;
    assert 0.0 <= f * 60.0 < 60.0 by {
      MulStrict(60.0, f, 1.0);
    }
    assert 0.0 <= f * 60.0 - m as real < 1.0;
    assert 0.0 <= s < 60.0 by {
      MulStrict(60.0, f * 60.0 - m as real, 1.0);
    }
    Parts(w, m, s)
  }

  /** There is only one split of a reading: any parts that obey the rules
      are the ones `Split` computes. */
  lemma {:induction false} SplitUnique(v: real, p: Parts)
    requires IsSplitOf(p, v)
    ensures p == Split(v)
  {
    var q := Split(v);
    // Both carry the reading in whole seconds-of-minute units; the integer
    // part of v * 60 fixes whole and minutes together.
    var a := p.whole * 60 + p.minutes;
    var b := q.whole * 60 + q.minutes;
    assert a as real * 60.0 + p.seconds == v * 3600.0;
    assert b as real * 60.0 + q.seconds == v * 3600.0;
    if a < b {
      assert false;
    } else if b < a {
      assert false;
    }
    assert p.seconds == q.seconds;
    assert p.minutes == a - p.whole * 60 && q.minutes == a - q.whole * 60;
    if p.whole < q.whole {
      assert false;
    } else if q.whole < p.whole {
      assert false;
    }
  }

  /** `raRadToHMS`, without the text formatting: the right ascension in
      hours (degrees over 15), split. */
  function RaToHms(ra: real): (p: Parts)
    ensures IsSplitOf(p, RadToDeg(ra) / 15.0)
    ensures 0.0 <= ra < TWO_PI ==> 0 <= p.whole <= 23
  {
    HoursInDay(ra);
    Split(RadToDeg(ra) / 15.0)
  }

  lemma HoursInDay(ra: real)
    ensures 0.0 <= ra < TWO_PI ==> 0.0 <= RadToDeg(ra) / 15.0 < 24.0
  {
    RadToDegMonotone(0.0, ra);
    RadToDegMonotone(ra, TWO_PI);
    assert RadToDeg(TWO_PI) == 360.0;
  }

  /** A direction at right ascension zero reads 00:00:00. */
  lemma RaZeroReadsZero()
    ensures RaToHms(0.0) == Parts(0, 0, 0.0)
  {
    SplitUnique(0.0, Parts(0, 0, 0.0));
  }

  /** A signed sexagesimal declination: '+' or '-' and the split of the
      absolute value in degrees. */
  datatype SignedParts = SignedParts(sign: char, parts: Parts)

  /** The reading a signed split stands for, in arcseconds. */
  function SignedArcsec(d: SignedParts): real {
    var mag := d.parts.whole as real * 3600.0 + d.parts.minutes as real * 60.0 + d.parts.seconds;
    if d.sign == '+' then mag else -mag
  }

  /** `decRadToDMS`, without the text formatting. */
  function DecToDms(dec: real): (d: SignedParts)
    ensures d.sign == '+' || d.sign == '-'
    ensures d.sign == '+' <==> 0.0 <= dec
    ensures IsSplitOf(d.parts, Abs(RadToDeg(dec)))
    ensures 0 <= d.parts.whole
    ensures SignedArcsec(d) == RadToDeg(dec) * 3600.0
    ensures -HALF_PI <= dec <= HALF_PI ==> d.parts.whole <= 90
  {
    DegreesOfDeclination(dec);
    var sign := if dec >= 0.0 then '+' else '-';
    SignedParts(sign, Split(Abs(RadToDeg(dec))))
  }

  lemma DegreesOfDeclination(dec: real)
    ensures 0.0 <= dec <==> 0.0 <= RadToDeg(dec)
    ensures -HALF_PI <= dec <= HALF_PI ==> Abs(RadToDeg(dec)) <= 90.0
  {
    RadToDegMonotone(0.0, dec);
    RadToDegMonotone(dec, HALF_PI);
    RadToDegMonotone(-HALF_PI, dec);
    assert RadToDeg(HALF_PI) == 90.0 && RadToDeg(-HALF_PI) == -90.0;
  }

  /** The celestial equator reads +00:00:00. */
  lemma DecZeroReadsPlusZero()
    ensures DecToDms(0.0) == SignedParts('+', Parts(0, 0, 0.0))
  {
    SplitUnique(0.0, Parts(0, 0, 0.0));
  }

  /** A declination and its mirror image south of the equator read the same
      apart from the sign. */
  lemma DecMirror(dec: real)
    requires 0.0 < dec
    ensures DecToDms(-dec).parts == DecToDms(dec).parts
    ensures DecToDms(-dec).sign == '-' && DecToDms(dec).sign == '+'
  {
    assert RadToDeg(-dec) == -RadToDeg(dec);
  }

  /** The seconds field as the text shows it: `%02.0f` rounds half up to a
      whole number. */
  function RoundHalfUp(x: real): (n: int)
    requires 0.0 <= x
    ensures 0 <= n
    ensures n as real - 0.5 <= x < n as real + 0.5
  {
    (x + 0.5).Floor
  }

  /** The three numbers the formatted text shows. */
  datatype Shown = Shown(whole: int, minutes: int, seconds: int)

  /** The fields as the source prints them: whole and minutes as split, the
      seconds rounded on their own. */
  function ShownAsWritten(p: Parts): (s: Shown)
    requires 0.0 <= p.seconds < 60.0
    ensures s.whole == p.whole && s.minutes == p.minutes
    ensures s.seconds as real - 0.5 <= p.seconds < s.seconds as real + 0.5
    ensures 0 <= s.seconds <= 60
  {
    Shown(p.whole, p.minutes, RoundHalfUp(p.seconds))
  }

  /** A right ascension 59.75 seconds of time past 0h prints with a seconds
      field of 60 instead of carrying into the minutes (00:00:60 rather than
      00:01:00). */
  lemma ShownSecondsCanReachSixty()
    ensures var ra := DegToRad(59.75 / 240.0);
      && 0.0 <= ra < TWO_PI
      && RaToHms(ra) == Parts(0, 0, 59.75)
      && ShownAsWritten(RaToHms(ra)).seconds == 60
  {
    var ra := DegToRad(59.75 / 240.0);
    DegRadRoundTrip(59.75 / 240.0, ra);
    assert RadToDeg(ra) / 15.0 == 59.75 / 3600.0;
    SplitUnique(59.75 / 3600.0, Parts(0, 0, 59.75));
  }

  /** The declination has the same glitch: 0 degrees 0 minutes 59.75
      seconds north prints +00:00:60. */
  lemma DecSecondsCanReachSixty()
    ensures var dec := DegToRad(59.75 / 3600.0);
      && DecToDms(dec) == SignedParts('+', Parts(0, 0, 59.75))
      && ShownAsWritten(DecToDms(dec).parts).seconds == 60
  {
    var dec := DegToRad(59.75 / 3600.0);
    DegRadRoundTrip(59.75 / 3600.0, dec);
    assert Abs(RadToDeg(dec)) == 59.75 / 3600.0;
    SplitUnique(59.75 / 3600.0, Parts(0, 0, 59.75));
  }

  /** The fields as evidently intended: the reading rounded to whole
      seconds first, then split, so a rounding up carries into the minutes
      and the whole part. The whole part is not reduced, so a right
      ascension within half a second of 24h shows 24:00:00. */
  function ShownCarried(v: real): (s: Shown)
    requires 0.0 <= v
    ensures 0 <= s.whole
    ensures 0 <= s.minutes < 60 && 0 <= s.seconds < 60
    ensures var total := s.whole * 3600 + s.minutes * 60 + s.seconds;
      total as real - 0.5 <= v * 3600.0 < total as real + 0.5
  {
    var total := RoundHalfUp(v * 3600.0);
    Shown(total / 3600, (total % 3600) / 60, total % 60)
  }

  /** Whenever the seconds do not round up to a full minute, the carried
      form shows exactly what the source prints. */
  lemma CarriedAgreesBelowSixty(v: real)
    requires 0.0 <= v
    requires RoundHalfUp(Split(v).seconds) < 60
    ensures ShownCarried(v) == ShownAsWritten(Split(v))
  {
    var p := Split(v);
    var n := RoundHalfUp(p.seconds);
    var total := p.whole * 3600 + p.minutes * 60 + n;
    assert 0 <= p.whole by {
      assert p.whole as real <= v < p.whole as real + 1.0;
    }
    assert total as real - 0.5 <= v * 3600.0 < total as real + 0.5;
    assert RoundHalfUp(v * 3600.0) == total;
    assert total / 3600 == p.whole && total % 3600 == p.minutes * 60 + n;
  }
}
