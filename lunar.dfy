/**
 * The moon model of the solunar engine: the Julian day of a local date and time,
 * the moon's age and phase counted from a known new moon, the estimated transit
 * hour, and the "HH:MM" rendering of a decimal hour.
 */
module Lunar {
  import opened Wrappers
  import opened JsMath
  import opened Text
  import opened Config

  /** The fields a `Date` yields through its local-time getters; month runs 1..12. */
  datatype LocalDateTime = LocalDateTime(year: int, month: int, day: int, hour: int, minute: int)

  predicate IsLeapYear(y: int) {
    (y % 4 == 0 && y % 100 != 0) || y % 400 == 0
  }

  /** The length of a month of the Gregorian calendar. */
  function DaysInMonth(y: int, m: int): (n: int)
    requires 1 <= m <= 12
    ensures 28 <= n <= 31
    ensures m == 2 ==> (n == 29 <==> IsLeapYear(y))
  {
    if m == 2 then (if IsLeapYear(y) then 29 else 28)
    else if m == 4 || m == 6 || m == 9 || m == 11 then 30
    else 31
  }

  /**
   * The year and month the formula works with: January and February count as
   * months 13 and 14 of the year before, so the leap day ends the counted year.
   */
  function MarchBased(year: int, month: int): (r: (int, int))
    ensures r.0 * 12 + r.1 == year * 12 + month
    ensures 1 <= month <= 12 ==> 3 <= r.1 <= 14 && (r.0 == year <==> month >= 3)
  {
    if month <= 2 then (year - 1, month + 12) else (year, month)
  }

  /** `Math.floor(365.25 * (y + 4716))`. */
  function YearTerm(y: int): int {
    (365.25 * (y + 4716) as real).Floor
  }

  /** `Math.floor(30.6001 * (m + 1))`. */
  function MonthTerm(m: int): int {
    (30.6001 * (m + 1) as real).Floor
  }

  /** The Gregorian correction `B = 2 - A + floor(A / 4)` with `A = floor(y / 100)`. */
  function CenturyTerm(y: int): int {
    2 - y / 100 + (y / 100) / 4
  }

  /** The day of the month with the time of day as a fraction. */
  function DayWithTime(d: LocalDateTime): real {
    d.day as real + (d.hour as real + d.minute as real / 60.0) / 24.0
  }

  /** `toJulianDay`: the Julian day number of a local date and time. */
  function JulianDay(d: LocalDateTime): real {
    var ym := MarchBased(d.year, d.month);
    (YearTerm(ym.0) + MonthTerm(ym.1) + CenturyTerm(ym.0)) as real + DayWithTime(d) - 1524.5
  }

  /** The year term counts 365 days a year plus one every fourth year. */
  lemma YearTermExact(y: int)
    ensures YearTerm(y) == 365 * (y + 4716) + (y + 4716) / 4
  {
    var n := y + 4716;
    var q, r := n / 4, n % 4;
    assert n == 4 * q + r && 0 <= r < 4;
    assert 365.25 * n as real == (365 * n + q) as real + 0.25 * r as real;
  }

  /** The month term at every March-based month. */
  lemma MonthTermTable()
    ensures MonthTerm(3) == 122 && MonthTerm(4) == 153 && MonthTerm(5) == 183
    ensures MonthTerm(6) == 214 && MonthTerm(7) == 244 && MonthTerm(8) == 275
    ensures MonthTerm(9) == 306 && MonthTerm(10) == 336 && MonthTerm(11) == 367
    ensures MonthTerm(12) == 397 && MonthTerm(13) == 428 && MonthTerm(14) == 459
  {
  }

  /** A date at midnight. */
  function Midnight(y: int, m: int, day: int): LocalDateTime {
    LocalDateTime(y, m, day, 0, 0)
  }

  /** The whole-day part of the formula for a calendar month, before the day of the month is added. */
  function MonthStart(y: int, m: int): int {
    var ym := MarchBased(y, m);
    YearTerm(ym.0) + MonthTerm(ym.1) + CenturyTerm(ym.0)
  }

  /** At midnight the Julian day is the month's start plus the day of the month, less 1524.5. */
  lemma MidnightJulianDay(y: int, m: int, day: int)
    ensures JulianDay(Midnight(y, m, day)) == (MonthStart(y, m) + day) as real - 1524.5
  {
  }

  /** From one month's start to the next there are exactly as many days as the month has. */
  lemma MonthStartStep(y: int, m: int)
    requires 1 <= m <= 12
    ensures (if m == 12 then MonthStart(y + 1, 1) else MonthStart(y, m + 1)) == MonthStart(y, m) + DaysInMonth(y, m)
  {
    if m == 2 {
      FebruaryStep(y);
    } else {
      MonthTermTable();
      var ym := MarchBased(y, m);
      var yn := if m == 12 then MarchBased(y + 1, 1) else MarchBased(y, m + 1);
      assert yn.0 == ym.0 && yn.1 == ym.1 + 1;
    }
  }

  /** The counted year grows by 365 days, and by 366 when it ends with a leap day. */
  lemma YearStep(y: int)
    ensures YearTerm(y) - YearTerm(y - 1) == if y % 4 == 0 then 366 else 365
  {
    YearTermExact(y);
    YearTermExact(y - 1);
    LeapDayStep(y);
  }

  /** From February to March the counted year changes, bringing in the leap day and the century rule. */
  lemma FebruaryStep(y: int)
    ensures MonthStart(y, 3) == MonthStart(y, 2) + DaysInMonth(y, 2)
  {
    assert MonthTerm(3) == 122 && MonthTerm(14) == 459 by { MonthTermTable(); }
    YearStep(y);
    CenturyStep(y);
    LeapDayCount(y, YearTerm(y) - YearTerm(y - 1), CenturyTerm(y) - CenturyTerm(y - 1));
  }

  /** The year and century steps add up to the length of February. */
  lemma LeapDayCount(y: int, yearStep: int, centuryStep: int)
    requires yearStep == if y % 4 == 0 then 366 else 365
    requires centuryStep == if y % 100 == 0 && y % 400 != 0 then -1 else 0
    ensures yearStep + centuryStep - 337 == DaysInMonth(y, 2)
  {
    if y % 100 == 0 {
      var q := y / 100;
      assert y == 4 * (25 * q);
      assert y % 4 == 0;
      if y % 400 == 0 {
        assert IsLeapYear(y);
      } else {
        assert !IsLeapYear(y);
      }
    } else if y % 4 == 0 {
      assert IsLeapYear(y);
    } else {
      assert !IsLeapYear(y);
    }
  }

  /**
   * The formula counts days by the Gregorian calendar: the first of every month
   * comes exactly one day after the last day of the month before it, across
   * leap years, century years and the turn of the year.
   */
  lemma JulianDayFollowsGregorianCalendar(y: int, m: int)
    requires 1 <= m <= 12
    ensures var next := if m == 12 then Midnight(y + 1, 1, 1) else Midnight(y, m + 1, 1);
      JulianDay(next) == JulianDay(Midnight(y, m, DaysInMonth(y, m))) + 1.0
  {
    MonthStartStep(y, m);
    MidnightJulianDay(y, m, DaysInMonth(y, m));
    if m == 12 {
      MidnightJulianDay(y + 1, 1, 1);
    } else {
      MidnightJulianDay(y, m + 1, 1);
    }
  }

  /** The year term grows by one extra day exactly when the year is divisible by four. */
  lemma LeapDayStep(y: int)
    ensures (y + 4716) / 4 - (y + 4715) / 4 == if y % 4 == 0 then 1 else 0
  {
  }

  /** The century term drops by one at a century year that is not divisible by 400. */
  lemma CenturyStep(y: int)
    ensures CenturyTerm(y) - CenturyTerm(y - 1) ==
      if y % 100 == 0 && y % 400 != 0 then -1 else 0
  {
    if y % 100 == 0 {
      assert y / 100 == (y - 1) / 100 + 1;
      assert (y / 100) % 4 == 0 <==> y % 400 == 0;
    } else {
      assert y / 100 == (y - 1) / 100;
    }
  }

  /** Noon of 1 January 2000 is Julian day 2451545, the standard epoch J2000.0. */
  lemma JulianDayOfJ2000()
    ensures JulianDay(LocalDateTime(2000, 1, 1, 12, 0)) == 2451545.0
  {
    YearTermExact(1999);
    MonthTermTable();
  }

  /** The time of day adds its fraction of a day to the date's midnight. */
  lemma JulianDayTimeOfDay(d: LocalDateTime)
    ensures JulianDay(d) == JulianDay(Midnight(d.year, d.month, d.day))
      + (d.hour * 60 + d.minute) as real / 1440.0
  {
  }

  const SynodicMonth: real := 29.53059

  /** The reference new moon, 6 January 2000 18:14 UTC, as a Julian day. */
  const KnownNewMoonJD: real := 2451550.26

  /** The moon's age in days: the time since the reference new moon, wrapped into one synodic month. */
  function MoonAge(jd: real): (age: real)
    ensures 0.0 <= age < SynodicMonth
  {
    Wrap(jd - KnownNewMoonJD, SynodicMonth)
  }

  /** The age repeats after every whole number of synodic months, forwards or backwards. */
  lemma MoonAgePeriodic(jd: real, k: int)
    ensures MoonAge(jd + SynodicMonth * k as real) == MoonAge(jd)
  {
    assert jd + SynodicMonth * k as real - KnownNewMoonJD == (jd - KnownNewMoonJD) + SynodicMonth * k as real;
    ModShift(jd - KnownNewMoonJD, SynodicMonth, k);
  }

  /** Within the first synodic month after the reference, the age is the elapsed time itself. */
  lemma MoonAgeAfterReference(jd: real)
    requires KnownNewMoonJD <= jd < KnownNewMoonJD + SynodicMonth
    ensures MoonAge(jd) == jd - KnownNewMoonJD
  {
    ModOfInRange(jd - KnownNewMoonJD, SynodicMonth);
  }

  /**
   * `Math.floor((age / SYNODIC_MONTH) * 8) % 8`: phase k covers the k-th eighth
   * of the synodic month.
   */
  function PhaseIndex(age: real): (k: int)
    requires 0.0 <= age < SynodicMonth
    ensures 0 <= k < 8
    ensures k as real * SynodicMonth / 8.0 <= age < (k + 1) as real * SynodicMonth / 8.0
  {
    var f := ((age / SynodicMonth) * 8.0).Floor;
    PhaseFloorBounds(age, f);
    IntRem(f, 8)
  }

  lemma PhaseFloorBounds(age: real, f: int)
    requires 0.0 <= age < SynodicMonth
    requires f == ((age / SynodicMonth) * 8.0).Floor
    ensures 0 <= f < 8
    ensures f as real * SynodicMonth / 8.0 <= age < (f + 1) as real * SynodicMonth / 8.0
  {
    assert (age * 8.0) / SynodicMonth == (age / SynodicMonth) * 8.0;
    FloorDivBounds(age * 8.0, SynodicMonth, f);
    if f >= 8 {
      MulMonotone(SynodicMonth, 8.0, f as real);
      assert false;
    }
  }

  datatype MoonData = MoonData(phaseIndex: int, name: string, emoji: string, age: real, score: int)

  /** `getMoonData` without the illumination: phase, its table entry and the age to two decimals. */
  function GetMoonData(d: LocalDateTime): (r: MoonData)
    ensures 0 <= r.phaseIndex < 8
    ensures var p := MoonPhases[r.phaseIndex];
      r.name == p.name && r.emoji == p.emoji && r.score == p.score
    ensures var age := MoonAge(JulianDay(d));
      r.phaseIndex as real * SynodicMonth / 8.0 <= age < (r.phaseIndex + 1) as real * SynodicMonth / 8.0 &&
      r.age - 0.005 <= age < r.age + 0.005
    ensures 0.0 <= r.age <= 29.53
  {
    var age := MoonAge(JulianDay(d));
    var k := PhaseIndex(age);
    var p := MoonPhases[k];
    var rounded := Round(age * 100.0);
    MoonData(k, p.name, p.emoji, rounded as real / 100.0, p.score)
  }

  /** Two dates a whole number of synodic months apart show the same phase. */
  lemma PhaseRepeats(d1: LocalDateTime, d2: LocalDateTime, k: int)
    requires JulianDay(d2) == JulianDay(d1) + SynodicMonth * k as real
    ensures GetMoonData(d2).phaseIndex == GetMoonData(d1).phaseIndex
    ensures GetMoonData(d2).score == GetMoonData(d1).score
  {
    MoonAgePeriodic(JulianDay(d1), k);
  }

  /**
   * At the minute of the reference new moon, 18:14 on 6 January 2000, the
   * formula still lies a fraction of a minute before the reference Julian day,
   * so the phase shown is the waning crescent; one minute later it is new moon.
   */
  lemma ReferenceNewMoonMinute()
    ensures GetMoonData(LocalDateTime(2000, 1, 6, 18, 14)).phaseIndex == 7
    ensures GetMoonData(LocalDateTime(2000, 1, 6, 18, 15)).phaseIndex == 0
  {
    YearTermExact(1999);
    MonthTermTable();
    var before := JulianDay(LocalDateTime(2000, 1, 6, 18, 14));
    var after := JulianDay(LocalDateTime(2000, 1, 6, 18, 15));
    assert before == 2451550.0 + 0.75 + 14.0 / 1440.0 - 0.5;
    assert after == 2451550.0 + 0.75 + 15.0 / 1440.0 - 0.5;
    var delta := before - KnownNewMoonJD;
    assert -SynodicMonth <= delta < 0.0;
    FloorDivOf(delta, SynodicMonth, -1);
    var age := MoonAge(before);
    assert age == delta + SynodicMonth;
    assert age >= 7.0 * SynodicMonth / 8.0;
    MoonAgeAfterReference(after);
    assert MoonAge(after) < SynodicMonth / 8.0;
  }

  /** The daily delay of the transit, in hours: 24 h 50 min. */
  const LunarDayHours: real := 24.0 + 50.0 / 60.0

  /**
   * The transit hour from the moon's age and the longitude: noon at new moon,
   * later by the age's share of a lunar day, earlier by one hour per 15 degrees
   * east; `% 24` with a negative result lifted by 24.
   */
  function MoonTransit(age: real, lon: real): (t: real)
    ensures 0.0 <= t < 24.0
  {
    var x := Rem(12.0 + age * LunarDayHours / SynodicMonth - lon / 15.0, 24.0);
    if x < 0.0 then x + 24.0 else x
  }

  /** The transit is the unnormalised hour reduced into [0, 24). */
  lemma TransitIsNormalisedHour(age: real, lon: real)
    ensures MoonTransit(age, lon) == Mod(12.0 + age * LunarDayHours / SynodicMonth - lon / 15.0, 24.0)
  {
    var a := 12.0 + age * LunarDayHours / SynodicMonth - lon / 15.0;
    var x := Rem(a, 24.0);
    WrapIsMod(a, 24.0);
    if x < 0.0 {
      FloorDivOf(x + 24.0, 24.0, 0);
    } else {
      FloorDivOf(x + 24.0, 24.0, 1);
    }
  }

  /** Moving 15 degrees east brings the transit one hour earlier, wrapping at midnight. */
  lemma TransitLongitudeShift(age: real, lon: real)
    ensures MoonTransit(age, lon + 15.0) == Mod(MoonTransit(age, lon) - 1.0, 24.0)
  {
    var a := 12.0 + age * LunarDayHours / SynodicMonth - lon / 15.0;
    TransitIsNormalisedHour(age, lon);
    TransitIsNormalisedHour(age, lon + 15.0);
    assert 12.0 + age * LunarDayHours / SynodicMonth - (lon + 15.0) / 15.0 == a + -1.0;
    ModOfShiftedMod(a, -1.0, 24.0);
  }

  /** At new moon on the prime meridian the moon culminates at noon. */
  lemma TransitAtNewMoon()
    ensures MoonTransit(0.0, 0.0) == 12.0
  {
    TransitIsNormalisedHour(0.0, 0.0);
    ModOfInRange(12.0, 24.0);
  }

  /** `estimateMoonTransit`: the transit hour for a local date and a longitude. */
  function EstimateMoonTransit(d: LocalDateTime, lon: real): (t: real)
    ensures 0.0 <= t < 24.0
  {
    MoonTransit(MoonAge(JulianDay(d)), lon)
  }

  /** A wall-clock time of day. */
  datatype Clock = Clock(hour: int, minute: int) {
    predicate Valid() {
      0 <= hour < 24 && 0 <= minute < 60
    }

    /** Minutes since midnight, `h * 60 + m`. */
    function Minutes(): int {
      hour * 60 + minute
    }
  }

  /**
   * `formatDecimalHour`: the hour reduced into [0, 24), shown to the nearest
   * minute; when the minutes round up to 60 they are shown as 00 and the hour
   * is not advanced, so the clock then shows the whole hour before.
   */
  function FormatDecimalHour(x: real): (c: Clock)
    ensures c.Valid()
    ensures c.hour == Mod(x, 24.0).Floor
    ensures var h := Mod(x, 24.0);
      (c.Minutes() as real - 0.5 <= h * 60.0 < c.Minutes() as real + 0.5) ||
      (c.minute == 0 && c.hour as real * 60.0 + 59.5 <= h * 60.0)
  {
    var h := Wrap(x, 24.0);
    var hours := h.Floor;
    var minutes := Round((h - hours as real) * 60.0);
    Clock(hours, if minutes == 60 then 0 else minutes)
  }

  /** A decimal hour that is a whole number of minutes is shown exactly. */
  lemma FormatDecimalHourExact(c: Clock)
    requires c.Valid()
    ensures FormatDecimalHour(c.hour as real + c.minute as real / 60.0) == c
  {
    var x := c.hour as real + c.minute as real / 60.0;
    ModOfInRange(x, 24.0);
    assert x.Floor == c.hour;
    assert (x - c.hour as real) * 60.0 == c.minute as real;
  }

  /** Thirty seconds before two o'clock is shown as "13:00", not "14:00": the lost carry. */
  lemma FormatDecimalHourDropsCarry()
    ensures FormatDecimalHour(13.995) == Clock(13, 0)
  {
    ModOfInRange(13.995, 24.0);
    assert (13.995).Floor == 13;
    assert Round((13.995 - 13.0) * 60.0) == 60;
  }

  /** Shifting the decimal hour by whole hours shifts the shown hour round the clock and keeps the minute. */
  /** The same as `FormatDecimalHourShift`, for a later hour given by its value. */
  lemma FormatDecimalHourSpan(lo: real, hi: real, n: int)
    requires hi == lo + n as real
    ensures FormatDecimalHour(hi).hour == (FormatDecimalHour(lo).hour + n) % 24
    ensures FormatDecimalHour(hi).minute == FormatDecimalHour(lo).minute
  {
    FormatDecimalHourShift(lo, n);
  }

  lemma FormatDecimalHourShift(x: real, n: int)
    ensures FormatDecimalHour(x + n as real).hour == (FormatDecimalHour(x).hour + n) % 24
    ensures FormatDecimalHour(x + n as real).minute == FormatDecimalHour(x).minute
  {
    var h := Mod(x, 24.0);
    ModOfShiftedMod(x, n as real, 24.0);
    var k := ((h + n as real) / 24.0).Floor;
    var h2 := Mod(x + n as real, 24.0);
    assert h2 == Mod(h + n as real, 24.0);
    assert h2 == h + (n - 24 * k) as real;
    assert h2.Floor == h.Floor + n - 24 * k;
    assert h2 - h2.Floor as real == h - h.Floor as real;
    assert (h.Floor + n) % 24 == h.Floor + n - 24 * k;
  }

  /** The "HH:MM" text of a clock time: both fields padded to two digits. */
  function ClockText(c: Clock): (s: string)
    requires c.Valid()
    ensures |s| == 5 && s[2] == ':'
    ensures ParseClock(s) == Some(c)
  {
    var s := Pad2(c.hour) + ":" + Pad2(c.minute);
    assert s[..2] == Pad2(c.hour) && s[3..] == Pad2(c.minute);
    s
  }

  /** Reads an "HH:MM" text back; None for any other shape. */
  function ParseClock(s: string): Option<Clock> {
    if |s| == 5 && s[2] == ':' && AllDigits(s[..2]) && AllDigits(s[3..]) then
      Some(Clock(ParseNat(s[..2]), ParseNat(s[3..])))
    else None
  }

  datatype MoonTimes = MoonTimes(moonrise: Clock, moonset: Clock, transit: Clock)

  /**
   * `getMoonRiseSet`: rise and set are approximated as six hours either side of
   * the transit. The latitude does not enter the computation.
   */
  function GetMoonRiseSet(d: LocalDateTime, lat: real, lon: real): (r: MoonTimes)
    ensures r.moonrise.Valid() && r.moonset.Valid() && r.transit.Valid()
    ensures r.transit.hour == (r.moonrise.hour + 6) % 24 && r.transit.minute == r.moonrise.minute
    ensures r.moonset.hour == (r.moonrise.hour + 12) % 24 && r.moonset.minute == r.moonrise.minute
    ensures var t := EstimateMoonTransit(d, lon);
      r.transit == FormatDecimalHour(t) && r.moonrise == FormatDecimalHour(t - 6.0) &&
      r.moonset == FormatDecimalHour(t + 6.0)
  {
    var t := EstimateMoonTransit(d, lon);
    FormatDecimalHourShift(t - 6.0, 6);
    FormatDecimalHourShift(t - 6.0, 12);
    assert (t - 6.0) + 6 as real == t && (t - 6.0) + 12 as real == t + 6.0;
    MoonTimes(FormatDecimalHour(t - 6.0), FormatDecimalHour(t + 6.0), FormatDecimalHour(t))
  }
}
