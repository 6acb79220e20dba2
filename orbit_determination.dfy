/**
 * Model of the date and time helpers of tools/OrbitDetermination.py (section 5.4 and
 * algorithm 5.3 of the orbit-determination routines): julian_day, frac_day_2_hms and
 * local_sidereal_time, with their input checks.
 */
module OrbitDetermination {
  import opened Wrappers
  import Utility
  import Common

  /**
   * The six input checks shared by julian_day and local_sidereal_time, in their order:
   * the message of the first failing one, or None when all pass.
   * The day check does not depend on the month.
   */
  function InputError(year: int, month: int, day: int, hours: real, minutes: real, seconds: real): (e: Option<string>)
    ensures e.None? <==> 1901 <= year <= 2099 && 1 <= month <= 12 && 1 <= day <= 31
                         && 0.0 <= hours <= 23.0 && 0.0 <= minutes <= 59.0 && 0.0 <= seconds <= 59.0
  {
    if year < 1901 || year > 2099 then Some("Year must be in range 1901 - 2099")
    else if month < 1 || month > 12 then Some("Month must be in range 1 - 12")
    else if day < 1 || day > 31 then Some("Day must be in range 1 - 31")
    else if hours < 0.0 || hours > 23.0 then Some("Hours must be in range 0 - 23")
    else if minutes < 0.0 || minutes > 59.0 then Some("Minutes must be in range 0 - 59")
    else if seconds < 0.0 || seconds > 59.0 then Some("Seconds must be in range 0 - 59")
    else None
  }

  /**
   * J0, the Julian day number at 0 h UT. The int() truncations act on non-negative values
   * once the checks passed, so they are floor divisions.
   */
  function JulianDayAtMidnight(year: int, month: int, day: int): real
  {
    DayNumber(year, month, day) as real + 1721013.5
  }

  /** The whole-day part of J0, counted from the proleptic reference day of the formula. */
  function DayNumber(year: int, month: int, day: int): int
  {
    367 * year - (7 * (year + (month + 9) / 12)) / 4 + (275 * month) / 9 + day
  }

  /** Universal time in hours. */
  function UniversalTime(hours: real, minutes: real, seconds: real): real
  {
    hours + minutes / 60.0 + seconds / 3600.0
  }

  /** julian_day: raises the first failing check's message, else J0 + UT / 24. */
  function JulianDay(year: int, month: int, day: int, hours: real, minutes: real, seconds: real): (r: Result<real>)
    ensures r.Raise? <==> InputError(year, month, day, hours, minutes, seconds).Some?
    ensures r.Raise? ==> r.error == Exception && r.message == InputError(year, month, day, hours, minutes, seconds).value
    ensures r.Ok? ==> JulianDayAtMidnight(year, month, day) <= r.value < JulianDayAtMidnight(year, month, day) + 1.0
  {
    match InputError(year, month, day, hours, minutes, seconds)
    case Some(message) => Raise(Exception, message)
    case None => Ok(JulianDayAtMidnight(year, month, day) + UniversalTime(hours, minutes, seconds) / 24.0)
  }

  /** The epoch J2000, noon of 1 January 2000, is Julian day 2451545. */
  lemma JulianDayOfJ2000()
    ensures JulianDay(2000, 1, 1, 12.0, 0.0, 0.0) == Ok(2451545.0)
  {}

  /** Validation lets impossible dates through: 31 February 2023 gets a Julian day (that of 3 March). */
  lemma ThirtyFirstOfFebruaryAccepted()
    ensures JulianDay(2023, 2, 31, 0.0, 0.0, 0.0).Ok?
    ensures JulianDay(2023, 2, 31, 0.0, 0.0, 0.0) == JulianDay(2023, 3, 3, 0.0, 0.0, 0.0)
  {}

  /** For a fixed valid date, a later time of day gives a strictly larger Julian day. */
  lemma {:induction false} JulianDayIncreasing(year: int, month: int, day: int, h1: real, m1: real, s1: real, h2: real, m2: real, s2: real)
    requires JulianDay(year, month, day, h1, m1, s1).Ok? && JulianDay(year, month, day, h2, m2, s2).Ok?
    requires UniversalTime(h1, m1, s1) < UniversalTime(h2, m2, s2)
    ensures JulianDay(year, month, day, h1, m1, s1).value < JulianDay(year, month, day, h2, m2, s2).value
  {}

  /** Within a month, the next day number is exactly one Julian day later. */
  lemma {:induction false} JulianDayNextDay(year: int, month: int, day: int, hours: real, minutes: real, seconds: real)
    requires JulianDay(year, month, day, hours, minutes, seconds).Ok? && day < 31
    ensures JulianDay(year, month, day + 1, hours, minutes, seconds).value == JulianDay(year, month, day, hours, minutes, seconds).value + 1.0
  {}

  datatype Hms = Hms(hours: real, minutes: real, seconds: real)

  /** np.fix: rounding towards zero. */
  function Fix(x: real): (r: real)
    ensures Utility.IsWhole(r)
    ensures x >= 0.0 ==> 0.0 <= r <= x < r + 1.0
    ensures x < 0.0 ==> r - 1.0 < x <= r <= 0.0
  {
    Utility.TruncToInt(x) as real
  }

  /**
   * frac_day_2_hms: the hours, minutes and seconds of a fraction of a day. The three parts
   * always add back up to the fraction; a fraction in [0, 1) gives a clock reading.
   */
  function FracDay2Hms(fracDay: real): (t: Hms)
    ensures t.hours + t.minutes / 60.0 + t.seconds / 3600.0 == fracDay * 24.0
    ensures 0.0 <= fracDay < 1.0 ==>
      Utility.IsWhole(t.hours) && Utility.IsWhole(t.minutes)
      && 0.0 <= t.hours <= 23.0 && 0.0 <= t.minutes <= 59.0 && 0.0 <= t.seconds < 60.0
  {
    var temp := fracDay * 24.0;
    var hrs := Fix(temp);
    var mn := Fix((temp - hrs) * 60.0);
    var sec := (temp - hrs - mn / 60.0) * 3600.0;
    ClockBounds(fracDay, hrs, mn);
    Hms(hrs, mn, sec)
  }

  /** For a fraction of a day in [0, 1), the whole hours and minutes are clock readings. */
  lemma ClockBounds(fracDay: real, hrs: real, mn: real)
    requires hrs == Fix(fracDay * 24.0) && mn == Fix((fracDay * 24.0 - hrs) * 60.0)
    ensures 0.0 <= fracDay < 1.0 ==> 0.0 <= hrs <= 23.0 && 0.0 <= mn <= 59.0
  {
    if 0.0 <= fracDay < 1.0 {
      WholeBelow(hrs, 24.0);
      WholeBelow(mn, 60.0);
    }
  }

  /** A whole number below a whole bound is at most the bound minus one. */
  lemma WholeBelow(x: real, bound: real)
    requires Utility.IsWhole(x) && Utility.IsWhole(bound) && x < bound
    ensures x <= bound - 1.0
  {
    var a := x.Floor;
    var b := bound.Floor;
    assert a as real == x && b as real == bound;
    assert a <= b - 1;
  }

  /** Greenwich sidereal time at 0 h UT before wrapping, a cubic in Julian centuries since J2000. */
  function GreenwichSiderealAtMidnight(t0: real): real
  {
    100.4606184 + 36000.77004 * t0 + 0.000387933 * (t0 * t0) - 2.583e-8 * (t0 * t0 * t0)
  }

  /** The angle local_sidereal_time wraps last, from the wrapped Greenwich angle at 0 h UT. */
  function LocalAngle(thetaG0: real, ut: real, longitude: real): real
  {
    thetaG0 + 360.98564724 * ut / 24.0 + longitude
  }

  /**
   * local_sidereal_time: the same checks as julian_day, then the Greenwich sidereal time
   * advanced by the time of day, shifted by the east longitude and wrapped to 360 degrees.
   * The result differs from the unwrapped sum by whole turns.
   */
  function LocalSiderealTime(year: int, month: int, day: int, hours: real, minutes: real, seconds: real, longitude: real): (r: Result<real>)
    ensures r.Raise? <==> InputError(year, month, day, hours, minutes, seconds).Some?
    ensures r.Raise? ==> r.error == Exception && r.message == InputError(year, month, day, hours, minutes, seconds).value
    ensures r.Ok? ==> -360.0 < r.value < 360.0
    ensures r.Ok? ==>
      var t0 := (JulianDayAtMidnight(year, month, day) - 2451545.0) / 36525.0;
      var ut := UniversalTime(hours, minutes, seconds);
      var unwrapped := LocalAngle(Common.WrapTo360Deg(GreenwichSiderealAtMidnight(t0)), ut, longitude);
      Common.SameAngle(r.value, unwrapped, 360.0) && (unwrapped > 0.0 ==> 0.0 <= r.value < 360.0)
  {
    match InputError(year, month, day, hours, minutes, seconds)
    case Some(message) => Raise(Exception, message)
    case None =>
      var ut := UniversalTime(hours, minutes, seconds);
      var t0 := (JulianDayAtMidnight(year, month, day) - 2451545.0) / 36525.0;
      var thetaG0 := Common.WrapTo360Deg(GreenwichSiderealAtMidnight(t0));
      Ok(Common.WrapTo360Deg(LocalAngle(thetaG0, ut, longitude)))
  }
}
