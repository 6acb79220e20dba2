/**
 * Model of tools/Common.py: angle wrapping with numpy's remainder and the day-stepping
 * date range with its announced length.
 */
module Common {
  import opened Wrappers
  import Utility

  // ----- Angle wrapping -----

  /** np.remainder(x, m) = x - m * floor(x / m): the remainder takes the sign of the divisor. */
  function Remainder(x: real, m: real): real
    requires m != 0.0
  {
    x - m * (x / m).Floor as real
  }

  /** `a` and `b` differ by a whole number of turns of `period`. */
  predicate SameAngle(a: real, b: real, period: real)
    requires period != 0.0
  {
    Utility.IsWhole((a - b) / period)
  }

  /**
   * wrap_to360deg: positive angles land in [0, 360); zero and negative angles keep their sign
   * and land in (-360, 0], because the divisor is -360 for them.
   */
  function WrapTo360Deg(x: real): (r: real)
    ensures x > 0.0 ==> 0.0 <= r < 360.0
    ensures x <= 0.0 ==> -360.0 < r <= 0.0
    ensures SameAngle(r, x, 360.0)
  {
    var m := if x > 0.0 then 360.0 else -360.0;
    var f := (x / m).Floor;
    assert f as real <= x / m < f as real + 1.0;
    assert Utility.IsWhole(if x > 0.0 then -f as real else f as real);
    Remainder(x, m)
  }

  /** 2 * np.pi, the double nearest to a full turn in radians. */
  const TwoPi: real := 6.283185307179586

  lemma TwoPiIsTwicePi()
    ensures TwoPi == 2.0 * Utility.Pi
  {}

  /** wrap_to_2pi: the same wrapping with the period 2 pi. */
  function WrapTo2Pi(x: real): (r: real)
    ensures x > 0.0 ==> 0.0 <= r < TwoPi
    ensures x <= 0.0 ==> -TwoPi < r <= 0.0
    ensures SameAngle(r, x, TwoPi)
  {
    var m := if x > 0.0 then 6.283185307179586 else -6.283185307179586;
    var f := (x / m).Floor;
    assert f as real <= x / m < f as real + 1.0;
    assert Utility.IsWhole(if x > 0.0 then -f as real else f as real);
    Remainder(x, m)
  }

  /** Wrapping an already wrapped angle changes nothing. */
  lemma {:induction false} WrapTo360DegIdempotent(x: real)
    ensures WrapTo360Deg(WrapTo360Deg(x)) == WrapTo360Deg(x)
  {
    var r := WrapTo360Deg(x);
    if r > 0.0 {
      assert 0.0 <= r / 360.0 < 1.0;
      assert (r / 360.0).Floor == 0;
    } else {
      assert 0.0 <= r / -360.0 < 1.0;
      assert (r / -360.0).Floor == 0;
    }
  }

  /** A negative angle is not moved into [0, 360): wrap_to360deg(-90) is -90, not 270. */
  lemma NegativeAnglesStayNegative()
    ensures WrapTo360Deg(-90.0) == -90.0 && WrapTo360Deg(450.0) == 90.0
  {
    assert (-90.0 / -360.0).Floor == 0;
    assert (450.0 / 360.0).Floor == 1;
  }

  // ----- Dates -----

  /** A datetime: a day number and the time within that day in seconds (microseconds as fractions). */
  datatype Moment = Moment(day: int, seconds: real)
  type Datetime = m: Moment | 0.0 <= m.seconds < 86400.0 witness Moment(0, 0.0)

  /** (end - start).days: whole days elapsed, rounded down as timedelta normalises. */
  function DaysBetween(start: Datetime, end: Datetime): (d: int)
    ensures d as real * 86400.0 <= Elapsed(start, end) < (d + 1) as real * 86400.0
  {
    end.day - start.day - (if end.seconds < start.seconds then 1 else 0)
  }

  /** end - start in seconds. */
  function Elapsed(start: Datetime, end: Datetime): real
  {
    (end.day - start.day) as real * 86400.0 + end.seconds - start.seconds
  }

  /** start + timedelta(days) */
  function AddDays(start: Datetime, days: int): (d: Datetime)
    ensures Elapsed(start, d) == days as real * 86400.0
  {
    Moment(start.day + days, start.seconds)
  }

  /** The values range(cur, stop, step) yields, as Python's range iterates them. */
  function RangeFrom(cur: int, stop: int, step: int): (r: seq<int>)
    requires step != 0
    decreases if step > 0 then stop - cur else cur - stop
  {
    if (step > 0 && cur < stop) || (step < 0 && cur > stop) then [cur] + RangeFrom(cur + step, stop, step)
    else []
  }

  /** math.ceil(n / d) computed on the exact quotient: the least integer not below n / d. */
  function CeilDiv(n: int, d: int): (c: int)
    requires d != 0
    ensures d > 0 ==> (c - 1) * d < n <= c * d
    ensures d < 0 ==> c * d <= n < (c - 1) * d
  {
    if d > 0 then -((-n) / d) else -(n / (-d))
  }

  /** daterange(start, end, step): start, then every `step` days while range() still yields. */
  function Daterange(start: Datetime, end: Datetime, step: int := 1): (r: Result<seq<Datetime>>)
    ensures r.Raise? <==> step == 0
  {
    if step == 0 then Raise(ValueError, "range() arg 3 must not be zero")
    else
      var days := RangeFrom(0, DaysBetween(start, end) + 1, step);
      var dates: seq<Datetime> := seq(|days|, k requires 0 <= k < |days| => AddDays(start, days[k]));
      Ok(dates)
  }

  /** daterange_length(start, end, step) = math.ceil(int((end - start).days + 1) / step). */
  function DaterangeLength(start: Datetime, end: Datetime, step: int := 1): (r: Result<int>)
    ensures r.Raise? <==> step == 0
  {
    if step == 0 then Raise(ZeroDivisionError, "division by zero")
    else Ok(CeilDiv(DaysBetween(start, end) + 1, step))
  }

  /** One step fewer to go lowers the ceiling by one. */
  lemma CeilDivShift(n: int, d: int)
    requires d != 0
    ensures CeilDiv(n - d, d) == CeilDiv(n, d) - 1
  {
    var c, c' := CeilDiv(n, d), CeilDiv(n - d, d);
    if d > 0 {
      assert (c' - 1) * d < n - d <= c' * d;
      assert (c' + 1 - 1) * d < n <= (c' + 1) * d;
      CeilUnique(n, d, c, c' + 1);
    } else {
      assert c' * d <= n - d < (c' - 1) * d;
      assert (c' + 1) * d <= n < (c' + 1 - 1) * d;
      CeilUnique(n, d, c, c' + 1);
    }
  }

  /** The ceiling is determined by its bracketing inequalities. */
  lemma CeilUnique(n: int, d: int, a: int, b: int)
    requires d != 0
    requires d > 0 ==> (a - 1) * d < n <= a * d && (b - 1) * d < n <= b * d
    requires d < 0 ==> a * d <= n < (a - 1) * d && b * d <= n < (b - 1) * d
    ensures a == b
  {
    if a < b {
      if d > 0 { MulMono(a, b - 1, d); } else { MulMono(a, b - 1, -d); }
    } else if b < a {
      if d > 0 { MulMono(b, a - 1, d); } else { MulMono(b, a - 1, -d); }
    }
  }

  lemma MulMono(a: int, b: int, d: int)
    requires a <= b && d > 0
    ensures a * d <= b * d
  {}

  /** range(cur, stop, step) yields max(0, ceil((stop - cur) / step)) values. */
  lemma {:induction false} RangeFromLength(cur: int, stop: int, step: int)
    requires step != 0
    ensures |RangeFrom(cur, stop, step)| == if CeilDiv(stop - cur, step) < 0 then 0 else CeilDiv(stop - cur, step)
    decreases if step > 0 then stop - cur else cur - stop
  {
    var c := CeilDiv(stop - cur, step);
    if (step > 0 && cur < stop) || (step < 0 && cur > stop) {
      RangeFromLength(cur + step, stop, step);
      CeilDivShift(stop - cur, step);
      if step > 0 { assert c * step >= stop - cur > 0; MulSignInt(c, step); }
      else { assert c * step <= stop - cur < 0; MulSignInt(c, step); }
    } else {
      if step > 0 { assert (c - 1) * step < stop - cur <= 0; MulSignInt(c - 1, step); }
      else { assert (c - 1) * step > stop - cur >= 0; MulSignInt(c - 1, step); }
    }
  }

  lemma MulNonNegInt(a: int, d: int)
    ensures a >= 0 && d > 0 ==> a * d >= 0
  {}

  lemma MulSignInt(a: int, d: int)
    requires d != 0
    ensures a * d > 0 ==> (a > 0 <==> d > 0)
    ensures a * d < 0 ==> (a > 0 <==> d < 0)
    ensures a >= 1 && d > 0 ==> a * d >= d
    ensures a <= -1 && d > 0 ==> a * d <= -d
    ensures a >= 1 && d < 0 ==> a * d <= d
    ensures a <= -1 && d < 0 ==> a * d >= -d
  {}

  /** The k-th value range(cur, stop, step) yields is cur + k * step, and it is short of `stop`. */
  lemma {:induction false} RangeFromAt(cur: int, stop: int, step: int, k: nat)
    requires step != 0 && k < |RangeFrom(cur, stop, step)|
    ensures RangeFrom(cur, stop, step)[k] == cur + k * step
    ensures step > 0 ==> cur + k * step < stop
    ensures step < 0 ==> cur + k * step > stop
    decreases k
  {
    if k > 0 {
      RangeFromAt(cur + step, stop, step, k - 1);
      assert cur + step + (k - 1) * step == cur + k * step;
    }
  }

  /**
   * With a positive step, daterange yields start + k*step days for k = 0, 1, ... while
   * k*step <= (end - start).days, in increasing order.
   */
  lemma {:induction false} DaterangeDates(start: Datetime, end: Datetime, step: int, k: nat)
    requires step >= 1
    requires k < |Daterange(start, end, step).value|
    ensures Daterange(start, end, step).value[k] == AddDays(start, k * step)
    ensures k * step <= DaysBetween(start, end)
    ensures k > 0 ==> Elapsed(Daterange(start, end, step).value[k - 1], Daterange(start, end, step).value[k]) == step as real * 86400.0
  {
    var n := DaysBetween(start, end) + 1;
    RangeFromAt(0, n, step, k);
    if k > 0 { RangeFromAt(0, n, step, k - 1); }
  }

  /** daterange_length counts daterange exactly when the ceiling is not negative, e.g. for any end >= start - 1 day with step 1. */
  lemma {:induction false} DaterangeLengthCounts(start: Datetime, end: Datetime, step: int)
    requires step != 0
    requires DaterangeLength(start, end, step).value >= 0
    ensures |Daterange(start, end, step).value| == DaterangeLength(start, end, step).value
  {
    RangeFromLength(0, DaysBetween(start, end) + 1, step);
  }

  /**
   * As written, daterange_length is negative once end lies a full step before start - 1 day,
   * while daterange is then empty.
   */
  lemma {:induction false} DaterangeLengthNegative(start: Datetime, end: Datetime, step: int)
    requires step >= 1 && DaysBetween(start, end) + 1 <= -step
    ensures Daterange(start, end, step).value == []
    ensures DaterangeLength(start, end, step).value < 0
  {
    var n := DaysBetween(start, end) + 1;
    RangeFromLength(0, n, step);
    MulNonNegInt(CeilDiv(n, step) - 1, step);
  }

  /** The concrete case: two days back with step 1 gives length -1 and no dates. */
  lemma DaterangeLengthCounterexample()
    ensures Daterange(Moment(2, 0.0), Moment(0, 0.0)).value == []
    ensures DaterangeLength(Moment(2, 0.0), Moment(0, 0.0)).value == -1
  {
    DaterangeLengthNegative(Moment(2, 0.0), Moment(0, 0.0), 1);
  }

  /** The evidently intended length: the number of dates daterange yields, never negative. */
  function DaterangeCount(start: Datetime, end: Datetime, step: int := 1): (r: Result<int>)
    ensures r.Raise? <==> step == 0
    ensures r.Ok? ==> r.value >= 0 && r.value == |Daterange(start, end, step).value|
  {
    if step == 0 then Raise(ZeroDivisionError, "division by zero")
    else
      var c := CeilDiv(DaysBetween(start, end) + 1, step);
      RangeFromLength(0, DaysBetween(start, end) + 1, step);
      Ok(if c < 0 then 0 else c)
  }
}
