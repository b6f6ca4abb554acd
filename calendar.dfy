/** Timestamps and durations as whole minutes, with the proleptic Gregorian
    calendar split that `datetime`/`pandas` perform when a time is printed
    or parsed. */
module Calendar {
  import opened Wrappers
  import opened Text

  /** Minutes since 0001-01-01 00:00. */
  type Timestamp = nat

  /** Signed minutes (a `timedelta`). */
  type Duration = int

  const MinutesPerHour := 60
  const MinutesPerDay := 1440

  /** `int(d / pd.Timedelta(hours=1))`: whole hours, truncated toward zero. */
  function TruncHours(d: Duration): (h: int)
    ensures d >= 0 ==> 0 <= h * 60 <= d < h * 60 + 60
    ensures d < 0 ==> h <= 0 && d <= h * 60 < d + 60
  {
    if d >= 0 then d / 60 else -((-d) / 60)
  }

  datatype DateTime = DateTime(year: int, month: int, day: int, hour: int, minute: int)

  predicate IsLeap(y: int) {
    y % 4 == 0 && (y % 100 != 0 || y % 400 == 0)
  }

  function DaysInYear(y: int): nat {
    if IsLeap(y) then 366 else 365
  }

  /** The length of month `m` (1 for January) of year `y`. */
  function DaysInMonth(y: int, m: int): nat {
    if m == 2 then (if IsLeap(y) then 29 else 28)
    else if m == 4 || m == 6 || m == 9 || m == 11 then 30
    else if 1 <= m <= 12 then 31
    else 0
  }

  /** Days of year `y` before the first of month `m`; `m == 13` gives the
      whole year. */
  function DaysBeforeMonth(y: int, m: int): nat {
    var common :=
      if m <= 1 then 0 else if m == 2 then 31 else if m == 3 then 59
      else if m == 4 then 90 else if m == 5 then 120 else if m == 6 then 151
      else if m == 7 then 181 else if m == 8 then 212 else if m == 9 then 243
      else if m == 10 then 273 else if m == 11 then 304 else if m == 12 then 334
      else 365;
    common + if IsLeap(y) && m >= 3 then 1 else 0
  }

  /** The month table and the month lengths agree, and the months fill the
      year. */
  lemma MonthsFillYear(y: int, m: int)
    requires 1 <= m <= 12
    ensures DaysBeforeMonth(y, m + 1) == DaysBeforeMonth(y, m) + DaysInMonth(y, m)
    ensures DaysBeforeMonth(y, 13) == DaysInYear(y)
  {
  }

  lemma {:induction false} MonthsMonotone(y: int, a: int, b: int)
    requires 1 <= a <= b <= 13
    ensures DaysBeforeMonth(y, a) <= DaysBeforeMonth(y, b)
    decreases b - a
  {
    if a < b {
      MonthsFillYear(y, b - 1);
      MonthsMonotone(y, a, b - 1);
    }
  }

  predicate ValidDate(dt: DateTime) {
    && dt.year >= 1
    && 1 <= dt.month <= 12
    && 1 <= dt.day <= DaysInMonth(dt.year, dt.month)
    && 0 <= dt.hour < 24
    && 0 <= dt.minute < 60
  }

  /** Days from 0001-01-01 to January 1st of `y`. */
  function DaysBeforeYear(y: int): nat
    decreases y
  {
    if y <= 1 then 0 else DaysBeforeYear(y - 1) + DaysInYear(y - 1)
  }

  /** Days from 0001-01-01 to the given date. */
  function DayNumber(y: int, m: int, d: int): nat
    requires d >= 1
  {
    DaysBeforeYear(y) + DaysBeforeMonth(y, m) + d - 1
  }

  /** The minute count of a calendar date and time. */
  function FromCivil(dt: DateTime): Timestamp
    requires ValidDate(dt)
  {
    (DayNumber(dt.year, dt.month, dt.day) * 24 + dt.hour) * 60 + dt.minute
  }

  /** Splits a day count starting at January 1st of `y` into a year and a
      day of that year. */
  function YearOf(days: nat, y: int): (r: (int, nat))
    requires y >= 1
    ensures r.0 >= y && r.1 < DaysInYear(r.0)
    ensures DaysBeforeYear(r.0) - DaysBeforeYear(y) + r.1 == days
    decreases days
  {
    if days < DaysInYear(y) then (y, days)
    else
      var r := YearOf(days - DaysInYear(y), y + 1);
      YearsMonotone(y + 1, r.0);
      r
  }

  lemma {:induction false} YearsMonotone(a: int, b: int)
    requires 1 <= a <= b
    ensures DaysBeforeYear(a) <= DaysBeforeYear(b)
    decreases b - a
  {
    if a < b {
      YearsMonotone(a, b - 1);
    }
  }

  /** The month, from `m` on, holding day `doy` of year `y`. */
  function MonthOf(y: int, doy: nat, m: int): (r: int)
    requires 1 <= m <= 12 && DaysBeforeMonth(y, m) <= doy < DaysInYear(y)
    ensures m <= r <= 12 && DaysBeforeMonth(y, r) <= doy < DaysBeforeMonth(y, r + 1)
    decreases 12 - m
  {
    MonthsFillYear(y, m);
    if doy < DaysBeforeMonth(y, m + 1) then m else MonthOf(y, doy, m + 1)
  }

  /** The year, month and day of a day count. */
  function DaySplit(days: nat): (r: (int, int, int))
    ensures ValidDate(DateTime(r.0, r.1, r.2, 0, 0))
  {
    var (y, doy) := YearOf(days, 1);
    var m := MonthOf(y, doy, 1);
    MonthsFillYear(y, m);
    (y, m, doy - DaysBeforeMonth(y, m) + 1)
  }

  /** The calendar date and time of a minute count. */
  function ToCivil(t: Timestamp): (dt: DateTime)
    ensures ValidDate(dt)
  {
    var (y, m, d) := DaySplit(t / MinutesPerDay);
    var rest := t % MinutesPerDay;
    DateTime(y, m, d, rest / 60, rest % 60)
  }

  function Year(t: Timestamp): int { ToCivil(t).year }
  function Month(t: Timestamp): int { ToCivil(t).month }
  function Day(t: Timestamp): int { ToCivil(t).day }
  function Hour(t: Timestamp): int { ToCivil(t).hour }
  function Minute(t: Timestamp): int { ToCivil(t).minute }

  /** A minute count splits into whole days and the minutes of the day,
      and those into hours and minutes. */
  lemma ClockSplit(t: nat)
    ensures ((t / MinutesPerDay) * 24 + t % MinutesPerDay / 60) * 60 + t % MinutesPerDay % 60 == t
  {
  }

  /** The split of `ClockSplit` is the only one. */
  lemma ClockUnique(days: nat, hour: int, minute: int)
    requires 0 <= hour < 24 && 0 <= minute < 60
    ensures var t := (days * 24 + hour) * 60 + minute;
      t / MinutesPerDay == days && t % MinutesPerDay / 60 == hour && t % MinutesPerDay % 60 == minute
  {
    var rest := hour * 60 + minute;
    assert (days * 24 + hour) * 60 + minute == days * MinutesPerDay + rest;
  }

  /** Splitting a day count into a date and numbering the date again is
      lossless. */
  lemma DaySplitNumber(days: nat)
    ensures var r := DaySplit(days); DayNumber(r.0, r.1, r.2) == days
  {
  }

  /** Printing a time as a calendar date and reading it back is lossless. */
  lemma CivilRoundTrip(t: Timestamp)
    ensures FromCivil(ToCivil(t)) == t
  {
    DaySplitNumber(t / MinutesPerDay);
    ClockSplit(t);
  }

  lemma {:induction false} YearOfUnique(y0: int, y: int, d: nat)
    requires 1 <= y0 <= y
    requires d < DaysInYear(y)
    ensures DaysBeforeYear(y) - DaysBeforeYear(y0) + d >= 0
    ensures YearOf(DaysBeforeYear(y) - DaysBeforeYear(y0) + d, y0) == (y, d)
    decreases y - y0
  {
    YearsMonotone(y0, y);
    if y0 < y {
      YearsMonotone(y0 + 1, y);
      assert DaysBeforeYear(y0 + 1) == DaysBeforeYear(y0) + DaysInYear(y0);
      YearOfUnique(y0 + 1, y, d);
    }
  }

  lemma {:induction false} MonthOfUnique(y: int, doy: nat, m0: int, m: int)
    requires 1 <= m0 <= m <= 12
    requires DaysBeforeMonth(y, m) <= doy < DaysBeforeMonth(y, m + 1)
    ensures DaysBeforeMonth(y, m0) <= doy < DaysInYear(y)
    ensures MonthOf(y, doy, m0) == m
    decreases m - m0
  {
    MonthsMonotone(y, m0, m);
    MonthsMonotone(y, m + 1, 13);
    MonthsFillYear(y, m);
    if m0 < m {
      MonthsMonotone(y, m0 + 1, m);
      MonthOfUnique(y, doy, m0 + 1, m);
    }
  }

  lemma YearOfDay(y: int, d: nat, x: nat)
    requires y >= 1 && d < DaysInYear(y) && x == DaysBeforeYear(y) + d
    ensures YearOf(x, 1) == (y, d)
  {
    YearOfUnique(1, y, d);
  }

  /** Numbering a valid date and splitting the number again is lossless. */
  lemma DayNumberSplit(y: int, m: int, d: int)
    requires ValidDate(DateTime(y, m, d, 0, 0))
    ensures DaySplit(DayNumber(y, m, d)) == (y, m, d)
  {
    var doy := DaysBeforeMonth(y, m) + d - 1;
    MonthsFillYear(y, m);
    MonthOfUnique(y, doy, 1, m);
    YearOfDay(y, doy, DayNumber(y, m, d));
  }

  /** A valid calendar date survives the trip through minutes. */
  lemma CivilRoundTripBack(dt: DateTime)
    requires ValidDate(dt)
    ensures ToCivil(FromCivil(dt)) == dt
  {
    ClockUnique(DayNumber(dt.year, dt.month, dt.day), dt.hour, dt.minute);
    DayNumberSplit(dt.year, dt.month, dt.day);
  }

  // ---------------------------------------------------------------- month names

  const MonthAbbrs: seq<string> :=
    ["jan", "feb", "mar", "apr", "may", "jun", "jul", "aug", "sep", "oct", "nov", "dec"]

  /** `%b` for a lower-cased month abbreviation. */
  function ParseMonthAbbr(s: string): (r: Option<int>)
    ensures r.Some? ==> 1 <= r.value <= 12 && MonthAbbrs[r.value - 1] == s
    ensures r.None? ==> s !in MonthAbbrs
  {
    if s in MonthAbbrs then
      var i :| 0 <= i < 12 && MonthAbbrs[i] == s;
      Some(i + 1)
    else None
  }

  /** Builds a timestamp from calendar fields, failing as `datetime` does on
      an impossible date. */
  function MakeTimestamp(year: int, month: int, day: int, hour: int, minute: int): (r: Option<Timestamp>)
    ensures r.Some? <==> ValidDate(DateTime(year, month, day, hour, minute))
    ensures r.Some? ==> ToCivil(r.value) == DateTime(year, month, day, hour, minute)
  {
    var dt := DateTime(year, month, day, hour, minute);
    if ValidDate(dt) then
      CivilRoundTripBack(dt);
      Some(FromCivil(dt))
    else None
  }

  /** `t + d`, failing below the calendar's first minute as `datetime` does. */
  function Shift(t: Timestamp, d: Duration): (r: Option<Timestamp>)
    ensures r.Some? <==> t + d >= 0
    ensures r.Some? ==> r.value == t + d
  {
    if t + d >= 0 then Some(t + d) else None
  }

  // ---------------------------------------------------------- pandas range

  /** `pd.Timestamp` counts nanoseconds from 1970 in 64 bits, so it holds
      1677-09-21 00:12:43.145224193 to 2262-04-11 23:47:16.854775807; these
      are the first and last whole minutes of that span. */
  const FirstPandasMinute := DateTime(1677, 9, 21, 0, 13)
  const LastPandasMinute := DateTime(2262, 4, 11, 23, 47)

  /** A time `pd.Timestamp` can hold; any other raises `OutOfBoundsDatetime`. */
  predicate InPandasRange(t: Timestamp) {
    FromCivil(FirstPandasMinute) <= t <= FromCivil(LastPandasMinute)
  }

  /** A valid time lies within its year's minutes. */
  lemma YearSpan(dt: DateTime)
    requires ValidDate(dt)
    ensures DaysBeforeYear(dt.year) * MinutesPerDay <= FromCivil(dt)
    ensures FromCivil(dt) < DaysBeforeYear(dt.year + 1) * MinutesPerDay
  {
    MonthsFillYear(dt.year, dt.month);
    MonthsMonotone(dt.year, dt.month + 1, 13);
    var days := DayNumber(dt.year, dt.month, dt.day);
    assert days + 1 <= DaysBeforeYear(dt.year + 1);
    assert FromCivil(dt) < (days + 1) * MinutesPerDay;
  }

  /** pandas' range in years: every time of 1678 to 2261 is held, and no
      time before 1677 or after 2262. */
  lemma PandasYears(t: Timestamp)
    ensures 1678 <= Year(t) <= 2261 ==> InPandasRange(t)
    ensures InPandasRange(t) ==> 1677 <= Year(t) <= 2262
  {
    var dt := ToCivil(t);
    CivilRoundTrip(t);
    YearSpan(dt);
    YearSpan(FirstPandasMinute);
    YearSpan(LastPandasMinute);
    if dt.year >= 1678 {
      YearsMonotone(1678, dt.year);
    }
    if dt.year <= 1676 {
      YearsMonotone(dt.year + 1, 1677);
    }
    if dt.year <= 2261 {
      YearsMonotone(dt.year + 1, 2262);
    }
    if dt.year >= 2263 {
      YearsMonotone(2263, dt.year);
    }
  }
}
