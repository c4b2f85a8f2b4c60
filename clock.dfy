/** Timestamps.  The generators format every datetime with '%Y-%m-%d %H:%M:%S'
    and parse it back; that round trip is only the representation, so a
    timestamp here is the number of seconds since 1970-01-01 00:00:00 of the
    naive (time-zone free) datetime, and timedelta arithmetic is addition. */
module Clock {

  const SecondsPerMinute: int := 60
  const SecondsPerHour: int := 3600
  const SecondsPerDay: int := 86400

  datatype DateTime = DateTime(year: int, month: int, day: int, hour: int, minute: int, second: int)

  /** The ranges get_random_date draws each field from (randint bounds are
      inclusive; the day is capped at 28 so every month is valid). */
  predicate RandomDateFields(dt: DateTime, startYear: int, endYear: int)
  {
    && startYear <= dt.year <= endYear
    && 1 <= dt.month <= 12
    && 1 <= dt.day <= 28
    && 0 <= dt.hour <= 23
    && 0 <= dt.minute <= 59
    && 0 <= dt.second <= 59
  }

  /** Days from 1970-01-01 to the given proleptic Gregorian date. */
  function DaysFromCivil(year: int, month: int, day: int): int
    requires 1 <= month <= 12
  {
    var y := if month <= 2 then year - 1 else year;
    var era := y / 400;
    var yoe := y - era * 400;
    var mp := if month > 2 then month - 3 else month + 9;
    var doy := (153 * mp + 2) / 5 + day - 1;
    var doe := yoe * 365 + yoe / 4 - yoe / 100 + doy;
    era * 146097 + doe - 719468
  }

  function SecondOfDay(hour: int, minute: int, second: int): int
  {
    hour * SecondsPerHour + minute * SecondsPerMinute + second
  }

  /** datetime(year, month, day, hour, minute, second) as a timestamp. */
  function Timestamp(dt: DateTime): int
    requires 1 <= dt.month <= 12
  {
    DaysFromCivil(dt.year, dt.month, dt.day) * SecondsPerDay + SecondOfDay(dt.hour, dt.minute, dt.second)
  }

  /** datetime.replace(hour=h, minute=m) on a timestamp: the date and the
      seconds are kept. */
  function WithHourMinute(t: int, h: int, m: int): int
  {
    (t / SecondsPerDay) * SecondsPerDay + SecondOfDay(h, m, t % SecondsPerMinute)
  }

  lemma DivModUnique(q: int, r: int, m: int)
    requires m > 0 && 0 <= r < m
    ensures (q * m + r) / m == q && (q * m + r) % m == r
  {
    var n := q * m + r;
    var d := n / m - q;
    assert d * m == r - n % m;
  }

  /** The decomposition Python's strftime performs: hour, minute and second of
      a timestamp, read back from its second of the day. */
  function HourOf(t: int): int { (t % SecondsPerDay) / SecondsPerHour }
  function MinuteOf(t: int): int { (t % SecondsPerHour) / SecondsPerMinute }
  function SecondOf(t: int): int { t % SecondsPerMinute }
  function DayOf(t: int): int { t / SecondsPerDay }

  lemma TimeOfDayFields(day: int, h: int, m: int, s: int)
    requires 0 <= h <= 23 && 0 <= m <= 59 && 0 <= s <= 59
    ensures var t := day * SecondsPerDay + SecondOfDay(h, m, s);
      DayOf(t) == day && HourOf(t) == h && MinuteOf(t) == m && SecondOf(t) == s
  {
    var t := day * SecondsPerDay + SecondOfDay(h, m, s);
    DivModUnique(day, SecondOfDay(h, m, s), SecondsPerDay);
    DivModUnique(h, m * 60 + s, SecondsPerHour);
    DivModUnique(day * 24 + h, m * 60 + s, SecondsPerHour);
    assert t == (day * 24 + h) * SecondsPerHour + (m * 60 + s);
    DivModUnique(m, s, SecondsPerMinute);
    DivModUnique(day * 1440 + h * 60 + m, s, SecondsPerMinute);
    assert t == (day * 1440 + h * 60 + m) * SecondsPerMinute + s;
  }

  /** A drawn datetime keeps its drawn time of day once it is a timestamp. */
  lemma {:induction false} TimestampFields(dt: DateTime, startYear: int, endYear: int)
    requires RandomDateFields(dt, startYear, endYear)
    ensures DayOf(Timestamp(dt)) == DaysFromCivil(dt.year, dt.month, dt.day)
    ensures HourOf(Timestamp(dt)) == dt.hour
    ensures MinuteOf(Timestamp(dt)) == dt.minute
    ensures SecondOf(Timestamp(dt)) == dt.second
  {
    TimeOfDayFields(DaysFromCivil(dt.year, dt.month, dt.day), dt.hour, dt.minute, dt.second);
  }

  /** Replacing hour and minute keeps the date and the seconds, and the new
      hour and minute are the ones given. */
  lemma {:induction false} WithHourMinuteFields(t: int, h: int, m: int)
    requires 0 <= h <= 23 && 0 <= m <= 59
    ensures DayOf(WithHourMinute(t, h, m)) == DayOf(t)
    ensures SecondOf(WithHourMinute(t, h, m)) == SecondOf(t)
    ensures HourOf(WithHourMinute(t, h, m)) == h
    ensures MinuteOf(WithHourMinute(t, h, m)) == m
  {
    TimeOfDayFields(DayOf(t), h, m, SecondOf(t));
  }

  /** On a formatted datetime, the timestamp rewrite is datetime.replace. */
  lemma {:induction false} WithHourMinuteIsReplace(dt: DateTime, h: int, m: int)
    requires RandomDateFields(dt, dt.year, dt.year)
    requires 0 <= h <= 23 && 0 <= m <= 59
    ensures WithHourMinute(Timestamp(dt), h, m) == Timestamp(dt.(hour := h, minute := m))
  {
    TimestampFields(dt, dt.year, dt.year);
  }

  /** Days from 0000-03-01 to the first of March of year y (the year count
      DaysFromCivil starts from). */
  function MarchYearDays(y: int): int
  {
    var era := y / 400;
    var yoe := y - era * 400;
    era * 146097 + yoe * 365 + yoe / 4 - yoe / 100
  }

  /** A March-based year is 365 or 366 days long. */
  lemma MarchYearLength(y: int)
    ensures MarchYearDays(y) + 365 <= MarchYearDays(y + 1) <= MarchYearDays(y) + 366
  {
    var era := y / 400;
    var yoe := y - era * 400;
    assert 0 <= yoe < 400;
    assert MarchYearDays(y) == era * 146097 + yoe * 365 + yoe / 4 - yoe / 100;
    if yoe == 399 {
      assert (y + 1) / 400 == era + 1 && (y + 1) - (era + 1) * 400 == 0;
      assert MarchYearDays(y + 1) == (era + 1) * 146097;
      assert MarchYearDays(y) == era * 146097 + 145731;
    } else {
      assert (y + 1) / 400 == era && (y + 1) - era * 400 == yoe + 1;
      assert MarchYearDays(y + 1) == era * 146097 + (yoe + 1) * 365 + (yoe + 1) / 4 - (yoe + 1) / 100;
      var q4, q100 := yoe / 4, yoe / 100;
      assert q4 <= (yoe + 1) / 4 <= q4 + 1;
      assert q100 <= (yoe + 1) / 100 <= q100 + 1;
      if (yoe + 1) / 100 == q100 + 1 {
        assert yoe + 1 == 100 * (q100 + 1);
        assert (yoe + 1) / 4 == 25 * (q100 + 1);
      }
    }
  }

  lemma {:induction false} MarchYearMonotone(a: int, b: int)
    requires a <= b
    ensures MarchYearDays(a) <= MarchYearDays(b)
    decreases b - a
  {
    if a < b {
      MarchYearLength(a);
      MarchYearMonotone(a + 1, b);
    }
  }

  /** Every day get_random_date can draw in a year lies between the first of
      January and the 28th of December of that year. */
  lemma DayWithinYear(year: int, month: int, day: int)
    requires 1 <= month <= 12 && 1 <= day <= 28
    ensures DaysFromCivil(year, 1, 1) <= DaysFromCivil(year, month, day) <= DaysFromCivil(year, 12, 28)
  {
    MarchYearLength(year - 1);
    assert DaysFromCivil(year, 1, 1) == MarchYearDays(year - 1) + 306 - 719468;
    assert DaysFromCivil(year, 12, 28) == MarchYearDays(year) + 302 - 719468;
    var mp := if month > 2 then month - 3 else month + 9;
    var doy := (153 * mp + 2) / 5 + day - 1;
    if month <= 2 {
      assert 306 <= doy <= 364;
      assert DaysFromCivil(year, month, day) == MarchYearDays(year - 1) + doy - 719468;
    } else {
      assert 0 <= doy <= 302;
      assert DaysFromCivil(year, month, day) == MarchYearDays(year) + doy - 719468;
    }
  }

  /** The first of January moves forward with the year. */
  lemma YearStartMonotone(a: int, b: int)
    requires a <= b
    ensures DaysFromCivil(a, 1, 1) <= DaysFromCivil(b, 1, 1)
  {
    MarchYearMonotone(a - 1, b - 1);
  }

  lemma YearEndMonotone(a: int, b: int)
    requires a <= b
    ensures DaysFromCivil(a, 12, 28) <= DaysFromCivil(b, 12, 28)
  {
    MarchYearMonotone(a, b);
  }

  /** get_random_date(start, end) returns a datetime no earlier than
      start-01-01 00:00:00 and no later than end-12-28 23:59:59. */
  lemma RandomDateBounds(dt: DateTime, startYear: int, endYear: int)
    requires RandomDateFields(dt, startYear, endYear)
    ensures Timestamp(DateTime(startYear, 1, 1, 0, 0, 0)) <= Timestamp(dt)
    ensures Timestamp(dt) <= Timestamp(DateTime(endYear, 12, 28, 23, 59, 59))
  {
    DayWithinYear(dt.year, dt.month, dt.day);
    YearStartMonotone(startYear, dt.year);
    YearEndMonotone(dt.year, endYear);
  }
}
