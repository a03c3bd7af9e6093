/**
 * Device-local time, abstracted. A timestamp is a local calendar-day ordinal
 * (day 0 is 1 January 1970) with the local hour and minute of that day. The
 * local (year, month, day-of-month) of an ordinal comes from the proleptic
 * Gregorian calendar; time zones and daylight-saving shifts are not modelled.
 */
module Calendar {

  type Hour = h: int | 0 <= h < 24
  type Minute = m: int | 0 <= m < 60

  datatype Timestamp = Timestamp(day: int, hour: Hour, minute: Minute)

  /** A local calendar date; `month` runs from 1 to 12. */
  datatype CivilDate = CivilDate(year: int, month: int, date: int)

  /** `a` is not later than `b`: local wall-clock order, to the minute. */
  predicate NotAfter(a: Timestamp, b: Timestamp)
  {
    a.day < b.day || (a.day == b.day && (a.hour < b.hour || (a.hour == b.hour && a.minute <= b.minute)))
  }

  lemma NotAfterTransitive(a: Timestamp, b: Timestamp, c: Timestamp)
    requires NotAfter(a, b) && NotAfter(b, c)
    ensures NotAfter(a, c)
  {
  }

  /** The same wall-clock time `n` calendar days earlier (`setDate(getDate() - n)`). */
  function DaysBefore(t: Timestamp, n: nat): (u: Timestamp)
    ensures u.day + n == t.day && u.hour == t.hour && u.minute == t.minute
  {
    Timestamp(t.day - n, t.hour, t.minute)
  }

  /**
   * Splits a day of a 400-year era that starts on 1 March of year 0 into the
   * year of the era and the day of that (March-based) year.
   */
  function SplitEra(doe: int): (r: (int, int))
    requires 0 <= doe < 146097
    ensures 0 <= r.0 < 400 && 0 <= r.1 < 366
    ensures 365 * r.0 + r.0 / 4 - r.0 / 100 + r.1 == doe
  {
    var century := if doe >= 3 * 36524 then 3 else doe / 36524;
    var doc := doe - 36524 * century;
    var quad := doc / 1461;
    var doq := doc - 1461 * quad;
    var year := if doq >= 3 * 365 then 3 else doq / 365;
    var yoe := 100 * century + 4 * quad + year;
    assert yoe / 4 == 25 * century + quad;
    assert yoe / 100 == century;
    (yoe, doq - 365 * year)
  }

  /** Month (1 to 12) and day of month of a day of a March-based year. */
  function MonthOfYear(doy: int): (r: (int, int))
    requires 0 <= doy < 366
    ensures 1 <= r.0 <= 12 && 1 <= r.1 <= 31
    ensures MonthStart(r.0) + r.1 - 1 == doy
  {
    var mp := (5 * doy + 2) / 153;
    (if mp < 10 then mp + 3 else mp - 9, doy - (153 * mp + 2) / 5 + 1)
  }

  /** First day, counted from 1 March, of month `m` in a March-based year. */
  function MonthStart(m: int): int
  {
    (153 * (if m > 2 then m - 3 else m + 9) + 2) / 5
  }

  /** The local calendar date of day ordinal `z`. */
  function CivilFromDays(z: int): (c: CivilDate)
    ensures 1 <= c.month <= 12 && 1 <= c.date <= 31
  {
    var shifted := z + 719468;
    var era := shifted / 146097;
    var split := SplitEra(shifted - era * 146097);
    var md := MonthOfYear(split.1);
    CivilDate(split.0 + era * 400 + (if md.0 <= 2 then 1 else 0), md.0, md.1)
  }

  /** The day ordinal of a calendar date. */
  function DaysFromCivil(c: CivilDate): int
  {
    var y := c.year - (if c.month <= 2 then 1 else 0);
    var era := y / 400;
    var yoe := y - era * 400;
    var doe := yoe * 365 + yoe / 4 - yoe / 100 + MonthStart(c.month) + c.date - 1;
    era * 146097 + doe - 719468
  }

  lemma Div400(y: int, q: int)
    requires q * 400 <= y < q * 400 + 400
    ensures y / 400 == q
  {
  }

  /** Every day ordinal is recovered from its calendar date. */
  lemma DaysFromCivilFromDays(z: int)
    ensures DaysFromCivil(CivilFromDays(z)) == z
  {
    var shifted := z + 719468;
    var era := shifted / 146097;
    var split := SplitEra(shifted - era * 146097);
    var md := MonthOfYear(split.1);
    var c := CivilFromDays(z);
    assert c == CivilDate(split.0 + era * 400 + (if md.0 <= 2 then 1 else 0), md.0, md.1);
    Div400(c.year - (if c.month <= 2 then 1 else 0), era);
  }

  /** Distinct day ordinals fall on distinct calendar dates. */
  lemma CivilFromDaysInjective(a: int, b: int)
    requires CivilFromDays(a) == CivilFromDays(b)
    ensures a == b
  {
    DaysFromCivilFromDays(a);
    DaysFromCivilFromDays(b);
  }

  /** Two day ordinals fall on the same local date exactly when they are equal. */
  lemma SameDateIffSameDay(a: int, b: int)
    ensures CivilFromDays(a) == CivilFromDays(b) <==> a == b
  {
    if CivilFromDays(a) == CivilFromDays(b) {
      CivilFromDaysInjective(a, b);
    }
  }

  /** `getDay()`: 0 is Sunday; 1 January 1970 was a Thursday. */
  function Weekday(z: int): (w: int)
    ensures 0 <= w < 7
  {
    (z + 4) % 7
  }

  /** Consecutive days have consecutive weekdays. */
  lemma WeekdayNext(z: int)
    ensures Weekday(z + 1) == (Weekday(z) + 1) % 7
  {
  }

  /** Day 0 is Thursday 1 January 1970. */
  lemma EpochAnchor()
    ensures CivilFromDays(0) == CivilDate(1970, 1, 1) && Weekday(0) == 4
  {
  }

  /** Day 11016 is the leap day of 2000, the last day of a 400-year era. */
  lemma LeapDayAnchor()
    ensures CivilFromDays(11016) == CivilDate(2000, 2, 29)
  {
    assert 730484 / 146097 == 4;
    assert SplitEra(146096) == (399, 365);
    assert MonthOfYear(365) == (2, 29);
  }
}
