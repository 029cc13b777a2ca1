/** Dates as integer day numbers and the calendar fields pandas derives from
    them (`dt.weekday`, `dt.month`, `dt.day`, `dt.dayofyear`,
    `dt.isocalendar().week`).

    Day number 0 is 1970-01-01, a Thursday; the calendar is the proleptic
    Gregorian one that pandas timestamps use. */
module Calendar {

  const EpochYear: int := 1970

  /** Monday = 0 ... Sunday = 6, as `Timestamp.weekday()`. Day 0 is a Thursday (3). */
  function Weekday(d: int): (w: int)
    ensures 0 <= w < 7
  {
    (d + 3) % 7
  }

  /** Saturday (5) and Sunday (6). */
  predicate IsWeekendDay(d: int)
  {
    Weekday(d) == 5 || Weekday(d) == 6
  }

  predicate IsLeap(y: int)
  {
    y % 4 == 0 && (y % 100 != 0 || y % 400 == 0)
  }

  function YearLength(y: int): int
  {
    if IsLeap(y) then 366 else 365
  }

  /** The day number of 1 January of year `y`. */
  function YearStart(y: int): int
    decreases if y < EpochYear then EpochYear - y else y - EpochYear
  {
    if y == EpochYear then 0
    else if y > EpochYear then YearStart(y - 1) + YearLength(y - 1)
    else YearStart(y + 1) - YearLength(y)
  }

  lemma YearStartStep(y: int)
    ensures YearStart(y + 1) == YearStart(y) + YearLength(y)
  {
  }

  /** Years start in order: year `a` ends no later than year `b` starts when `a < b`. */
  lemma {:induction false} YearStartMonotone(a: int, b: int)
    requires a < b
    ensures YearStart(a) + YearLength(a) <= YearStart(b)
    decreases b - a
  {
    YearStartStep(a);
    if a + 1 < b {
      YearStartMonotone(a + 1, b);
    }
  }

  /** Finds the year holding day `YearStart(y) + off` and its zero-based ordinal in that year. */
  function LocateYear(y: int, off: int): (r: (int, int))
    ensures 0 <= r.1 < YearLength(r.0)
    ensures YearStart(r.0) + r.1 == YearStart(y) + off
    decreases if off < 0 then 366 - off else off
  {
    if off < 0 then
      YearStartStep(y - 1);
      LocateYear(y - 1, off + YearLength(y - 1))
    else if off >= YearLength(y) then
      YearStartStep(y);
      LocateYear(y + 1, off - YearLength(y))
    else (y, off)
  }

  function MonthLength(y: int, m: int): int
    requires 1 <= m <= 12
  {
    if m == 2 then (if IsLeap(y) then 29 else 28)
    else if m == 4 || m == 6 || m == 9 || m == 11 then 30
    else 31
  }

  /** Days of year `y` before the first of month `m`. */
  function DaysBeforeMonth(y: int, m: int): (n: int)
    requires 1 <= m <= 12
    ensures 0 <= n
  {
    if m == 1 then 0 else DaysBeforeMonth(y, m - 1) + MonthLength(y, m - 1)
  }

  lemma MonthsFillYear(y: int)
    ensures DaysBeforeMonth(y, 12) + MonthLength(y, 12) == YearLength(y)
  {
    var feb := MonthLength(y, 2);
    assert DaysBeforeMonth(y, 2) == 31;
    assert DaysBeforeMonth(y, 3) == 31 + feb;
    assert DaysBeforeMonth(y, 4) == 62 + feb;
    assert DaysBeforeMonth(y, 5) == 92 + feb;
    assert DaysBeforeMonth(y, 6) == 123 + feb;
    assert DaysBeforeMonth(y, 7) == 153 + feb;
    assert DaysBeforeMonth(y, 8) == 184 + feb;
    assert DaysBeforeMonth(y, 9) == 215 + feb;
    assert DaysBeforeMonth(y, 10) == 245 + feb;
    assert DaysBeforeMonth(y, 11) == 276 + feb;
    assert DaysBeforeMonth(y, 12) == 306 + feb;
  }

  /** The month of a zero-based ordinal, searching from month `m`, and the zero-based day in it. */
  function LocateMonth(y: int, m: int, off: int): (r: (int, int))
    requires 1 <= m <= 12
    requires 0 <= off && DaysBeforeMonth(y, m) + off < YearLength(y)
    ensures m <= r.0 <= 12
    ensures 0 <= r.1 < MonthLength(y, r.0)
    ensures DaysBeforeMonth(y, r.0) + r.1 == DaysBeforeMonth(y, m) + off
    decreases 12 - m
  {
    if off < MonthLength(y, m) then (m, off)
    else
      MonthsFillYear(y);
      LocateMonth(y, m + 1, off - MonthLength(y, m))
  }

  datatype Date = Date(year: int, month: int, day: int)

  predicate ValidDate(dt: Date)
  {
    1 <= dt.month <= 12 && 1 <= dt.day <= MonthLength(dt.year, dt.month)
  }

  /** The day number of a calendar date. */
  function DaysFromCivil(dt: Date): int
    requires ValidDate(dt)
  {
    YearStart(dt.year) + DaysBeforeMonth(dt.year, dt.month) + dt.day - 1
  }

  /** The calendar date of a day number; it is the date whose day number is `d`. */
  function CivilFromDays(d: int): (dt: Date)
    ensures ValidDate(dt)
    ensures DaysFromCivil(dt) == d
  {
    var (y, ord) := LocateYear(EpochYear, d);
    var (m, day0) := LocateMonth(y, 1, ord);
    Date(y, m, day0 + 1)
  }

  /** Distinct dates have distinct day numbers, so CivilFromDays inverts DaysFromCivil. */
  lemma CivilRoundTrip(dt: Date)
    requires ValidDate(dt)
    ensures CivilFromDays(DaysFromCivil(dt)) == dt
  {
    var d := DaysFromCivil(dt);
    var e := CivilFromDays(d);
    DaysBeforeMonthBound(dt.year, dt.month);
    DaysBeforeMonthBound(e.year, e.month);
    if dt.year < e.year {
      YearStartMonotone(dt.year, e.year);
      assert false;
    } else if e.year < dt.year {
      YearStartMonotone(e.year, dt.year);
      assert false;
    }
    DaysBeforeMonthInjective(dt.year, dt.month, dt.day - 1, e.month, e.day - 1);
  }

  lemma {:induction false} DaysBeforeMonthBound(y: int, m: int)
    requires 1 <= m <= 12
    ensures DaysBeforeMonth(y, m) + MonthLength(y, m) <= YearLength(y)
    decreases 12 - m
  {
    if m < 12 {
      DaysBeforeMonthBound(y, m + 1);
    } else {
      MonthsFillYear(y);
    }
  }

  lemma {:induction false} DaysBeforeMonthMonotone(y: int, a: int, b: int)
    requires 1 <= a < b <= 12
    ensures DaysBeforeMonth(y, a) + MonthLength(y, a) <= DaysBeforeMonth(y, b)
    decreases b - a
  {
    if a + 1 < b {
      DaysBeforeMonthMonotone(y, a + 1, b);
    }
  }

  lemma DaysBeforeMonthInjective(y: int, m1: int, o1: int, m2: int, o2: int)
    requires 1 <= m1 <= 12 && 0 <= o1 < MonthLength(y, m1)
    requires 1 <= m2 <= 12 && 0 <= o2 < MonthLength(y, m2)
    requires DaysBeforeMonth(y, m1) + o1 == DaysBeforeMonth(y, m2) + o2
    ensures m1 == m2 && o1 == o2
  {
    if m1 < m2 {
      DaysBeforeMonthMonotone(y, m1, m2);
    } else if m2 < m1 {
      DaysBeforeMonthMonotone(y, m2, m1);
    }
  }

  /** `dt.dayofyear`: 1 for 1 January. */
  function DayOfYear(d: int): (n: int)
    ensures 1 <= n <= 366
  {
    LocateYear(EpochYear, d).1 + 1
  }

  /** `dt.month`. */
  function Month(d: int): (m: int)
    ensures 1 <= m <= 12
  {
    CivilFromDays(d).month
  }

  /** `dt.day`. */
  function DayOfMonth(d: int): (n: int)
    ensures 1 <= n <= 31
  {
    CivilFromDays(d).day
  }

  /** Number of ISO weeks of year `y`: 53 when 1 January is a Thursday, or a
      Wednesday in a leap year; 52 otherwise. */
  function IsoWeeksInYear(y: int): int
  {
    var jan1 := Weekday(YearStart(y));
    if jan1 == 3 || (IsLeap(y) && jan1 == 2) then 53 else 52
  }

  /** `dt.isocalendar().week`: weeks start on Monday and week 1 holds the
      year's first Thursday; early January days can belong to the last week of
      the previous year and late December days to week 1 of the next. */
  function IsoWeek(d: int): (w: int)
    ensures 1 <= w <= 53
  {
    var (y, ord) := LocateYear(EpochYear, d);
    var w := (ord + 1 - (Weekday(d) + 1) + 10) / 7;
    if w < 1 then IsoWeeksInYear(y - 1)
    else if w > IsoWeeksInYear(y) then 1
    else w
  }
}
