/**
 * Proleptic Gregorian calendar dates as Python's `datetime.date` has them: years 1..9999,
 * day numbers counted from 0001-01-01 (`toordinal`), weekdays Monday = 0 .. Sunday = 6
 * (`weekday`), comparison in calendar order, and the ISO 8601 `YYYY-MM-DD` text that
 * `isoformat()[:10]` yields. A timestamp is an already-decomposed (date, hour, minute).
 */
module Calendar {
  import opened Text

  datatype Date = Date(year: int, month: int, day: int)

  /** A wall-clock instant: the date and the time of day of a `datetime`. */
  datatype Timestamp = Timestamp(date: Date, hour: int, minute: int)

  const Saturday := 5
  const Sunday := 6

  predicate IsLeap(y: int) {
    y % 4 == 0 && (y % 100 != 0 || y % 400 == 0)
  }

  function DaysInMonth(y: int, m: int): (n: int)
    requires 1 <= m <= 12
    ensures 28 <= n <= 31
  {
    if m == 2 then (if IsLeap(y) then 29 else 28)
    else if m == 4 || m == 6 || m == 9 || m == 11 then 30
    else 31
  }

  function DaysInYear(y: int): int {
    if IsLeap(y) then 366 else 365
  }

  /** The dates Python's `date` can represent (MINYEAR 1 to MAXYEAR 9999). */
  predicate ValidDate(d: Date) {
    1 <= d.year <= 9999 && 1 <= d.month <= 12 && 1 <= d.day <= DaysInMonth(d.year, d.month)
  }

  predicate ValidTimestamp(ts: Timestamp) {
    ValidDate(ts.date) && 0 <= ts.hour < 24 && 0 <= ts.minute < 60
  }

  /** Number of days in the years 1 .. y-1. */
  function DaysBeforeYear(y: int): int
    requires y >= 1
  {
    var p := y - 1;
    365 * p + p / 4 - p / 100 + p / 400
  }

  /** Number of days in the months 1 .. m-1 of year y. */
  function DaysBeforeMonth(y: int, m: int): int
    requires 1 <= m <= 12
  {
    if m == 1 then 0 else DaysBeforeMonth(y, m - 1) + DaysInMonth(y, m - 1)
  }

  /** date.toordinal(): 0001-01-01 is day 1. */
  function Ordinal(d: Date): int
    requires ValidDate(d)
  {
    DaysBeforeYear(d.year) + DaysBeforeMonth(d.year, d.month) + d.day
  }

  /** date.weekday(): Monday is 0 and Sunday is 6. */
  function Weekday(d: Date): (w: int)
    requires ValidDate(d)
    ensures 0 <= w < 7
  {
    (Ordinal(d) + 6) % 7
  }

  /** Python's date comparison `a <= b`: calendar order. */
  predicate DateLe(a: Date, b: Date) {
    a.year < b.year || (a.year == b.year && (a.month < b.month || (a.month == b.month && a.day <= b.day)))
  }

  /** d + timedelta(days=1). */
  function NextDay(d: Date): Date
    requires ValidDate(d)
  {
    if d.day < DaysInMonth(d.year, d.month) then Date(d.year, d.month, d.day + 1)
    else if d.month < 12 then Date(d.year, d.month + 1, 1)
    else Date(d.year + 1, 1, 1)
  }

  /** d - timedelta(days=1): the day whose ordinal is one less. */
  function PrevDay(d: Date): (r: Date)
    requires ValidDate(d) && d != Date(1, 1, 1)
    ensures ValidDate(r) && Ordinal(r) + 1 == Ordinal(d)
  {
    if d.day > 1 then Date(d.year, d.month, d.day - 1)
    else if d.month > 1 then
      assert DaysBeforeMonth(d.year, d.month) == DaysBeforeMonth(d.year, d.month - 1) + DaysInMonth(d.year, d.month - 1);
      Date(d.year, d.month - 1, DaysInMonth(d.year, d.month - 1))
    else
      NewYearOrdinal(d.year);
      Date(d.year - 1, 12, 31)
  }

  /** The first of January follows the thirty-first of December of the year before. */
  lemma NewYearOrdinal(y: int)
    requires 2 <= y <= 9999
    ensures Ordinal(Date(y, 1, 1)) == Ordinal(Date(y - 1, 12, 31)) + 1
  {
    YearStep(y - 1);
    MonthsOfYear(y - 1);
  }

  /** The days before year y + 1 are those before year y plus the length of year y. */
  lemma YearStep(y: int)
    requires y >= 1
    ensures DaysBeforeYear(y + 1) == DaysBeforeYear(y) + DaysInYear(y)
  {
    StepBy4(y);
    StepBy100(y);
    StepBy400(y);
    if y % 100 == 0 {
      CenturyIsLeapCandidate(y);
    }
    if y % 400 == 0 {
      QuadCenturyIsCentury(y);
    }
    var p := y - 1;
    assert DaysBeforeYear(y + 1) == 365 * y + y / 4 - y / 100 + y / 400;
    assert DaysBeforeYear(y) == 365 * p + p / 4 - p / 100 + p / 400;
  }

  /** Moving from y - 1 to y, the quotient by 4, 100 or 400 grows by one exactly when the
      divisor divides y. */
  lemma StepBy4(y: int)
    ensures y / 4 == (y - 1) / 4 + (if y % 4 == 0 then 1 else 0)
  {
    var q, r := (y - 1) / 4, (y - 1) % 4;
    assert y - 1 == 4 * q + r && 0 <= r < 4;
    if r == 3 {
      assert y == 4 * (q + 1);
      assert y / 4 == q + 1 && y % 4 == 0;
    } else {
      assert y == 4 * q + (r + 1) && 0 <= r + 1 < 4;
      assert y / 4 == q && y % 4 == r + 1;
    }
  }

  lemma StepBy100(y: int)
    ensures y / 100 == (y - 1) / 100 + (if y % 100 == 0 then 1 else 0)
  {
    var q, r := (y - 1) / 100, (y - 1) % 100;
    assert y - 1 == 100 * q + r && 0 <= r < 100;
    if r == 99 {
      assert y == 100 * (q + 1);
      assert y / 100 == q + 1 && y % 100 == 0;
    } else {
      assert y == 100 * q + (r + 1) && 0 <= r + 1 < 100;
      assert y / 100 == q && y % 100 == r + 1;
    }
  }

  lemma StepBy400(y: int)
    ensures y / 400 == (y - 1) / 400 + (if y % 400 == 0 then 1 else 0)
  {
    var q, r := (y - 1) / 400, (y - 1) % 400;
    assert y - 1 == 400 * q + r && 0 <= r < 400;
    if r == 399 {
      assert y == 400 * (q + 1);
      assert y / 400 == q + 1 && y % 400 == 0;
    } else {
      assert y == 400 * q + (r + 1) && 0 <= r + 1 < 400;
      assert y / 400 == q && y % 400 == r + 1;
    }
  }

  /** A multiple of 100 is a multiple of 4. */
  lemma CenturyIsLeapCandidate(y: int)
    requires y % 100 == 0
    ensures y % 4 == 0
  {
    var m := y / 100;
    assert y == 4 * (25 * m);
    assert y / 4 == 25 * m;
  }

  /** A multiple of 400 is a multiple of 100. */
  lemma QuadCenturyIsCentury(y: int)
    requires y % 400 == 0
    ensures y % 100 == 0
  {
    var m := y / 400;
    assert y == 100 * (4 * m);
    assert y / 100 == 4 * m;
  }

  /** The twelve months add up to the year. */
  lemma MonthsOfYear(y: int)
    ensures DaysBeforeMonth(y, 12) + 31 == DaysInYear(y)
  {
    var f := DaysInMonth(y, 2);
    assert DaysBeforeMonth(y, 2) == 31;
    assert DaysBeforeMonth(y, 3) == 31 + f;
    assert DaysBeforeMonth(y, 4) == 62 + f;
    assert DaysBeforeMonth(y, 5) == 92 + f;
    assert DaysBeforeMonth(y, 6) == 123 + f;
    assert DaysBeforeMonth(y, 7) == 153 + f;
    assert DaysBeforeMonth(y, 8) == 184 + f;
    assert DaysBeforeMonth(y, 9) == 215 + f;
    assert DaysBeforeMonth(y, 10) == 245 + f;
    assert DaysBeforeMonth(y, 11) == 276 + f;
  }

  /** The day after a representable date is one day later in the day count. */
  lemma NextDayOrdinal(d: Date)
    requires ValidDate(d) && (d.year < 9999 || d.month < 12 || d.day < 31)
    ensures ValidDate(NextDay(d)) && Ordinal(NextDay(d)) == Ordinal(d) + 1
  {
    if d.day == DaysInMonth(d.year, d.month) && d.month == 12 {
      YearStep(d.year);
      MonthsOfYear(d.year);
    }
  }

  /** The weekday function advances by one, modulo 7, from each day to the next. */
  lemma WeekdayNextDay(d: Date)
    requires ValidDate(d) && (d.year < 9999 || d.month < 12 || d.day < 31)
    ensures ValidDate(NextDay(d)) && Weekday(NextDay(d)) == (Weekday(d) + 1) % 7
  {
    NextDayOrdinal(d);
    WeekdayShift(Ordinal(d), 1);
  }

  /** Adding n days moves the weekday formula n steps round the week. */
  lemma WeekdayShift(o: int, n: int)
    ensures (o + n + 6) % 7 == ((o + 6) % 7 + n) % 7
  {
    var q, r := (o + 6) / 7, (o + 6) % 7;
    var t, s := (r + n) / 7, (r + n) % 7;
    assert o + n + 6 == 7 * (q + t) + s && 0 <= s < 7;
  }

  /** Within one month, the weekday moves with the day of the month. */
  lemma WeekdayInMonth(y: int, m: int, i: int, j: int)
    requires ValidDate(Date(y, m, i)) && ValidDate(Date(y, m, j))
    ensures Weekday(Date(y, m, j)) == (Weekday(Date(y, m, i)) + (j - i)) % 7
  {
    var o := Ordinal(Date(y, m, i));
    assert Ordinal(Date(y, m, j)) == o + (j - i);
    WeekdayShift(o, j - i);
  }

  /** 0001-01-01 and 2024-01-01 were Mondays; 2026-10-25 was a Sunday. */
  lemma WeekdayAnchors()
    ensures Weekday(Date(1, 1, 1)) == 0
    ensures Weekday(Date(2024, 1, 1)) == 0
    ensures Weekday(Date(2026, 10, 25)) == Sunday
  {
    assert DaysBeforeYear(2024) == 738885 && DaysBeforeYear(2026) == 739616;
    assert DaysBeforeMonth(2026, 10) == 273;
    assert Ordinal(Date(2024, 1, 1)) == 738886;
    assert Ordinal(Date(2026, 10, 25)) == 739914;
  }

  /** `isoformat()` of a date: four-digit year, two-digit month and day. */
  function IsoDate(d: Date): (s: string)
    requires ValidDate(d)
    ensures |s| == 10
  {
    Pad(d.year, 4) + MonthDayText(d)
  }

  /** The `-MM-DD` part of the ISO text. */
  function MonthDayText(d: Date): (s: string)
    requires ValidDate(d)
    ensures |s| == 6
  {
    "-" + (Pad(d.month, 2) + ("-" + Pad(d.day, 2)))
  }

  /** `at.isoformat()[:10]`: the date part of a timestamp as text. */
  function DateKey(ts: Timestamp): string
    requires ValidDate(ts.date)
  {
    IsoDate(ts.date)
  }

  /** The `-MM-DD` texts compare like (month, day) pairs. */
  lemma MonthDayOrder(a: Date, b: Date)
    requires ValidDate(a) && ValidDate(b)
    ensures StrLe(MonthDayText(a), MonthDayText(b)) <==>
            (a.month < b.month || (a.month == b.month && a.day <= b.day))
  {
    var ma, mb := Pad(a.month, 2), Pad(b.month, 2);
    var da, db := Pad(a.day, 2), Pad(b.day, 2);
    StrLeConcat("-", ma + ("-" + da), "-", mb + ("-" + db));
    PadOrder(a.month, b.month, 2);
    StrLeConcat(ma, "-" + da, mb, "-" + db);
    StrLeConcat("-", da, "-", db);
    PadOrder(a.day, b.day, 2);
  }

  /** ISO 8601 dates compare as text exactly as they compare in the calendar, which is what
      lets the tariff tables compare their text validity bounds with `<=`. */
  lemma IsoOrder(a: Date, b: Date)
    requires ValidDate(a) && ValidDate(b)
    ensures StrLe(IsoDate(a), IsoDate(b)) <==> DateLe(a, b)
  {
    PadOrder(a.year, b.year, 4);
    StrLeConcat(Pad(a.year, 4), MonthDayText(a), Pad(b.year, 4), MonthDayText(b));
    MonthDayOrder(a, b);
  }

  /** Distinct dates have distinct ISO text. */
  lemma IsoInjective(a: Date, b: Date)
    requires ValidDate(a) && ValidDate(b) && IsoDate(a) == IsoDate(b)
    ensures a == b
  {
    StrLeTotal(IsoDate(a), IsoDate(b));
    IsoOrder(a, b);
    IsoOrder(b, a);
  }
}
