/**
 * The proleptic Gregorian calendar in UTC, on integer day numbers counted
 * from 1970-01-01 (day 0) and on integer milliseconds since the Unix epoch.
 * This is the arithmetic behind the timestamp accessors the loader reads
 * (`hour`, `day`, `weekofyear`, `month`, `year`, `weekday`).
 */
module Calendar {

  const MillisPerSecond: int := 1000
  const MillisPerMinute: int := 60_000
  const MillisPerHour: int := 3_600_000
  const MillisPerDay: int := 86_400_000

  datatype Date = Date(year: int, month: int, day: int)

  datatype DateTime = DateTime(date: Date, hour: int, minute: int, second: int, millisecond: int)

  predicate IsLeapYear(y: int) {
    y % 4 == 0 && (y % 100 != 0 || y % 400 == 0)
  }

  function YearLength(y: int): int {
    if IsLeapYear(y) then 366 else 365
  }

  function DaysInMonth(y: int, m: int): int
    requires 1 <= m <= 12
  {
    if m == 2 then (if IsLeapYear(y) then 29 else 28)
    else if m == 4 || m == 6 || m == 9 || m == 11 then 30
    else 31
  }

  predicate ValidDate(d: Date) {
    1 <= d.month <= 12 && 1 <= d.day <= DaysInMonth(d.year, d.month)
  }

  predicate ValidDateTime(t: DateTime) {
    && ValidDate(t.date)
    && 0 <= t.hour < 24
    && 0 <= t.minute < 60
    && 0 <= t.second < 60
    && 0 <= t.millisecond < 1000
  }

  /** Day number of January 1st of year y: the lengths of the years from 1970 up to y summed. */
  function DaysBeforeYear(y: int): int
    decreases if y < 1970 then 1970 - y else y - 1970
  {
    if y == 1970 then 0
    else if y > 1970 then DaysBeforeYear(y - 1) + YearLength(y - 1)
    else DaysBeforeYear(y + 1) - YearLength(y)
  }

  /** Days of year y before the first of month m. */
  function DaysBeforeMonth(y: int, m: int): int
    requires 1 <= m <= 12
  {
    (if m == 1 then 0 else if m == 2 then 31 else if m == 3 then 59 else if m == 4 then 90
     else if m == 5 then 120 else if m == 6 then 151 else if m == 7 then 181 else if m == 8 then 212
     else if m == 9 then 243 else if m == 10 then 273 else if m == 11 then 304 else 334)
    + (if m > 2 && IsLeapYear(y) then 1 else 0)
  }

  /** Days since 1970-01-01 of a calendar date. */
  function DayNumber(d: Date): int
    requires ValidDate(d)
  {
    DaysBeforeYear(d.year) + DaysBeforeMonth(d.year, d.month) + d.day - 1
  }

  lemma DaysBeforeYearStep(y: int)
    ensures DaysBeforeYear(y + 1) == DaysBeforeYear(y) + YearLength(y)
  {
  }

  /** Number of leap years in [0, y), extended to negative y by floor division. */
  function LeapYearsBefore(y: int): int {
    (y + 3) / 4 - (y + 99) / 100 + (y + 399) / 400
  }

  /** The ceiling (a + n - 1) / n of a / n grows by one exactly when a passes a multiple of n. */
  lemma CeilingStep(a: int, n: int)
    requires n == 4 || n == 100 || n == 400
    ensures (a + n) / n - (a + n - 1) / n == if a % n == 0 then 1 else 0
  {
    var q, r := a / n, a % n;
    assert a == n * q + r;
    assert (a + n) / n == q + 1;
    if r == 0 {
      assert (a + n - 1) / n == q;
    } else {
      assert (a + n - 1) / n == q + 1;
    }
  }

  lemma LeapYearsBeforeStep(y: int)
    ensures LeapYearsBefore(y + 1) == LeapYearsBefore(y) + if IsLeapYear(y) then 1 else 0
  {
    CeilingStep(y, 4);
    CeilingStep(y, 100);
    CeilingStep(y, 400);
    var d4 := if y % 4 == 0 then 1 else 0;
    var d100 := if y % 100 == 0 then 1 else 0;
    var d400 := if y % 400 == 0 then 1 else 0;
    assert LeapYearsBefore(y + 1) - LeapYearsBefore(y) == d4 - d100 + d400;
    DivisorsOfCenturies(y);
  }

  lemma DivisorsOfCenturies(y: int)
    ensures y % 400 == 0 ==> y % 100 == 0
    ensures y % 100 == 0 ==> y % 4 == 0
  {
    if y % 400 == 0 {
      var q, d := y / 400, y / 100;
      assert y % 100 == 100 * (4 * q - d);
      assert 0 <= 4 * q - d < 1;
    }
    if y % 100 == 0 {
      var q, d := y / 100, y / 4;
      assert y % 4 == 4 * (25 * q - d);
      assert 0 <= 25 * q - d < 1;
    }
  }

  /** The year sum equals the closed Gregorian formula: 365 days a year plus one per leap year. */
  lemma {:induction false} DaysBeforeYearClosedForm(y: int)
    ensures DaysBeforeYear(y) == 365 * (y - 1970) + LeapYearsBefore(y) - LeapYearsBefore(1970)
    decreases if y < 1970 then 1970 - y else y - 1970
  {
    if y > 1970 {
      DaysBeforeYearClosedForm(y - 1);
      LeapYearsBeforeStep(y - 1);
    } else if y < 1970 {
      DaysBeforeYearClosedForm(y + 1);
      LeapYearsBeforeStep(y);
    }
  }

  lemma DaysBeforeMonthStep(y: int, m: int)
    requires 1 <= m < 12
    ensures DaysBeforeMonth(y, m + 1) == DaysBeforeMonth(y, m) + DaysInMonth(y, m)
  {
  }

  lemma {:induction false} DaysBeforeYearMonotone(a: int, b: int)
    requires a < b
    ensures DaysBeforeYear(a) + YearLength(a) <= DaysBeforeYear(b)
    decreases b - a
  {
    DaysBeforeYearStep(a);
    if a + 1 < b {
      DaysBeforeYearMonotone(a + 1, b);
    }
  }

  /** The year whose days include day number z, searching downwards from y. */
  function SearchYearDown(z: int, y: int): (r: int)
    requires z < DaysBeforeYear(y + 1)
    ensures DaysBeforeYear(r) <= z < DaysBeforeYear(r + 1)
    decreases DaysBeforeYear(y + 1) - z
  {
    DaysBeforeYearStep(y);
    if DaysBeforeYear(y) <= z then y else SearchYearDown(z, y - 1)
  }

  /** The year whose days include day number z, searching upwards from y. */
  function SearchYearUp(z: int, y: int): (r: int)
    requires DaysBeforeYear(y) <= z
    ensures DaysBeforeYear(r) <= z < DaysBeforeYear(r + 1)
    decreases z - DaysBeforeYear(y)
  {
    DaysBeforeYearStep(y);
    if z < DaysBeforeYear(y + 1) then y else SearchYearUp(z, y + 1)
  }

  /** The calendar year containing day number z. */
  function YearOfDay(z: int): (y: int)
    ensures DaysBeforeYear(y) <= z < DaysBeforeYear(y + 1)
  {
    var guess := 1970 + z / 365;
    if z < DaysBeforeYear(guess) then SearchYearDown(z, guess - 1) else SearchYearUp(z, guess)
  }

  /** YearOfDay finds the one year whose days hold z. */
  lemma YearOfDayUnique(z: int, y: int)
    requires DaysBeforeYear(y) <= z < DaysBeforeYear(y + 1)
    ensures YearOfDay(z) == y
  {
    var r := YearOfDay(z);
    DaysBeforeYearStep(y);
    DaysBeforeYearStep(r);
    if r < y {
      DaysBeforeYearMonotone(r, y);
      assert false;
    } else if y < r {
      DaysBeforeYearMonotone(y, r);
      assert false;
    }
  }

  /** The month of year y containing day doy (0-based) of that year, searching downwards from m. */
  function SearchMonth(y: int, doy: int, m: int): (r: int)
    requires 1 <= m <= 12
    requires 0 <= doy < DaysBeforeMonth(y, m) + DaysInMonth(y, m)
    ensures 1 <= r <= m
    ensures DaysBeforeMonth(y, r) <= doy < DaysBeforeMonth(y, r) + DaysInMonth(y, r)
  {
    if DaysBeforeMonth(y, m) <= doy || m == 1 then m
    else
      DaysBeforeMonthStep(y, m - 1);
      SearchMonth(y, doy, m - 1)
  }

  /** The calendar date of day number z. */
  function DateOfDay(z: int): (d: Date)
    ensures ValidDate(d) && DayNumber(d) == z
  {
    var y := YearOfDay(z);
    DaysBeforeYearStep(y);
    var doy := z - DaysBeforeYear(y);
    var m := SearchMonth(y, doy, 12);
    Date(y, m, doy - DaysBeforeMonth(y, m) + 1)
  }

  /** Distinct valid dates have distinct day numbers: DateOfDay is the inverse of DayNumber. */
  lemma DateOfDayNumber(d: Date)
    requires ValidDate(d)
    ensures DateOfDay(DayNumber(d)) == d
  {
    var z := DayNumber(d);
    var r := DateOfDay(z);
    DaysBeforeYearStep(d.year);
    DaysBeforeYearStep(r.year);
    if r.year < d.year {
      DaysBeforeYearMonotone(r.year, d.year);
      assert false;
    } else if d.year < r.year {
      DaysBeforeYearMonotone(d.year, r.year);
      assert false;
    }
    if d.month < r.month {
      MonthsAreOrdered(d.year, d.month, r.month);
      assert false;
    } else if r.month < d.month {
      MonthsAreOrdered(d.year, r.month, d.month);
      assert false;
    }
  }

  lemma MonthsAreOrdered(y: int, a: int, b: int)
    requires 1 <= a < b <= 12
    ensures DaysBeforeMonth(y, a) + DaysInMonth(y, a) <= DaysBeforeMonth(y, b)
  {
  }

  /** Day of the week of day number z, Monday = 0 (1970-01-01 was a Thursday). */
  function Weekday(z: int): (w: int)
    ensures 0 <= w <= 6
  {
    (z + 3) % 7
  }

  /** The weekdays run Monday to Sunday and round again, day after day, with 1970-01-01 a Thursday. */
  lemma WeekdayNext(z: int)
    ensures Weekday(0) == 3
    ensures Weekday(z + 1) == if Weekday(z) == 6 then 0 else Weekday(z) + 1
  {
  }

  /** The Monday that starts ISO week 1 of year y: the week holding y's first Thursday. */
  function IsoWeekOneMonday(y: int): (d: int)
    ensures Weekday(d) == 0
    ensures DaysBeforeYear(y) <= d + 3 < DaysBeforeYear(y) + 7
  {
    var jan4 := DaysBeforeYear(y) + 3;
    jan4 - Weekday(jan4)
  }

  lemma IsoYearLength(y: int)
    ensures IsoWeekOneMonday(y + 1) - IsoWeekOneMonday(y) == 364
         || IsoWeekOneMonday(y + 1) - IsoWeekOneMonday(y) == 371
  {
    DaysBeforeYearStep(y);
    var a, b := IsoWeekOneMonday(y), IsoWeekOneMonday(y + 1);
    assert (b - a) % 7 == 0 by {
      assert (a + 3) % 7 == 0 && (b + 3) % 7 == 0;
    }
  }

  /** ISO 8601 year and week number of day number z. */
  function IsoWeekDate(z: int): (yw: (int, int))
    ensures IsoWeekOneMonday(yw.0) <= z < IsoWeekOneMonday(yw.0 + 1)
    ensures 1 <= yw.1 <= 53
    ensures IsoWeekOneMonday(yw.0) + 7 * (yw.1 - 1) <= z < IsoWeekOneMonday(yw.0) + 7 * yw.1
  {
    var y := YearOfDay(z);
    DaysBeforeYearStep(y - 1);
    DaysBeforeYearStep(y);
    DaysBeforeYearStep(y + 1);
    var isoYear :=
      if z < IsoWeekOneMonday(y) then y - 1
      else if IsoWeekOneMonday(y + 1) <= z then y + 1
      else y;
    IsoYearLength(isoYear);
    (isoYear, (z - IsoWeekOneMonday(isoYear)) / 7 + 1)
  }

  /** The ISO 8601 week number (1..53) of the date holding day number z. */
  function IsoWeek(z: int): int {
    IsoWeekDate(z).1
  }

  /** The UTC calendar breakdown of a millisecond epoch value (floor semantics before 1970). */
  function FromMillis(ms: int): (t: DateTime)
    ensures ValidDateTime(t) && ToMillis(t) == ms
    ensures DayNumber(t.date) == ms / MillisPerDay
  {
    MillisSplit(ms);
    var inDay := ms % MillisPerDay;
    var inHour := inDay % MillisPerHour;
    var inMinute := inHour % MillisPerMinute;
    DateTime(DateOfDay(ms / MillisPerDay),
             inDay / MillisPerHour, inHour / MillisPerMinute,
             inMinute / MillisPerSecond, inMinute % MillisPerSecond)
  }

  /** A millisecond count splits into whole days, then hours, minutes, seconds and milliseconds within the day. */
  lemma MillisSplit(ms: int)
    ensures var inDay := ms % MillisPerDay;
      var inHour := inDay % MillisPerHour;
      var inMinute := inHour % MillisPerMinute;
      && 0 <= inDay / MillisPerHour < 24
      && 0 <= inHour / MillisPerMinute < 60
      && 0 <= inMinute / MillisPerSecond < 60
      && 0 <= inMinute % MillisPerSecond < 1000
      && ms == ms / MillisPerDay * MillisPerDay + inDay / MillisPerHour * MillisPerHour
               + inHour / MillisPerMinute * MillisPerMinute
               + inMinute / MillisPerSecond * MillisPerSecond + inMinute % MillisPerSecond
  {
    var inDay := ms % MillisPerDay;
    var inHour := inDay % MillisPerHour;
    var inMinute := inHour % MillisPerMinute;
    assert ms == ms / MillisPerDay * MillisPerDay + inDay;
    assert inDay == inDay / MillisPerHour * MillisPerHour + inHour;
    assert inHour == inHour / MillisPerMinute * MillisPerMinute + inMinute;
    assert inMinute == inMinute / MillisPerSecond * MillisPerSecond + inMinute % MillisPerSecond;
  }

  function ToMillis(t: DateTime): int
    requires ValidDateTime(t)
  {
    DayNumber(t.date) * MillisPerDay + t.hour * MillisPerHour + t.minute * MillisPerMinute
    + t.second * MillisPerSecond + t.millisecond
  }

  /** FromMillis and ToMillis are mutually inverse: every valid breakdown names exactly one instant. */
  lemma ToFromMillis(t: DateTime)
    requires ValidDateTime(t)
    ensures FromMillis(ToMillis(t)) == t
  {
    var inMinute := t.second * MillisPerSecond + t.millisecond;
    var inHour := t.minute * MillisPerMinute + inMinute;
    var inDay := t.hour * MillisPerHour + inHour;
    var ms := ToMillis(t);
    assert ms == DayNumber(t.date) * MillisPerDay + inDay;
    QuotientAndRemainder(DayNumber(t.date), inDay, MillisPerDay);
    QuotientAndRemainder(t.hour, inHour, MillisPerHour);
    QuotientAndRemainder(t.minute, inMinute, MillisPerMinute);
    QuotientAndRemainder(t.second, t.millisecond, MillisPerSecond);
    assert ms / MillisPerDay == DayNumber(t.date) && ms % MillisPerDay == inDay;
    assert inDay / MillisPerHour == t.hour && inDay % MillisPerHour == inHour;
    assert inHour / MillisPerMinute == t.minute && inHour % MillisPerMinute == inMinute;
    DateOfDayNumber(t.date);
    assert FromMillis(ms) == DateTime(DateOfDay(DayNumber(t.date)), t.hour, t.minute,
                                      inMinute / MillisPerSecond, inMinute % MillisPerSecond);
  }

  /** A quotient and a remainder in range are recovered by division. */
  lemma QuotientAndRemainder(q: int, r: int, k: int)
    requires k == MillisPerSecond || k == MillisPerMinute || k == MillisPerHour || k == MillisPerDay
    requires 0 <= r < k
    ensures (q * k + r) / k == q && (q * k + r) % k == r
  {
    if k == MillisPerSecond {
      assert q * k + r == q * 1000 + r;
    } else if k == MillisPerMinute {
      assert q * k + r == q * 60_000 + r;
    } else if k == MillisPerHour {
      assert q * k + r == q * 3_600_000 + r;
    } else {
      assert q * k + r == q * 86_400_000 + r;
    }
  }

  /** 1541106106796 ms after the epoch is 2018-11-01T21:01:46.796Z. */
  lemma NovemberFirst2018(ms: int)
    requires ms == 1541106106796
    ensures FromMillis(ms) == DateTime(Date(2018, 11, 1), 21, 1, 46, 796)
  {
    var dt := DateTime(Date(2018, 11, 1), 21, 1, 46, 796);
    DaysBeforeYearClosedForm(2018);
    assert ToMillis(dt) == ms;
    ToFromMillis(dt);
  }

  /** Day 17836 (2018-11-01) is a Thursday in ISO week 44 of 2018. */
  lemma NovemberFirst2018Week(z: int)
    requires z == 17836
    ensures Weekday(z) == 3 && IsoWeekDate(z) == (2018, 44)
  {
    DaysBeforeYearClosedForm(2018);
    DaysBeforeYearClosedForm(2019);
    YearOfDayUnique(z, 2018);
  }
}
