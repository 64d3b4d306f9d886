/** Calendar dates as the application's `moment` calls see them: the local
    year, the month (1-12), the day of the month and the millisecond within
    that day. Time zones and the conversion from epoch milliseconds are not
    part of this model. */
module Calendar {

  import opened Text

  datatype DateTime = DateTime(year: int, month: int, day: int, msOfDay: int)

  const MsPerDay: int := 86400000

  predicate IsLeapYear(y: int) {
    (y % 4 == 0 && y % 100 != 0) || y % 400 == 0
  }

  /** `moment({year, month: month - 1}).daysInMonth()` for a month in 1..12. */
  function DaysInMonth(year: int, month: int): (n: int)
    requires 1 <= month <= 12
    ensures 28 <= n <= 31
    ensures n == 29 <==> month == 2 && IsLeapYear(year)
  {
    if month == 2 then (if IsLeapYear(year) then 29 else 28)
    else if month == 4 || month == 6 || month == 9 || month == 11 then 30
    else 31
  }

  /** A date whose fields are all in range. */
  predicate Valid(d: DateTime) {
    1 <= d.month <= 12 && 1 <= d.day <= DaysInMonth(d.year, d.month) && 0 <= d.msOfDay < MsPerDay
  }

  /** A number that orders dates the way `getTime()` does: later dates get
      larger numbers (it is not the epoch-millisecond value itself). */
  function Instant(d: DateTime): int {
    ((d.year * 12 + (d.month - 1)) * 31 + (d.day - 1)) * MsPerDay + d.msOfDay
  }

  /** Chronological order on the fields. */
  predicate Earlier(a: DateTime, b: DateTime) {
    || a.year < b.year
    || (a.year == b.year && a.month < b.month)
    || (a.year == b.year && a.month == b.month && a.day < b.day)
    || (a.year == b.year && a.month == b.month && a.day == b.day && a.msOfDay < b.msOfDay)
  }

  /** `Instant` is faithful to chronological order on valid dates, and two
      valid dates share an instant only when they are the same date. */
  lemma InstantOrder(a: DateTime, b: DateTime)
    requires Valid(a) && Valid(b)
    ensures Earlier(a, b) <==> Instant(a) < Instant(b)
    ensures Instant(a) == Instant(b) <==> a == b
  {
    var da := (a.year * 12 + (a.month - 1)) * 31 + (a.day - 1);
    var db := (b.year * 12 + (b.month - 1)) * 31 + (b.day - 1);
    DayIndexOrder(a, b);
    assert Instant(a) == da * MsPerDay + a.msOfDay;
    assert Instant(b) == db * MsPerDay + b.msOfDay;
    if da < db {
      ScaleLess(da, db);
    } else if db < da {
      ScaleLess(db, da);
    }
  }

  /** The day index of a date orders days chronologically. */
  lemma DayIndexOrder(a: DateTime, b: DateTime)
    requires Valid(a) && Valid(b)
    ensures var da := (a.year * 12 + (a.month - 1)) * 31 + (a.day - 1);
            var db := (b.year * 12 + (b.month - 1)) * 31 + (b.day - 1);
            (da < db <==> (a.year, a.month, a.day) != (b.year, b.month, b.day) && Earlier(DateTime(a.year, a.month, a.day, 0), DateTime(b.year, b.month, b.day, 0)))
            && (da == db <==> (a.year, a.month, a.day) == (b.year, b.month, b.day))
  {
    var ma := a.year * 12 + (a.month - 1);
    var mb := b.year * 12 + (b.month - 1);
    MonthIndexOrder(a.year, a.month, b.year, b.month);
    if ma < mb {
      ScaleLess31(ma, mb, a.day - 1, b.day - 1);
    } else if mb < ma {
      ScaleLess31(mb, ma, b.day - 1, a.day - 1);
    }
  }

  lemma MonthIndexOrder(y1: int, m1: int, y2: int, m2: int)
    requires 1 <= m1 <= 12 && 1 <= m2 <= 12
    ensures y1 * 12 + (m1 - 1) < y2 * 12 + (m2 - 1) <==> y1 < y2 || (y1 == y2 && m1 < m2)
    ensures y1 * 12 + (m1 - 1) == y2 * 12 + (m2 - 1) <==> y1 == y2 && m1 == m2
  {
    if y1 < y2 {
      assert y1 * 12 + 12 <= y2 * 12;
    } else if y2 < y1 {
      assert y2 * 12 + 12 <= y1 * 12;
    }
  }

  lemma ScaleLess31(x: int, y: int, i: int, j: int)
    requires x < y && 0 <= i < 31 && 0 <= j < 31
    ensures x * 31 + i < y * 31 + j
  {
    assert x * 31 + 31 <= y * 31;
  }

  lemma ScaleLess(x: int, y: int)
    requires x < y
    ensures x * MsPerDay + MsPerDay <= y * MsPerDay
  {
  }

  /** `moment(d).startOf('day')`. */
  function StartOfDay(d: DateTime): (r: DateTime)
    ensures r.year == d.year && r.month == d.month && r.day == d.day && r.msOfDay == 0
  {
    d.(msOfDay := 0)
  }

  /** `moment(d).endOf('day')`. */
  function EndOfDay(d: DateTime): (r: DateTime)
    ensures r.year == d.year && r.month == d.month && r.day == d.day && r.msOfDay == MsPerDay - 1
  {
    d.(msOfDay := MsPerDay - 1)
  }

  /** A valid date lies between the start and the end of its own day. */
  lemma WithinOwnDay(d: DateTime)
    requires Valid(d)
    ensures Instant(StartOfDay(d)) <= Instant(d) <= Instant(EndOfDay(d))
  {
  }

  /** The previous month as `getMonthlyComparison` computes it: one less,
      wrapping from January to December of the year before. */
  function PreviousMonth(month: int, year: int): (r: (int, int))
    ensures month == 1 ==> r == (12, year - 1)
    ensures month != 1 ==> r == (month - 1, year)
  {
    var prevMonth := month - 1;
    if prevMonth == 0 then (12, year - 1) else (prevMonth, year)
  }

  /** For a real month, the previous month is exactly one month earlier. */
  lemma PreviousMonthIsOneEarlier(month: int, year: int)
    requires 1 <= month <= 12
    ensures var (pm, py) := PreviousMonth(month, year);
            1 <= pm <= 12 && py * 12 + pm == year * 12 + month - 1
  {
  }

  /** Two-digit zero-padded rendering (`DD`, `MM`). */
  function Pad2(n: nat): (r: string)
    requires n < 100
    ensures |r| == 2 && AllDigits(r)
  {
    [DigitChar(n / 10), DigitChar(n % 10)]
  }

  /** Four-digit zero-padded rendering (`YYYY`) of a year in 0..9999. */
  function Pad4(n: nat): (r: string)
    requires n < 10000
    ensures |r| == 4 && AllDigits(r)
  {
    Pad2(n / 100) + Pad2(n % 100)
  }

  /** `moment(d).format('DD/MM/YYYY')`. */
  function FormatDayMonthYear(d: DateTime): (r: string)
    requires Valid(d) && 0 <= d.year < 10000
    ensures |r| == 10 && r[2] == '/' && r[5] == '/'
    ensures ';' !in r && '\n' !in r
  {
    Pad2(d.day) + "/" + Pad2(d.month) + "/" + Pad4(d.year)
  }

  /** `moment(d).format('YYYY-MM')`. */
  function FormatYearMonth(d: DateTime): (r: string)
    requires Valid(d) && 0 <= d.year < 10000
    ensures |r| == 7 && r[4] == '-'
  {
    Pad4(d.year) + "-" + Pad2(d.month)
  }
}
