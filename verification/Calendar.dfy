/**
 Civil dates as ECMAScript's Date computes them: day numbers, years and months of the proleptic
 Gregorian calendar (section 21.4.1 of ECMA-262), over unbounded integers.
 */
module Calendar {
  const MS_PER_DAY := 86400000
  const MS_PER_HOUR := 3600000
  const MS_PER_MINUTE := 60000

  function Day(t: int): int { t / MS_PER_DAY }

  function TimeWithinDay(t: int): int { t % MS_PER_DAY }

  predicate IsLeap(y: int) {
    y % 4 == 0 && (y % 100 != 0 || y % 400 == 0)
  }

  function DaysInYear(y: int): int { if IsLeap(y) then 366 else 365 }

  function DayFromYear(y: int): int {
    365 * (y - 1970) + (y - 1969) / 4 - (y - 1901) / 100 + (y - 1601) / 400
  }

  /** The largest year that begins on or before day d, searched from year y. */
  function YearSearch(d: int, y: int): (year: int)
    ensures DayFromYear(year) <= d < DayFromYear(year + 1)
    decreases d < DayFromYear(y), if d < DayFromYear(y) then DayFromYear(y) - d else d - DayFromYear(y)
  {
    hide DayFromYear, IsLeap;
    YearLength(y - 1);
    YearLength(y);
    if d < DayFromYear(y) then YearSearch(d, y - 1)
    else if d >= DayFromYear(y + 1) then YearSearch(d, y + 1)
    else y
  }

  function YearOf(d: int): (year: int)
    ensures DayFromYear(year) <= d < DayFromYear(year + 1)
  {
    YearSearch(d, 1970)
  }

  lemma {:induction false} FourYears(y: int)
    ensures (y - 1968) / 4 == (y - 1969) / 4 + if y % 4 == 0 then 1 else 0
  {
    var q, r := y / 4, y % 4;
    assert y - 1968 == 4 * (q - 492) + r && (y - 1968) / 4 == q - 492;
    assert y - 1969 == if r == 0 then 4 * (q - 493) + 3 else 4 * (q - 492) + (r - 1);
  }

  lemma {:induction false} Century(y: int)
    ensures (y - 1900) / 100 == (y - 1901) / 100 + if y % 100 == 0 then 1 else 0
  {
    var q, r := y / 100, y % 100;
    assert y - 1900 == 100 * (q - 19) + r && (y - 1900) / 100 == q - 19;
    assert y - 1901 == if r == 0 then 100 * (q - 20) + 99 else 100 * (q - 19) + (r - 1);
  }

  lemma {:induction false} FourCenturies(y: int)
    ensures (y - 1600) / 400 == (y - 1601) / 400 + if y % 400 == 0 then 1 else 0
  {
    var q, r := y / 400, y % 400;
    assert y - 1600 == 400 * (q - 4) + r && (y - 1600) / 400 == q - 4;
    assert y - 1601 == if r == 0 then 400 * (q - 5) + 399 else 400 * (q - 4) + (r - 1);
  }

  lemma {:induction false} HundredsAreFours(y: int)
    requires y % 100 == 0
    ensures y % 4 == 0
  {
    assert y == 4 * (25 * (y / 100));
  }

  lemma {:induction false} FourHundredsAreHundreds(y: int)
    requires y % 400 == 0
    ensures y % 100 == 0
  {
    assert y == 100 * (4 * (y / 400));
  }

  lemma {:induction false} YearLength(y: int)
    ensures DayFromYear(y + 1) == DayFromYear(y) + DaysInYear(y)
  {
    var a, b, c, d, e, f := (y - 1968) / 4, (y - 1969) / 4, (y - 1900) / 100, (y - 1901) / 100,
                            (y - 1600) / 400, (y - 1601) / 400;
    assert DayFromYear(y + 1) == 365 * (y + 1 - 1970) + a - c + e;
    assert DayFromYear(y) == 365 * (y - 1970) + b - d + f;
    hide DayFromYear;
    FourYears(y);
    Century(y);
    FourCenturies(y);
    if y % 100 == 0 {
      HundredsAreFours(y);
    }
    if y % 400 == 0 {
      FourHundredsAreHundreds(y);
    }
  }

  lemma {:induction false} YearsAdvance(y: int, z: int)
    requires y <= z
    ensures DayFromYear(y) + 365 * (z - y) <= DayFromYear(z)
    decreases z - y
  {
    if y < z {
      YearLength(y);
      YearsAdvance(y + 1, z);
    }
  }

  lemma {:induction false} YearIsUnique(d: int, y: int)
    requires DayFromYear(y) <= d < DayFromYear(y + 1)
    ensures y == YearOf(d)
  {
    if y < YearOf(d) {
      YearsAdvance(y + 1, YearOf(d));
    } else if YearOf(d) < y {
      YearsAdvance(YearOf(d) + 1, y);
    }
  }

  /** The day in a common year on which month m (0 to 11, and 12 for the end of the year) begins. */
  function MonthStart(m: int): int {
    if m < 6 then
      if m < 3 then (if m <= 0 then 0 else if m == 1 then 31 else 59)
      else (if m == 3 then 90 else if m == 4 then 120 else 151)
    else if m < 9 then (if m == 6 then 181 else if m == 7 then 212 else 243)
    else if m < 11 then (if m == 9 then 273 else 304)
    else if m == 11 then 334 else 365
  }

  function DaysBeforeMonth(m: int, leap: bool): int {
    MonthStart(m) + if leap && m >= 2 then 1 else 0
  }

  /** Every month has at least 28 days. */
  lemma {:induction false} MonthOrder(m: int, n: int, leap: bool)
    requires 0 <= m <= n <= 12
    ensures DaysBeforeMonth(m, leap) + 28 * (n - m) <= DaysBeforeMonth(n, leap)
    decreases n - m
  {
    if m < n {
      assert DaysBeforeMonth(m, leap) + 28 <= DaysBeforeMonth(m + 1, leap);
      hide DaysBeforeMonth;
      MonthOrder(m + 1, n, leap);
    }
  }

  lemma {:induction false} YearEnds(leap: bool)
    ensures DaysBeforeMonth(0, leap) == 0 && DaysBeforeMonth(12, leap) == if leap then 366 else 365
  {
  }

  function MonthSearch(dayInYear: int, leap: bool, m: int): (month: int)
    requires 0 <= m <= 11 && DaysBeforeMonth(m, leap) <= dayInYear < DaysBeforeMonth(12, leap)
    ensures m <= month <= 11
    ensures DaysBeforeMonth(month, leap) <= dayInYear < DaysBeforeMonth(month + 1, leap)
    decreases 12 - m
  {
    if dayInYear < DaysBeforeMonth(m + 1, leap) then m else MonthSearch(dayInYear, leap, m + 1)
  }

  /** A calendar date: month counts from 0, day from 1. */
  datatype Civil = Civil(year: int, month: int, day: int)

  predicate ValidCivil(c: Civil) {
    && 0 <= c.month <= 11
    && 1 <= c.day <= DaysBeforeMonth(c.month + 1, IsLeap(c.year)) - DaysBeforeMonth(c.month, IsLeap(c.year))
  }

  /** YearFromTime, MonthFromTime and DateFromTime of day d. */
  function CivilOf(d: int): (c: Civil)
    ensures ValidCivil(c)
  {
    var y := YearOf(d);
    YearLength(y);
    YearEnds(IsLeap(y));
    var dayInYear := d - DayFromYear(y);
    var m := MonthSearch(dayInYear, IsLeap(y), 0);
    Civil(y, m, dayInYear - DaysBeforeMonth(m, IsLeap(y)) + 1)
  }

  /** MakeDay: months and days may lie outside their usual range. */
  function MakeDay(year: int, month: int, date: int): int {
    var y := year + month / 12;
    DayFromYear(y) + DaysBeforeMonth(month % 12, IsLeap(y)) + date - 1
  }

  /** Sunday is 0; the epoch was a Thursday. */
  function WeekDay(d: int): int { (d + 4) % 7 }

  lemma {:induction false} MakeDayInYear(year: int, month: int, date: int)
    requires 0 <= month <= 11
    ensures MakeDay(year, month, date) == DayFromYear(year) + DaysBeforeMonth(month, IsLeap(year)) + date - 1
  {
    assert month / 12 == 0 && month % 12 == month;
    hide DayFromYear, DaysBeforeMonth, IsLeap;
  }

  /** Going from a day number to its date and back loses nothing. */
  lemma {:induction false} DayRoundTrip(d: int)
    ensures var c := CivilOf(d); MakeDay(c.year, c.month, c.day) == d
  {
    hide DayFromYear, DaysBeforeMonth, IsLeap, MakeDay, YearOf;
    var c := CivilOf(d);
    MakeDayInYear(c.year, c.month, c.day);
  }

  /** Going from a valid date to its day number and back loses nothing. */
  lemma {:induction false} CivilRoundTrip(c: Civil)
    requires ValidCivil(c)
    ensures CivilOf(MakeDay(c.year, c.month, c.day)) == c
  {
    hide DayFromYear, DaysBeforeMonth, IsLeap, MakeDay, YearOf;
    var d := MakeDay(c.year, c.month, c.day);
    DayInItsYear(c);
    YearIsUnique(d, c.year);
    MonthIsUnique(d - DayFromYear(c.year), IsLeap(c.year), c.month, CivilOf(d).month);
  }

  lemma {:induction false} DayInItsYear(c: Civil)
    requires ValidCivil(c)
    ensures
      var leap, d := IsLeap(c.year), MakeDay(c.year, c.month, c.day);
      && DayFromYear(c.year) <= d < DayFromYear(c.year + 1)
      && d - DayFromYear(c.year) == DaysBeforeMonth(c.month, leap) + c.day - 1
  {
    hide DayFromYear, DaysBeforeMonth, IsLeap, MakeDay;
    var leap := IsLeap(c.year);
    YearLength(c.year);
    YearEnds(leap);
    MakeDayInYear(c.year, c.month, c.day);
    MonthOrder(0, c.month, leap);
    MonthOrder(c.month + 1, 12, leap);
  }

  lemma {:induction false} MonthIsUnique(dayInYear: int, leap: bool, m: int, n: int)
    requires 0 <= m <= 11 && 0 <= n <= 11
    requires DaysBeforeMonth(m, leap) <= dayInYear < DaysBeforeMonth(m + 1, leap)
    requires DaysBeforeMonth(n, leap) <= dayInYear < DaysBeforeMonth(n + 1, leap)
    ensures m == n
  {
    hide DaysBeforeMonth;
    if m < n {
      MonthOrder(m + 1, n, leap);
    } else if n < m {
      MonthOrder(n + 1, m, leap);
    }
  }

  /** Overflowing days carry over months and years: k days later is k days later. */
  lemma {:induction false} DayOverflow(year: int, month: int, date: int, k: int)
    ensures MakeDay(year, month, date + k) == MakeDay(year, month, date) + k
    ensures var c := CivilOf(MakeDay(year, month, date) + k);
            MakeDay(c.year, c.month, c.day) == MakeDay(year, month, date + k)
  {
    DayRoundTrip(MakeDay(year, month, date) + k);
    hide DayFromYear, DaysBeforeMonth, IsLeap, CivilOf;
  }

  // --- known dates ---

  lemma {:induction false} FebruaryEnds(y: int)
    ensures MakeDay(y, 2, 1) - MakeDay(y, 1, 28) == if IsLeap(y) then 2 else 1
  {
    assert 2 / 12 == 0 && 1 / 12 == 0 && 2 % 12 == 2 && 1 % 12 == 1;
    hide IsLeap, DayFromYear;
  }

  lemma {:induction false} FirstOfJanuary(y: int)
    ensures MakeDay(y, 0, 1) == DayFromYear(y) && ValidCivil(Civil(y, 0, 1))
  {
    assert 0 / 12 == 0 && 0 % 12 == 0;
    hide IsLeap, DayFromYear;
  }

  lemma {:induction false} DayZero()
    ensures MakeDay(1970, 0, 1) == 0 && CivilOf(0) == Civil(1970, 0, 1)
  {
    assert DayFromYear(1970) == 0;
    hide CivilOf, YearOf, MakeDay, ValidCivil, DayFromYear;
    FirstOfJanuary(1970);
    CivilRoundTrip(Civil(1970, 0, 1));
  }

  /** Day 0 is the first of January 1970. Of the years 1900, 2000, 2023 and 2024 the second and the last have a
      leap day. */
  lemma {:induction false} KnownDates()
    ensures MakeDay(1970, 0, 1) == 0 && CivilOf(0) == Civil(1970, 0, 1)
    ensures MakeDay(1900, 2, 1) == MakeDay(1900, 1, 28) + 1 && MakeDay(2000, 2, 1) == MakeDay(2000, 1, 28) + 2
    ensures MakeDay(2023, 2, 1) == MakeDay(2023, 1, 28) + 1 && MakeDay(2024, 2, 1) == MakeDay(2024, 1, 28) + 2
  {
    hide MakeDay, CivilOf;
    DayZero();
    FebruaryEnds(1900);
    FebruaryEnds(2000);
    FebruaryEnds(2023);
    FebruaryEnds(2024);
  }

  /** The months of a common year, counted from 0, have their lengths. */
  lemma {:induction false} MonthLengths(m: int)
    requires 0 <= m < 12
    ensures MakeDay(2023, m + 1, 1) - MakeDay(2023, m, 1)
         == if m == 1 then 28 else if m == 3 || m == 5 || m == 8 || m == 10 then 30 else 31
  {
    if m == 11 {
      assert (m + 1) / 12 == 1 && (m + 1) % 12 == 0;
    } else {
      assert m / 12 == 0 && (m + 1) / 12 == 0;
    }
  }
}
