/** Calendar dates as the core uses them: a date is a day number (days since
    1970-01-01, proleptic Gregorian), so that "the next day" is +1 and sorting by
    date is sorting by an integer.  The civil fields that pandas' `.dt` accessors
    expose (month, weekday, ISO week) are computed from the day number with
    Howard Hinnant's civil-calendar algorithms.  Times of day are not modelled. */
module Calendar {
  import opened Common

  type Date = int

  datatype Civil = Civil(year: int, month: int, day: int)

  predicate IsLeapYear(y: int)
  {
    y % 4 == 0 && (y % 100 != 0 || y % 400 == 0)
  }

  function DaysInMonth(y: int, m: int): (n: int)
    requires 1 <= m <= 12
    ensures 28 <= n <= 31
  {
    if m == 2 then (if IsLeapYear(y) then 29 else 28)
    else if m == 4 || m == 6 || m == 9 || m == 11 then 30
    else 31
  }

  predicate ValidCivil(c: Civil)
  {
    1 <= c.month <= 12 && 1 <= c.day <= DaysInMonth(c.year, c.month)
  }

  /** The day number of a civil date (days-from-civil). */
  function DaysFromCivil(c: Civil): Date
    requires 1 <= c.month <= 12
  {
    var y := if c.month <= 2 then c.year - 1 else c.year;
    var era := y / 400;
    var yoe := y - era * 400;
    var mp := if c.month > 2 then c.month - 3 else c.month + 9;
    var doy := (153 * mp + 2) / 5 + c.day - 1;
    var doe := yoe * 365 + yoe / 4 - yoe / 100 + doy;
    era * 146097 + doe - 719468
  }

  /** The civil date of a day number (civil-from-days). */
  function CivilFromDays(z: Date): Civil
  {
    var z' := z + 719468;
    var era := z' / 146097;
    var doe := z' - era * 146097;
    var yoe := (doe - doe / 1460 + doe / 36524 - doe / 146096) / 365;
    var doy := doe - (365 * yoe + yoe / 4 - yoe / 100);
    var mp := (5 * doy + 2) / 153;
    var d := doy - (153 * mp + 2) / 5 + 1;
    var m := if mp < 10 then mp + 3 else mp - 9;
    Civil(yoe + era * 400 + (if m <= 2 then 1 else 0), m, d)
  }

  function Month(z: Date): int
  {
    CivilFromDays(z).month
  }

  /** pandas' `dayofweek`: Monday is 0 and Sunday is 6 (1970-01-01 was a Thursday). */
  function DayOfWeek(z: Date): (w: int)
    ensures 0 <= w <= 6
  {
    (z + 3) % 7
  }

  /** Days of the week follow each other, the epoch is a Thursday, and a
      week later is the same day. */
  lemma {:induction false} DayOfWeekCycle(z: Date)
    ensures DayOfWeek(z + 1) == (DayOfWeek(z) + 1) % 7
    ensures DayOfWeek(z + 7) == DayOfWeek(z)
    ensures DayOfWeek(0) == 3
  {
    assert z + 1 + 3 == (z + 3) + 1;
  }

  /** The number of ISO weeks (52 or 53) of a year. */
  function IsoWeeksInYear(y: int): (n: int)
    ensures n == 52 || n == 53
  {
    var p := (y + y / 4 - y / 100 + y / 400) % 7;
    var y1 := y - 1;
    var q := (y1 + y1 / 4 - y1 / 100 + y1 / 400) % 7;
    if p == 4 || q == 3 then 53 else 52
  }

  /** pandas' `isocalendar().week`, the ISO 8601 week number. */
  function IsoWeek(z: Date): (w: int)
    ensures 1 <= w <= 53
  {
    var y := CivilFromDays(z).year;
    var ordinal := z - DaysFromCivil(Civil(y, 1, 1)) + 1;
    var wk := (ordinal - (DayOfWeek(z) + 1) + 10) / 7;
    if wk < 1 then IsoWeeksInYear(y - 1)
    else if wk > IsoWeeksInYear(y) then 1
    else wk
  }

  /** `datetime.strptime(text, '%d.%m.%y')` on the three two-digit fields of
      a `dd.mm.yy` text: years 00-68 are 2000-2068 and 69-99 are 1969-1999;
      a day or month out of range raises, here None. */
  function StrptimeDayMonthShortYear(dd: int, mm: int, yy: int): (r: Option<Date>)
    requires 0 <= yy <= 99
    ensures r.Some? <==> 1 <= mm <= 12 && 1 <= dd <= DaysInMonth(ShortYear(yy), mm)
    ensures r.Some? ==> r.value == DaysFromCivil(Civil(ShortYear(yy), mm, dd))
  {
    var y := ShortYear(yy);
    if 1 <= mm <= 12 && 1 <= dd <= DaysInMonth(y, mm) then Some(DaysFromCivil(Civil(y, mm, dd)))
    else None
  }

  /** strptime's `%y`: a two-digit year below 69 is in the 2000s, otherwise in the 1900s. */
  function ShortYear(yy: int): (y: int)
    requires 0 <= yy <= 99
    ensures 1969 <= y <= 2068
    ensures y % 100 == yy
  {
    if yy <= 68 then 2000 + yy else 1900 + yy
  }

  /** The epoch is day 0 both ways. */
  lemma {:induction false} EpochAnchor()
    ensures DaysFromCivil(Civil(1970, 1, 1)) == 0
    ensures CivilFromDays(0) == Civil(1970, 1, 1)
  {
    assert 719468 / 146097 == 4;
    assert 719468 - 4 * 146097 == 135080;
    assert 135080 / 1460 == 92 && 135080 / 36524 == 3 && 135080 / 146096 == 0;
    assert (135080 - 92 + 3 - 0) / 365 == 369;
    assert 369 / 4 == 92 && 369 / 100 == 3;
    assert 135080 - (365 * 369 + 92 - 3) == 306;
    assert (5 * 306 + 2) / 153 == 10;
    assert (153 * 10 + 2) / 5 == 306;
  }

  /** 2024-01-01, a Monday, is day 19723. */
  lemma {:induction false} NewYear2024Anchor()
    ensures DaysFromCivil(Civil(2024, 1, 1)) == 19723
    ensures DayOfWeek(19723) == 0
  {
  }
}
