/**
 * Time windows. An instant is a whole number of seconds in the bot's one
 * civil time zone: day * 86400 + seconds since midnight, where the day is
 * the proleptic Gregorian ordinal (0001-01-01 is day 1). Stored timestamps
 * compare as instants do, so a SQL `BETWEEN` is an inclusive range check.
 */
module Shifts {
  import opened Wrappers
  import opened Text

  const SecondsPerDay: int := 86400
  const SecondsPerHour: int := 3600

  /** Hour h:00:00 of day `day`. */
  function At(day: int, h: int): int
  {
    day * SecondsPerDay + h * SecondsPerHour
  }

  /** The day of an instant (the date part of the localized clock). */
  function DayOf(t: int): int
  {
    t / SecondsPerDay
  }

  function SecondOfDay(t: int): int
  {
    t % SecondsPerDay
  }

  lemma DayDecomposition(t: int)
    ensures t == At(DayOf(t), 0) + SecondOfDay(t)
    ensures 0 <= SecondOfDay(t) < SecondsPerDay
  {
  }

  /** `BETWEEN start AND end` */
  predicate InWindow(t: int, start: int, end: int)
  {
    start <= t <= end
  }

  /** A window to query and the shift name the reply uses. */
  datatype Shift = Shift(start: int, end: int, name: string)

  const MorningShift: string := "утреннюю смену"
  const EveningShift: string := "вечернюю смену"
  const EveningWithNight: string := "вечернюю смену (с учетом ночных часов)"
  const MorningNotStarted: string := "утреннюю смену (еще не началась)"

  /** get_shift_time_range, with the clock reading `now` as a parameter. */
  function ShiftTimeRange(now: int): Shift
  {
    var today := DayOf(now);
    var morningStart := At(today, 7);
    var morningEnd := At(today, 15);
    var eveningStart := At(today, 15);
    var eveningEnd := At(today, 23);
    if morningStart <= now < morningEnd then Shift(morningStart, morningEnd, MorningShift)
    else if eveningStart <= now < eveningEnd then Shift(eveningStart, eveningEnd, EveningShift)
    else if At(today, 0) <= now < At(today, 4) then Shift(At(today - 1, 15), At(today, 4), EveningWithNight)
    else if SecondOfDay(now) / SecondsPerHour >= 23 then Shift(eveningStart, eveningEnd, EveningShift)
    else Shift(morningStart, morningEnd, MorningNotStarted)
  }

  /**
   * The shift for each time of day: 07-15 the morning shift, 15-23 the
   * evening shift, 00-04 yesterday's evening shift up to 04:00 today, from
   * 23:00 today's evening shift, and 04-07 today's morning shift, not yet
   * started. Every window starts before it ends, and it holds `now`
   * except from 04:00 to 07:00 and from 23:00.
   */
  lemma ShiftTable(now: int)
    ensures var d := DayOf(now);
      var s := SecondOfDay(now);
      var r := ShiftTimeRange(now);
      && (7 * SecondsPerHour <= s < 15 * SecondsPerHour ==> r == Shift(At(d, 7), At(d, 15), MorningShift))
      && (15 * SecondsPerHour <= s < 23 * SecondsPerHour ==> r == Shift(At(d, 15), At(d, 23), EveningShift))
      && (s < 4 * SecondsPerHour ==> r == Shift(At(d - 1, 15), At(d, 4), EveningWithNight))
      && (s >= 23 * SecondsPerHour ==> r == Shift(At(d, 15), At(d, 23), EveningShift))
      && (4 * SecondsPerHour <= s < 7 * SecondsPerHour ==> r == Shift(At(d, 7), At(d, 15), MorningNotStarted))
    ensures ShiftTimeRange(now).start < ShiftTimeRange(now).end
    ensures var s := SecondOfDay(now);
      (ShiftTimeRange(now).start <= now < ShiftTimeRange(now).end) <==>
        !(4 * SecondsPerHour <= s < 7 * SecondsPerHour || s >= 23 * SecondsPerHour)
  {
    DayDecomposition(now);
  }

  /** get_shift_time_range_for_report: a fixed window of today by shift type; any other type is None. */
  function ReportShift(shiftType: string, now: int): Option<Shift>
  {
    var today := DayOf(now);
    if shiftType == "morning" then Some(Shift(At(today, 7), At(today, 15), MorningShift))
    else if shiftType == "evening" then Some(Shift(At(today, 15), At(today + 1, 4), EveningWithNight))
    else None
  }

  /** The morning report covers 07:00-15:00 today, the evening one 15:00 today to 04:00 tomorrow. */
  lemma ReportShiftWindows(shiftType: string, now: int)
    ensures ReportShift(shiftType, now).Some? <==> shiftType in {"morning", "evening"}
    ensures ReportShift(shiftType, now).Some? ==>
      var w := ReportShift(shiftType, now).value;
      && w.start < w.end
      && DayOf(w.start) == DayOf(now)
      && w.end - w.start == (if shiftType == "morning" then 8 else 13) * SecondsPerHour
  {
  }

  // ---------------------------------------------------------------------
  // The two windows of a day in the service report
  // ---------------------------------------------------------------------

  /** 07:00-15:00 of the day, both ends included. */
  predicate InMorningOf(t: int, day: int)
  {
    InWindow(t, At(day, 7), At(day, 15))
  }

  /** 15:00 of the day to 04:00 of the next, both ends included. */
  predicate InEveningOf(t: int, day: int)
  {
    InWindow(t, At(day, 15), At(day + 1, 4))
  }

  /** A record stamped exactly 15:00:00 is counted in both windows of its day. */
  lemma ThreePmInBoth(day: int)
    ensures InMorningOf(At(day, 15), day) && InEveningOf(At(day, 15), day)
  {
  }

  /**
   * A record stamped after 04:00:00 and before 07:00:00 is in no window of
   * any day; every other instant is in a window of its own day or of the
   * day before.
   */
  lemma WindowsCover(t: int)
    ensures var s := SecondOfDay(t);
      (4 * SecondsPerHour < s < 7 * SecondsPerHour) <==>
        forall day :: !InMorningOf(t, day) && !InEveningOf(t, day)
  {
    var s := SecondOfDay(t);
    var d := DayOf(t);
    DayDecomposition(t);
    if 4 * SecondsPerHour < s < 7 * SecondsPerHour {
      forall day ensures !InMorningOf(t, day) && !InEveningOf(t, day) {
        if day < d {
          assert At(day + 1, 4) <= At(d, 4);
        } else if day > d {
          assert At(day, 7) >= At(d + 1, 7);
        }
      }
    } else if s <= 4 * SecondsPerHour {
      assert InEveningOf(t, d - 1);
    } else if s <= 15 * SecondsPerHour {
      assert InMorningOf(t, d);
    } else {
      assert InEveningOf(t, d);
    }
  }

  // ---------------------------------------------------------------------
  // Calendar and get_month_start_end
  // ---------------------------------------------------------------------

  const MinYear: int := 1
  const MaxYear: int := 9999

  /** `datetime.date` takes its fields as C ints: a year outside this range raises OverflowError, not ValueError. */
  const CIntMin: int := -0x8000_0000
  const CIntMax: int := 0x7FFF_FFFF

  /** The first and the last day `datetime` can hold: 0001-01-01 and 9999-12-31. */
  const FirstOrdinal: int := 1
  const LastOrdinal: int := 3652059

  /**
   * The days whose instants `TIMEZONE.localize` accepts. The zone
   * (Asia/Almaty) has transitions, and pytz's `localize` also computes the
   * same clock reading one day earlier and one day later, which overflows
   * (OverflowError) on the first and on the last day `datetime` can hold.
   */
  predicate Localizable(day: int)
  {
    FirstOrdinal < day < LastOrdinal
  }

  lemma OrdinalBounds()
    ensures FirstOrdinal == Ordinal(MinYear, 1, 1)
    ensures LastOrdinal == Ordinal(MaxYear, 12, 31)
  {
    assert DaysBeforeYear(MaxYear) == 3651694;
    assert !IsLeap(MaxYear);
    assert DaysBeforeMonth(MaxYear, 12) == 334;
  }

  predicate IsLeap(y: int)
  {
    y % 4 == 0 && (y % 100 != 0 || y % 400 == 0)
  }

  function DaysInMonth(y: int, m: int): int
    requires 1 <= m <= 12
  {
    if m == 2 then (if IsLeap(y) then 29 else 28)
    else if m in {4, 6, 9, 11} then 30
    else 31
  }

  function DaysBeforeYear(y: int): int
    requires y >= 1
  {
    var p := y - 1;
    p * 365 + p / 4 - p / 100 + p / 400
  }

  /** Days of year y before the 1st of month m. */
  function DaysBeforeMonth(y: int, m: int): int
    requires 1 <= m <= 12
  {
    [0, 31, 59, 90, 120, 151, 181, 212, 243, 273, 304, 334][m - 1]
      + (if m > 2 && IsLeap(y) then 1 else 0)
  }

  /** `date(y, m, d).toordinal()` */
  function Ordinal(y: int, m: int, d: int): int
    requires y >= 1 && 1 <= m <= 12
  {
    DaysBeforeYear(y) + DaysBeforeMonth(y, m) + d
  }

  lemma YearLength(y: int)
    requires y >= 1
    ensures DaysBeforeYear(y + 1) - DaysBeforeYear(y) == if IsLeap(y) then 366 else 365
  {
    var p := y - 1;
    assert y / 4 == p / 4 + (if y % 4 == 0 then 1 else 0);
    assert y / 100 == p / 100 + (if y % 100 == 0 then 1 else 0);
    assert y / 400 == p / 400 + (if y % 400 == 0 then 1 else 0);
    if y % 100 == 0 { assert y % 4 == 0; }
    if y % 400 == 0 { assert y % 100 == 0; }
  }

  /** The 1st of the next month: December rolls over to January 1st of the next year. */
  function NextMonthStart(y: int, m: int): int
    requires y >= 1 && 1 <= m <= 12
  {
    if m == 12 then Ordinal(y + 1, 1, 1) else Ordinal(y, m + 1, 1)
  }

  lemma MonthLength(y: int, m: int)
    requires y >= 1 && 1 <= m <= 12
    ensures NextMonthStart(y, m) - Ordinal(y, m, 1) == DaysInMonth(y, m)
  {
    if m == 12 {
      YearLength(y);
    }
  }

  /**
   * The outcomes of get_month_start_end: the pair of Nones (its own
   * `except (ValueError, TypeError)`), an OverflowError that neither it nor
   * its caller catches, or the month's first instant and the next month's.
   */
  datatype MonthBounds = Invalid | Overflow | Bounds(start: int, end: int)

  /**
   * get_month_start_end: `int()` of both texts, the month's range check,
   * `date(year, month, 1)` and the 1st of the next month, then
   * `TIMEZONE.localize` of both at 00:00.
   */
  function MonthStartEnd(monthText: string, yearText: string): MonthBounds
  {
    match (ParseInt(monthText), ParseInt(yearText))
    case (Some(month), Some(year)) =>
      if !(1 <= month <= 12) then Invalid
      else if !(CIntMin <= year <= CIntMax) then Overflow
      else if !(MinYear <= year <= MaxYear) then Invalid
      else if month == 12 && year + 1 > MaxYear then Invalid
      else if !Localizable(Ordinal(year, month, 1)) || !Localizable(NextMonthStart(year, month)) then Overflow
      else Bounds(At(Ordinal(year, month, 1), 0), At(NextMonthStart(year, month), 0))
    case _ => Invalid
  }

  /**
   * The handler answers the format error exactly when an argument is not
   * an integer, the month is outside 1..12, the year is a C int outside
   * 1..9999, or the month is December 9999. It raises without replying
   * exactly for a year outside the C int range and for January of year 1,
   * whose first day pytz cannot localize. Otherwise the window is exactly
   * one calendar month long, and December's ends at January 1st of the
   * next year.
   */
  lemma MonthStartEndMeaning(monthText: string, yearText: string)
    ensures var r := MonthStartEnd(monthText, yearText);
      r.Invalid? <==>
        || ParseInt(monthText).None? || ParseInt(yearText).None?
        || !(1 <= ParseInt(monthText).value <= 12)
        || (CIntMin <= ParseInt(yearText).value <= CIntMax
            && (!(MinYear <= ParseInt(yearText).value <= MaxYear)
                || (ParseInt(monthText).value == 12 && ParseInt(yearText).value == MaxYear)))
    ensures var r := MonthStartEnd(monthText, yearText);
      r.Overflow? <==>
        && ParseInt(monthText).Some? && ParseInt(yearText).Some?
        && 1 <= ParseInt(monthText).value <= 12
        && (!(CIntMin <= ParseInt(yearText).value <= CIntMax)
            || (ParseInt(yearText).value == 1 && ParseInt(monthText).value == 1))
    ensures var r := MonthStartEnd(monthText, yearText);
      r.Bounds? ==>
        var month, year := ParseInt(monthText).value, ParseInt(yearText).value;
        && r.start == At(Ordinal(year, month, 1), 0)
        && r.end - r.start == DaysInMonth(year, month) * SecondsPerDay
        && r.start < r.end
        && (month == 12 ==> r.end == At(Ordinal(year + 1, 1, 1), 0))
  {
    var r := MonthStartEnd(monthText, yearText);
    if ParseInt(monthText).Some? && ParseInt(yearText).Some? {
      var month, year := ParseInt(monthText).value, ParseInt(yearText).value;
      if 1 <= month <= 12 && MinYear <= year <= MaxYear && !(month == 12 && year == MaxYear) {
        FirstOfMonthRange(year, month);
      }
      if r.Bounds? {
        MonthLength(year, month);
      }
    }
  }

  /**
   * Within 1..9999, only January of year 1 has a 1st of the month or a 1st
   * of the next month that pytz cannot localize.
   */
  lemma FirstOfMonthRange(year: int, month: int)
    requires MinYear <= year <= MaxYear && 1 <= month <= 12 && !(month == 12 && year == MaxYear)
    ensures Localizable(NextMonthStart(year, month))
    ensures Localizable(Ordinal(year, month, 1)) <==> !(year == 1 && month == 1)
  {
    MonthLength(year, month);
    DaysBeforeYearGrows(1, year);
    assert DaysBeforeYear(MaxYear) == 3651694;
    if month == 12 {
      DaysBeforeYearGrows(year + 1, MaxYear);
    } else {
      DaysBeforeYearGrows(year, MaxYear);
    }
  }

  /** Every year has at least 365 days. */
  lemma {:induction false} DaysBeforeYearGrows(a: int, b: int)
    requires 1 <= a <= b
    ensures DaysBeforeYear(a) + 365 * (b - a) <= DaysBeforeYear(b)
    decreases b - a
  {
    if a < b {
      YearLength(a);
      DaysBeforeYearGrows(a + 1, b);
    }
  }

  /** `strftime('%H:%M')` */
  function HourMinute(t: int): string
  {
    var s := SecondOfDay(t);
    TwoDigits(s / SecondsPerHour) + ":" + TwoDigits(s % SecondsPerHour / 60)
  }

  function TwoDigits(n: nat): string
  {
    if n < 10 then "0" + NatToString(n) else NatToString(n)
  }
}
