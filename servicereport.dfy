/**
 * The per-day service report (service_report_handler). The two dates of
 * the command arrive as day ordinals: date parsing (`strptime`) is the
 * parameter `parseDate`, and the `%d.%m` label of a day the parameter
 * `dayLabel`. Each visited day queries its morning window (07:00-15:00) and
 * its evening window (15:00 to 04:00 next day), both inclusive.
 */
module ServiceReport {
  import opened Wrappers
  import opened Text
  import opened Store
  import opened Counting
  import opened Sorting
  import opened Tallies
  import opened Shifts
  import opened Chunker

  const Usage: string := "Используйте: /service_report <начало> <конец>\nПример: /service_report 2024-07-15 2024-07-25"
  const BadDate: string := "Некорректный формат даты. Дата должна быть в YYYY-MM-DD."
  const MorningHeader: string := "Утренняя смена (7:00-15:00):"
  const EveningHeader: string := "Вечерняя смена (15:00-4:00):"
  const PeriodHeader: string := "<b>Итог по сервисам за период:</b>"

  function MorningRecords(rows: seq<Row>, d: int): seq<Record>
  {
    RecordsOf(Between(rows, At(d, 7), At(d, 15)))
  }

  function EveningRecords(rows: seq<Row>, d: int): seq<Record>
  {
    RecordsOf(Between(rows, At(d, 15), At(d + 1, 4)))
  }

  function DayTotalLine(total: nat): string
  {
    "<b>Итог за день: " + NatToString(total) + "</b>"
  }

  function GrandTotalLine(total: nat): string
  {
    "\n<b>Общий итог: " + NatToString(total) + " шт.</b>"
  }

  /** The lines of one day, from its label, its two window counters and its total. */
  function DayText(dayText: string, morning: Counter<string>, evening: Counter<string>, total: nat): seq<string>
  {
    ["<b>" + dayText + "</b>", MorningHeader]
      + ItemLines(Plain, SortedItems(morning))
      + [EveningHeader]
      + ItemLines(Plain, SortedItems(evening))
      + [DayTotalLine(total), ""]
  }

  /** The lines of one day. */
  function DayLines(rows: seq<Row>, d: int, dayLabel: int -> string): seq<string>
  {
    var m := ServicesOf(MorningRecords(rows, d));
    var e := ServicesOf(EveningRecords(rows, d));
    DayText(dayLabel(d), CounterOf(m), CounterOf(e), |m| + |e|)
  }

  /** The services counted on the days first..d-1, each day's morning window then its evening window. */
  function PeriodServices(rows: seq<Row>, first: int, d: int): seq<string>
    decreases d - first
  {
    if d <= first then []
    else
      PeriodServices(rows, first, d - 1)
        + ServicesOf(MorningRecords(rows, d - 1)) + ServicesOf(EveningRecords(rows, d - 1))
  }

  /** The day lines of the days first..d-1. */
  function DaysLines(rows: seq<Row>, first: int, d: int, dayLabel: int -> string): seq<string>
    decreases d - first
  {
    if d <= first then [] else DaysLines(rows, first, d - 1, dayLabel) + DayLines(rows, d - 1, dayLabel)
  }

  /** The report lines for the days first..endDate, both included. */
  function ReportLines(rows: seq<Row>, first: int, endDate: int, dayLabel: int -> string): seq<string>
  {
    var period := PeriodServices(rows, first, endDate + 1);
    DaysLines(rows, first, endDate + 1, dayLabel)
      + [PeriodHeader]
      + ItemLines(Plain, SortedItems(CounterOf(period)))
      + [GrandTotalLine(|period|)]
  }

  /**
   * The handler's answer to the argument text: a usage line unless there
   * are exactly two words, an error unless both parse as dates that
   * `localize` accepts (the start, and the day after the end); otherwise
   * the report of the start day through the day after the end, split into
   * messages. The empty sequence stands for the handler stopping on an
   * exception with nothing sent.
   */
  function ReportMessages(rows: seq<Row>, args: string, parseDate: string -> Option<int>, dayLabel: int -> string): seq<string>
  {
    var words := Words(args);
    if |words| != 2 then [Usage]
    else DatesAnswer(rows, parseDate(words[0]), parseDate(words[1]), dayLabel)
  }

  /** What the two parsed dates lead to: the date error, an uncaught exception, or the days to report. */
  datatype Period = BadDates | Raises | Days(first: int, endDate: int)

  /**
   * The two `localize` calls inside the `try` turn an overflow into the
   * date error; the loop's evening window localizes the day after each
   * visited day outside it, so reaching the day before 9999-12-31 raises.
   */
  function PeriodOf(first: Option<int>, last: Option<int>): Period
  {
    if first.None? || last.None? || !Localizable(first.value) || !Localizable(last.value + 1) then BadDates
    else if first.value <= last.value + 1 && !Localizable(last.value + 2) then Raises
    else Days(first.value, last.value + 1)
  }

  /** The answer once both arguments went through the date parser. */
  function DatesAnswer(rows: seq<Row>, first: Option<int>, last: Option<int>, dayLabel: int -> string): seq<string>
  {
    match PeriodOf(first, last)
    case BadDates => [BadDate]
    case Raises => []
    case Days(start, endDate) => Messages(Groups(ServiceReport, ReportLines(rows, start, endDate, dayLabel)))
  }

  // ---------------------------------------------------------------------
  // What the report says
  // ---------------------------------------------------------------------

  /**
   * The date edges: the date error unless both dates parse, the start is
   * strictly between 0001-01-01 and 9999-12-31 and the end is from
   * 0001-01-01 up to 9999-12-29; an exception when
   * the end is 9999-12-29 and the start no later than the day after it;
   * otherwise the start day through the day after the end.
   */
  lemma PeriodCases(first: Option<int>, last: Option<int>)
    ensures PeriodOf(first, last).BadDates? <==>
      || first.None? || last.None?
      || !(FirstOrdinal < first.value < LastOrdinal)
      || !(FirstOrdinal <= last.value < LastOrdinal - 1)
    ensures PeriodOf(first, last).Raises? <==>
      first.Some? && last.Some? && FirstOrdinal < first.value <= last.value + 1 && last.value == LastOrdinal - 2
    ensures PeriodOf(first, last).Days? ==>
      PeriodOf(first, last) == Days(first.value, last.value + 1)
  {
  }

  /**
   * The date error is sent exactly for bad dates, nothing exactly when the
   * handler raises, and otherwise at least one message, the report's lines
   * split into groups.
   */
  lemma DatesAnswerCases(rows: seq<Row>, first: Option<int>, last: Option<int>, dayLabel: int -> string)
    ensures var r := DatesAnswer(rows, first, last, dayLabel);
      && (r == [BadDate] <==> PeriodOf(first, last).BadDates?)
      && (r == [] <==> PeriodOf(first, last).Raises?)
    ensures var p := PeriodOf(first, last);
      p.Days? ==>
        && DatesAnswer(rows, first, last, dayLabel) == Messages(Groups(ServiceReport, ReportLines(rows, p.first, p.endDate, dayLabel)))
        && Flatten(Groups(ServiceReport, ReportLines(rows, p.first, p.endDate, dayLabel))) == ReportLines(rows, p.first, p.endDate, dayLabel)
  {
    var p := PeriodOf(first, last);
    if p.Days? {
      ReportAnswerNotEmpty(rows, p.first, p.endDate, dayLabel);
    }
  }

  /** The report's text ends with the grand total line, so with `>`, and a date error ends with a full stop. */
  lemma ReportEndsWithTotal(rows: seq<Row>, first: int, endDate: int, dayLabel: int -> string)
    ensures var text := Join(ReportLines(rows, first, endDate, dayLabel));
      |text| > 0 && text[|text| - 1] == '>'
  {
    var lines := ReportLines(rows, first, endDate, dayLabel);
    var init := lines[..|lines| - 1];
    var total := lines[|lines| - 1];
    assert init + [total] == lines;
    var days := DaysLines(rows, first, endDate + 1, dayLabel);
    assert init[|days|] == PeriodHeader;
    JoinWithAppend(init, "\n", total);
  }

  /** A report always has lines, so at least one message goes out, and none is the date error. */
  lemma ReportAnswerNotEmpty(rows: seq<Row>, first: int, endDate: int, dayLabel: int -> string)
    ensures var groups := Groups(ServiceReport, ReportLines(rows, first, endDate, dayLabel));
      && Flatten(groups) == ReportLines(rows, first, endDate, dayLabel)
      && Messages(groups) != []
      && Messages(groups) != [BadDate]
  {
    var lines := ReportLines(rows, first, endDate, dayLabel);
    ReportEndsWithTotal(rows, first, endDate, dayLabel);
    GroupsKeepLines(ServiceReport, lines);
    SentNotDateError(lines);
  }

  /** Lines whose text does not end with a full stop are sent as messages other than the date error. */
  lemma SentNotDateError(lines: seq<string>)
    requires var text := Join(lines); |text| > 0 && text[|text| - 1] != '.'
    ensures Messages(Groups(ServiceReport, lines)) != []
    ensures Messages(Groups(ServiceReport, lines)) != [BadDate]
  {
    var groups := Groups(ServiceReport, lines);
    GroupsKeepLines(ServiceReport, lines);
    if |groups| == 1 {
      assert Flatten(groups) == Flatten([]) + groups[0];
      assert groups[0] == lines;
      var text := Join(lines);
      assert text[|text| - 1] != BadDate[|BadDate| - 1];
      assert Messages(groups)[0] == text;
    }
  }

  lemma RecordsOfHas(rows: seq<Row>, x: Row)
    requires x in rows
    ensures x.rec in RecordsOf(rows)
  {
    var k :| 0 <= k < |rows| && rows[k] == x;
    assert RecordsOf(rows)[k] == x.rec;
  }

  /** A record stamped 15:00:00 is counted in both windows of its day. */
  lemma ThreePmCountedTwice(rows: seq<Row>, x: Row, d: int)
    requires x in rows && x.rec.timestamp == At(d, 15)
    ensures x.rec in MorningRecords(rows, d) && x.rec in EveningRecords(rows, d)
  {
    ThreePmInBoth(d);
    RecordsOfHas(Between(rows, At(d, 7), At(d, 15)), x);
    RecordsOfHas(Between(rows, At(d, 15), At(d + 1, 4)), x);
  }

  lemma RecordsOfFrom(rows: seq<Row>, r: Record) returns (x: Row)
    requires r in RecordsOf(rows)
    ensures x in rows && x.rec == r
  {
    var k :| 0 <= k < |RecordsOf(rows)| && RecordsOf(rows)[k] == r;
    x := rows[k];
  }

  /** A record stamped after 04:00:00 and before 07:00:00 of its day is in no window of any day. */
  lemma EarlyMorningNeverCounted(rows: seq<Row>, r: Record, d: int)
    requires 4 * SecondsPerHour < SecondOfDay(r.timestamp) < 7 * SecondsPerHour
    ensures r !in MorningRecords(rows, d) && r !in EveningRecords(rows, d)
  {
    WindowsCover(r.timestamp);
    if r in MorningRecords(rows, d) {
      var x := RecordsOfFrom(Between(rows, At(d, 7), At(d, 15)), r);
      assert InMorningOf(r.timestamp, d);
    }
    if r in EveningRecords(rows, d) {
      var x := RecordsOfFrom(Between(rows, At(d, 15), At(d + 1, 4)), r);
      assert InEveningOf(r.timestamp, d);
    }
  }

  /**
   * The period lines list each service counted once, in string order,
   * and their counts add up to the grand total, which is the sum of the
   * two windows' record counts over the days.
   */
  lemma PeriodTotals(rows: seq<Row>, first: int, endDate: int)
    ensures var period := PeriodServices(rows, first, endDate + 1);
      var items := SortedItems(CounterOf(period));
      && SortedBy(items, ItemKey, StrLe) && KeysDistinct(items, ItemKey)
      && SumItems(items) == |period|
  {
    SortedItemsMeaning(PeriodServices(rows, first, endDate + 1));
  }

  /** The grand total counts each visited day's two windows in full. */
  lemma {:induction false} PeriodSize(rows: seq<Row>, first: int, d: int)
    ensures |PeriodServices(rows, first, d)| == DaysCount(rows, first, d)
    decreases d - first
  {
    if d > first {
      PeriodSize(rows, first, d - 1);
    }
  }

  /** The sum over the days first..d-1 of the two windows' record counts. */
  function DaysCount(rows: seq<Row>, first: int, d: int): nat
    decreases d - first
  {
    if d <= first then 0
    else DaysCount(rows, first, d - 1) + |MorningRecords(rows, d - 1)| + |EveningRecords(rows, d - 1)|
  }

  /** The day's total line is the sum of the counts listed under its two windows. */
  lemma DayTotalAddsUp(rows: seq<Row>, d: int)
    ensures var m := ServicesOf(MorningRecords(rows, d));
      var e := ServicesOf(EveningRecords(rows, d));
      SumItems(SortedItems(CounterOf(m))) + SumItems(SortedItems(CounterOf(e))) == |m| + |e|
  {
    SortedItemsMeaning(ServicesOf(MorningRecords(rows, d)));
    SortedItemsMeaning(ServicesOf(EveningRecords(rows, d)));
  }

  // ---------------------------------------------------------------------
  // The handler
  // ---------------------------------------------------------------------

  /**
   * `for (service,) in window_records`: the window's own counter and
   * total, and the period counter and grand total raised alongside.
   */
  method CountWindow(rs: seq<Record>, period0: Counter<string>, all0: nat)
    returns (window: Counter<string>, period: Counter<string>, windowTotal: nat, all: nat)
    ensures window == CounterOf(ServicesOf(rs))
    ensures period == BumpAll(period0, ServicesOf(rs))
    ensures windowTotal == |rs| && all == all0 + |rs|
  {
    window, period, windowTotal, all := NoCounts, period0, 0, all0;
    for i := 0 to |rs|
      invariant window == CounterOf(ServicesOf(rs[..i]))
      invariant period == BumpAll(period0, ServicesOf(rs[..i]))
      invariant windowTotal == i && all == all0 + i
    {
      var service := rs[i].service;
      assert rs[..i + 1] == rs[..i] + [rs[i]];
      ColumnsSnoc(rs[..i], rs[i]);
      CounterOfSnoc(ServicesOf(rs[..i]), service);
      assert (ServicesOf(rs[..i]) + [service])[..i] == ServicesOf(rs[..i]);
      window := Bump(window, service);
      period := Bump(period, service);
      windowTotal := windowTotal + 1;
      all := all + 1;
    }
    assert rs[..|rs|] == rs;
  }

  lemma PeriodStep(rows: seq<Row>, first: int, d: int, m: seq<Record>, e: seq<Record>)
    requires d >= first && m == MorningRecords(rows, d) && e == EveningRecords(rows, d)
    ensures PeriodServices(rows, first, d + 1) == PeriodServices(rows, first, d) + ServicesOf(m) + ServicesOf(e)
    ensures |PeriodServices(rows, first, d + 1)| == |PeriodServices(rows, first, d)| + |m| + |e|
  {
  }

  lemma DayStep(rows: seq<Row>, first: int, d: int, dayLabel: int -> string, m: seq<Record>, e: seq<Record>)
    requires d >= first && m == MorningRecords(rows, d) && e == EveningRecords(rows, d)
    ensures DaysLines(rows, first, d + 1, dayLabel)
      == DaysLines(rows, first, d, dayLabel) + DayText(dayLabel(d), CounterOf(ServicesOf(m)), CounterOf(ServicesOf(e)), |m| + |e|)
  {
  }

  lemma CounterAppend(xs: seq<string>, a: seq<string>, b: seq<string>)
    ensures BumpAll(BumpAll(CounterOf(xs), a), b) == CounterOf(xs + a + b)
  {
    BumpAllOfCounterOf(xs, a);
    BumpAllOfCounterOf(xs + a, b);
  }

  /** One day of the loop: both windows' queries and counters, and the day's lines. */
  method ReportDay(dayText: string, morning: seq<Record>, evening: seq<Record>, period0: Counter<string>, all0: nat)
    returns (lines: seq<string>, period: Counter<string>, all: nat)
    ensures lines == DayText(dayText, CounterOf(ServicesOf(morning)), CounterOf(ServicesOf(evening)), |morning| + |evening|)
    ensures period == BumpAll(BumpAll(period0, ServicesOf(morning)), ServicesOf(evening))
    ensures all == all0 + |morning| + |evening|
  {
    var morningServices, morningTotal;
    morningServices, period, morningTotal, all := CountWindow(morning, period0, all0);
    var eveningServices, eveningTotal;
    eveningServices, period, eveningTotal, all := CountWindow(evening, period, all);
    lines := WriteDay(dayText, morningServices, eveningServices, morningTotal + eveningTotal);
  }

  method WriteDay(dayText: string, morning: Counter<string>, evening: Counter<string>, total: nat)
    returns (lines: seq<string>)
    ensures lines == DayText(dayText, morning, evening, total)
  {
    lines := ["<b>" + dayText + "</b>", MorningHeader];
    var items := StableSort(Items(morning), ItemKey, StrLe);
    lines := AppendItemLines(lines, Plain, items);
    lines := lines + [EveningHeader];
    items := StableSort(Items(evening), ItemKey, StrLe);
    lines := AppendItemLines(lines, Plain, items);
    lines := lines + [DayTotalLine(total), ""];
  }

  /** One pass of `while current_date <= end_date`: day d joins the lines, the counter and the total. */
  method AdvanceDay(rows: seq<Row>, first: int, d: int, dayLabel: int -> string,
                    lines0: seq<string>, period0: Counter<string>, all0: nat)
    returns (lines: seq<string>, period: Counter<string>, all: nat)
    requires first <= d
    requires lines0 == DaysLines(rows, first, d, dayLabel)
    requires period0 == CounterOf(PeriodServices(rows, first, d))
    requires all0 == |PeriodServices(rows, first, d)|
    ensures lines == DaysLines(rows, first, d + 1, dayLabel)
    ensures period == CounterOf(PeriodServices(rows, first, d + 1))
    ensures all == |PeriodServices(rows, first, d + 1)|
  {
    var morning := MorningRecords(rows, d);
    var evening := EveningRecords(rows, d);
    PeriodStep(rows, first, d, morning, evening);
    DayStep(rows, first, d, dayLabel, morning, evening);
    CounterAppend(PeriodServices(rows, first, d), ServicesOf(morning), ServicesOf(evening));
    var dayLines;
    dayLines, period, all := ReportDay(dayLabel(d), morning, evening, period0, all0);
    lines := lines0 + dayLines;
  }

  /** Leaving `while current_date <= end_date`: the days counted are exactly first..endDate. */
  lemma DaysDone(rows: seq<Row>, first: int, endDate: int, d: int, dayLabel: int -> string)
    requires first <= d <= DaysEnd(first, endDate) && endDate < d
    ensures DaysLines(rows, first, d, dayLabel) == DaysLines(rows, first, endDate + 1, dayLabel)
    ensures PeriodServices(rows, first, d) == PeriodServices(rows, first, endDate + 1)
  {
  }

  /** Where `while current_date <= end_date` leaves the current date. */
  function DaysEnd(first: int, endDate: int): (stop: int)
    ensures first <= stop && endDate < stop
  {
    if endDate < first then first else endDate + 1
  }

  /** `while current_date <= end_date`: the days first..endDate. */
  method ReportDays(rows: seq<Row>, first: int, endDate: int, dayLabel: int -> string)
    returns (lines: seq<string>, period: Counter<string>, all: nat)
    ensures lines == DaysLines(rows, first, endDate + 1, dayLabel)
    ensures period == CounterOf(PeriodServices(rows, first, endDate + 1))
    ensures all == |PeriodServices(rows, first, endDate + 1)|
  {
    lines := [];
    all := 0;
    period := NoCounts;
    var d := first;
    ghost var stop := DaysEnd(first, endDate);
    while d <= endDate
      invariant first <= d <= stop
      invariant lines == DaysLines(rows, first, d, dayLabel)
      invariant period == CounterOf(PeriodServices(rows, first, d))
      invariant all == |PeriodServices(rows, first, d)|
      decreases endDate - d
    {
      lines, period, all := AdvanceDay(rows, first, d, dayLabel, lines, period, all);
      d := d + 1;
    }
    DaysDone(rows, first, endDate, d, dayLabel);
  }

  /** The day lines, then the period's services and the grand total. */
  method ReportBody(rows: seq<Row>, first: int, endDate: int, dayLabel: int -> string) returns (lines: seq<string>)
    ensures lines == ReportLines(rows, first, endDate, dayLabel)
  {
    var period, all;
    lines, period, all := ReportDays(rows, first, endDate, dayLabel);
    lines := lines + [PeriodHeader];
    var items := StableSort(Items(period), ItemKey, StrLe);
    lines := AppendItemLines(lines, Plain, items);
    lines := lines + [GrandTotalLine(all)];
  }

  /** service_report_handler: the messages sent for the argument text. */
  method ServiceReportReply(rows: seq<Row>, args: string, parseDate: string -> Option<int>, dayLabel: int -> string)
    returns (messages: seq<string>)
    ensures messages == ReportMessages(rows, args, parseDate, dayLabel)
  {
    var words := Words(args);
    if |words| != 2 {
      return [Usage];
    }
    messages := ReportForDates(rows, parseDate(words[0]), parseDate(words[1]), dayLabel);
  }

  method ReportForDates(rows: seq<Row>, first: Option<int>, last: Option<int>, dayLabel: int -> string)
    returns (messages: seq<string>)
    ensures messages == DatesAnswer(rows, first, last, dayLabel)
  {
    var period := PeriodOf(first, last);
    match period
    case BadDates =>
      messages := [BadDate];
    case Raises =>
      messages := [];
    case Days(start, endDate) =>
      var lines := ReportBody(rows, start, endDate, dayLabel);
      messages := Chunk(ServiceReport, lines);
  }
}
