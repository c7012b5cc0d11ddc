/**
 * monthly_report_handler: one spreadsheet row per user who accepted
 * anything in the month, with the four service columns and their total,
 * leaders first. The `%B %Y` rendering of the month is the parameter
 * `monthLabel`.
 */
module Monthly {
  import opened Wrappers
  import opened Text
  import opened Config
  import opened Store
  import opened Counting
  import opened Sorting
  import opened Tallies
  import opened Shifts
  import opened DailyStats

  const MonthlyUsage: string := "📊 Используйте: /monthly_report <месяц> <год>\nПример:\n/monthly_report 09 2024\n/monthly_report 10 2024"
  const BadFormat: string := "❌ Неверный формат. Используйте: /monthly_report <месяц> <год>\nМесяц должен быть числом от 01 до 12, год - 4-значным числом (например, 2024)."
  const ExcelFailed: string := "❌ Произошла ошибка при формировании Excel отчета."

  function NoData(monthText: string): string
  {
    "❌ Нет данных за " + monthText + "."
  }

  function Caption(monthText: string): string
  {
    "📊 Отчет за " + monthText
  }

  /** `[display_name, bolt, jet, whoosh, yandex, total]` */
  datatype MonthRow = MonthRow(name: string, bolt: nat, jet: nat, whoosh: nat, yandex: nat, total: nat)

  /**
   * What the handler sends: a text, the spreadsheet rows with their
   * caption, or nothing, when an exception the handler does not catch
   * ends it.
   */
  datatype Answer = Text(message: string) | Sheet(rows: seq<MonthRow>, caption: string) | Raised

  /** One user's row: `services.get(name, 0)` per column, and their sum. */
  function RowOf(name: string, c: Counter<string>): MonthRow
  {
    var b := Get(c.counts, Bolt);
    var j := Get(c.counts, Jet);
    var w := Get(c.counts, Whoosh);
    var y := Get(c.counts, Yandex);
    MonthRow(name, b, j, w, y, b + j + w + y)
  }

  /** The rows in the order of `user_stats.items()`. */
  function UserRows(users: seq<int>, perUser: map<int, Counter<string>>, names: map<int, string>): (r: seq<MonthRow>)
    requires forall u :: u in users ==> u in perUser && u in names
    ensures |r| == |users|
    ensures forall i :: 0 <= i < |users| ==>
      var u := users[i]; u in perUser && u in names && r[i] == RowOf(names[u], perUser[u])
  {
    if users == [] then []
    else
      var u := users[|users| - 1];
      UserRows(users[..|users| - 1], perUser, names) + [RowOf(names[u], perUser[u])]
  }

  function RowTotal(r: MonthRow): int
  {
    r.total
  }

  /** `excel_data` as built from the month's records, before the sort. */
  function UnsortedRows(rs: seq<Record>): seq<MonthRow>
  {
    ScanKeys(rs);
    UserRows(FirstSeen(UserIdsOf(rs)), PerUser(rs), FirstNames(rs))
  }

  /** `excel_data` after `sort(key=total, reverse=True)`. */
  function MonthRows(rs: seq<Record>): seq<MonthRow>
  {
    SortBy(UnsortedRows(rs), RowTotal, IntGe)
  }

  /** The answer up to the spreadsheet: usage, format error, or the month's answer. */
  function MonthlyAnswer(rows: seq<Row>, args: string, monthLabel: int -> string): Answer
  {
    var a := Strip(args);
    if a == [] then Text(MonthlyUsage)
    else
      var words := Words(a);
      if |words| != 2 then Text(BadFormat)
      else
        match MonthStartEnd(words[0], words[1])
        case Invalid => Text(BadFormat)
        case Overflow => Raised
        case Bounds(start, end) => MonthAnswer(rows, (start, end), monthLabel)
  }

  /** For a valid month: no data, or the rows of the records stamped within it. */
  function MonthAnswer(rows: seq<Row>, window: (int, int), monthLabel: int -> string): Answer
  {
    var rs := RecordsOf(HalfOpen(rows, window.0, window.1));
    if rs == [] then Text(NoData(monthLabel(window.0)))
    else Sheet(MonthRows(rs), Caption(monthLabel(window.0)))
  }

  /**
   * The handler as written: the spreadsheet builder it imports,
   * `create_monthly_excel_report`, is not defined in reports.py, so the
   * import inside the `try` raises and every spreadsheet is replaced by
   * the error text.
   */
  function MonthlyAnswerAsWritten(rows: seq<Row>, args: string, monthLabel: int -> string): Answer
  {
    match MonthlyAnswer(rows, args, monthLabel)
    case Sheet(_, _) => Text(ExcelFailed)
    case t => t
  }

  // ---------------------------------------------------------------------
  // What the report says
  // ---------------------------------------------------------------------

  /**
   * The as-written handler never delivers a spreadsheet: a month with
   * records is answered with the error text, whatever the records are.
   */
  lemma MonthlyNeverDelivers(rows: seq<Row>, args: string, monthLabel: int -> string)
    ensures !MonthlyAnswerAsWritten(rows, args, monthLabel).Sheet?
    ensures MonthlyAnswer(rows, args, monthLabel).Sheet? ==>
      MonthlyAnswerAsWritten(rows, args, monthLabel) == Text(ExcelFailed)
    ensures !MonthlyAnswer(rows, args, monthLabel).Sheet? ==>
      MonthlyAnswerAsWritten(rows, args, monthLabel) == MonthlyAnswer(rows, args, monthLabel)
  {
  }

  /**
   * The answer's cases: the usage text for blank arguments, the format
   * error unless there are exactly two words naming a valid month, and
   * nothing at all for a year too large for a C int or for January of
   * year 1.
   */
  lemma MonthlyAnswerCases(rows: seq<Row>, args: string, monthLabel: int -> string)
    ensures Strip(args) == [] ==> MonthlyAnswer(rows, args, monthLabel) == Text(MonthlyUsage)
    ensures Strip(args) != [] && |Words(Strip(args))| != 2 ==> MonthlyAnswer(rows, args, monthLabel) == Text(BadFormat)
    ensures Strip(args) != [] && |Words(Strip(args))| == 2 ==>
      var words := Words(Strip(args));
      match MonthStartEnd(words[0], words[1])
      case Invalid => MonthlyAnswer(rows, args, monthLabel) == Text(BadFormat)
      case Overflow => MonthlyAnswer(rows, args, monthLabel) == Raised
      case Bounds(start, end) =>
        && start < end
        && MonthlyAnswer(rows, args, monthLabel) == MonthAnswer(rows, (start, end), monthLabel)
  {
    var a := Strip(args);
    if a != [] && |Words(a)| == 2 {
      MonthStartEndMeaning(Words(a)[0], Words(a)[1]);
    }
  }

  /**
   * Within a month, the answer is a spreadsheet exactly when some row is
   * stamped in the half-open window; its rows are built from exactly the
   * rows stamped from the first second of the month up to, not including,
   * the first second of the next.
   */
  lemma MonthAnswerMeaning(rows: seq<Row>, window: (int, int), monthLabel: int -> string)
    ensures var answer := MonthAnswer(rows, window, monthLabel);
      && (answer.Sheet? <==> exists x :: x in rows && window.0 <= x.rec.timestamp < window.1)
      && (!answer.Sheet? ==> answer == Text(NoData(monthLabel(window.0))))
    ensures var kept := HalfOpen(rows, window.0, window.1);
      && (forall x :: x in kept <==> x in rows && window.0 <= x.rec.timestamp < window.1)
      && (MonthAnswer(rows, window, monthLabel).Sheet? ==>
          MonthAnswer(rows, window, monthLabel) == Sheet(MonthRows(RecordsOf(kept)), Caption(monthLabel(window.0))))
  {
    var kept := HalfOpen(rows, window.0, window.1);
    if kept != [] {
      assert kept[0] in kept;
    }
    if exists x :: x in rows && window.0 <= x.rec.timestamp < window.1 {
      var x :| x in rows && window.0 <= x.rec.timestamp < window.1;
      assert x in kept;
      assert |RecordsOf(kept)| > 0;
    }
  }

  /** Each row of a user holds the user's count per service, their sum, and the name of the user's first record. */
  lemma UserRowsMeaning(rs: seq<Record>)
    ensures var users := FirstSeen(UserIdsOf(rs));
      var r := UnsortedRows(rs);
      |r| == |users| &&
      forall i :: 0 <= i < |users| ==>
        var s := UserServices(rs, users[i]);
        && users[i] in FirstNames(rs) && r[i].name == FirstNames(rs)[users[i]]
        && r[i].bolt == Occurrences(s, Bolt) && r[i].jet == Occurrences(s, Jet)
        && r[i].whoosh == Occurrences(s, Whoosh) && r[i].yandex == Occurrences(s, Yandex)
        && r[i].total == r[i].bolt + r[i].jet + r[i].whoosh + r[i].yandex
  {
    var users := FirstSeen(UserIdsOf(rs));
    ScanKeys(rs);
    PerUserMeaning(rs);
    forall i | 0 <= i < |users|
      ensures var s := UserServices(rs, users[i]);
        var c := PerUser(rs)[users[i]];
        Get(c.counts, Bolt) == Occurrences(s, Bolt) && Get(c.counts, Jet) == Occurrences(s, Jet)
        && Get(c.counts, Whoosh) == Occurrences(s, Whoosh) && Get(c.counts, Yandex) == Occurrences(s, Yandex)
    {
      assert users[i] in users;
      CounterOfMeaning(UserServices(rs, users[i]));
    }
  }

  /**
   * One row per distinct user, leaders first; the sort only reorders the
   * rows, and rows with equal totals keep the users' first-seen order.
   */
  lemma MonthRowsOrder(rs: seq<Record>)
    ensures var users := FirstSeen(UserIdsOf(rs));
      var unsorted := UnsortedRows(rs);
      && |MonthRows(rs)| == |users| && Distinct(users)
      && (forall u :: u in users <==> u in UserIdsOf(rs))
      && SortedBy(MonthRows(rs), RowTotal, IntGe)
      && multiset(MonthRows(rs)) == multiset(unsorted)
      && (forall t :: Select(MonthRows(rs), RowTotal, t) == Select(unsorted, RowTotal, t))
  {
    var users := FirstSeen(UserIdsOf(rs));
    FirstSeenMeaning(UserIdsOf(rs));
    var unsorted := UnsortedRows(rs);
    IntGeTotalPreorder();
    SortBySorted(unsorted, RowTotal, IntGe);
    SortByPermutes(unsorted, RowTotal, IntGe);
    assert |MonthRows(rs)| == |unsorted| by {
      assert |multiset(MonthRows(rs))| == |multiset(unsorted)|;
    }
    forall t ensures Select(MonthRows(rs), RowTotal, t) == Select(unsorted, RowTotal, t) {
      SortByStable(unsorted, RowTotal, IntGe, t);
    }
  }

  // ---------------------------------------------------------------------
  // The totals add up
  // ---------------------------------------------------------------------

  /** The total column of a row. */
  function ColumnTotal(r: MonthRow): nat
  {
    r.total
  }

  /** With only the four services in the records, a user's columns add up to the user's record count. */
  lemma {:induction false} FourColumns(xs: seq<string>)
    requires forall x :: x in xs ==> x in ServicesSorted
    ensures Occurrences(xs, Bolt) + Occurrences(xs, Jet) + Occurrences(xs, Whoosh) + Occurrences(xs, Yandex) == |xs|
  {
    if xs != [] {
      var init := xs[..|xs| - 1];
      assert forall x :: x in init ==> x in xs;
      FourColumns(init);
      assert xs[|xs| - 1] in xs;
    }
  }

  lemma {:induction false} UserServicesKnown(rs: seq<Record>, u: int)
    requires forall r :: r in rs ==> r.service in ServicesSorted
    ensures forall x :: x in UserServices(rs, u) ==> x in ServicesSorted
  {
    if rs != [] {
      var init := rs[..|rs| - 1];
      assert forall r :: r in init ==> r in rs;
      UserServicesKnown(init, u);
      assert rs[|rs| - 1] in rs;
    }
  }

  /** A user's row total is the user's `sum(services.values())`. */
  lemma RowTotalIsUserTotal(rs: seq<Record>, u: int, name: string)
    requires forall r :: r in rs ==> r.service in ServicesSorted
    requires u in PerUser(rs)
    ensures RowOf(name, PerUser(rs)[u]).total == Get(UserTotals(PerUser(rs)), u)
  {
    PerUserMeaning(rs);
    var s := UserServices(rs, u);
    CounterOfMeaning(s);
    UserServicesKnown(rs, u);
    FourColumns(s);
  }

  lemma {:induction false} UserRowsSum(rs: seq<Record>, users: seq<int>)
    requires forall r :: r in rs ==> r.service in ServicesSorted
    requires forall u :: u in users ==> u in PerUser(rs) && u in FirstNames(rs)
    ensures SumBy(UserRows(users, PerUser(rs), FirstNames(rs)), ColumnTotal) == SumAlong(users, UserTotals(PerUser(rs)))
  {
    if users != [] {
      var init := users[..|users| - 1];
      var u := users[|users| - 1];
      assert forall v :: v in init ==> v in users;
      UserRowsSum(rs, init);
      assert u in users;
      RowTotalIsUserTotal(rs, u, FirstNames(rs)[u]);
      var rows := UserRows(users, PerUser(rs), FirstNames(rs));
      assert rows[..|rows| - 1] == UserRows(init, PerUser(rs), FirstNames(rs));
    }
  }

  /**
   * When every record carries one of the four services (as every record
   * the extraction builds does), the totals column sums to the number of
   * records in the month.
   */
  lemma MonthTotal(rs: seq<Record>)
    requires forall r :: r in rs ==> r.service in ServicesSorted
    ensures SumBy(MonthRows(rs), ColumnTotal) == |rs|
  {
    var users := FirstSeen(UserIdsOf(rs));
    ScanKeys(rs);
    var unsorted := UnsortedRows(rs);
    UserRowsSum(rs, users);
    UserTotalsSum(rs);
    SortByPermutes(unsorted, RowTotal, IntGe);
    SumByPermutation(MonthRows(rs), unsorted, ColumnTotal);
  }

  // ---------------------------------------------------------------------
  // The handler
  // ---------------------------------------------------------------------

  /** `for user_id, username, fullname, service in records`: `user_stats` and `user_info`. */
  method ScanMonth(rs: seq<Record>) returns (users: seq<int>, perUser: map<int, Counter<string>>, names: map<int, string>)
    ensures users == FirstSeen(UserIdsOf(rs))
    ensures perUser == PerUser(rs) && names == FirstNames(rs)
  {
    users, perUser, names := [], map[], map[];
    for i := 0 to |rs|
      invariant users == FirstSeen(UserIdsOf(rs[..i]))
      invariant perUser == PerUser(rs[..i]) && names == FirstNames(rs[..i])
    {
      var r := rs[i];
      ScanStep(rs, i);
      PerUserMeaning(rs[..i]);
      FirstSeenMeaning(UserIdsOf(rs[..i]));
      assert (UserIdsOf(rs[..i]) + [r.userId])[..i] == UserIdsOf(rs[..i]);
      if r.userId !in perUser {
        users := users + [r.userId];
      }
      perUser := perUser[r.userId := Bump(if r.userId in perUser then perUser[r.userId] else NoCounts, r.service)];
      FirstNamesMeaning(rs[..i]);
      if r.userId !in names {
        names := names[r.userId := AtNameOrFull(r)];
      }
    }
    assert rs[..|rs|] == rs;
  }

  /** `for user_id, services in user_stats.items()`: the rows, in that order. */
  method BuildRows(users: seq<int>, perUser: map<int, Counter<string>>, names: map<int, string>) returns (rows: seq<MonthRow>)
    requires forall u :: u in users ==> u in perUser && u in names
    ensures rows == UserRows(users, perUser, names)
  {
    rows := [];
    for k := 0 to |users|
      invariant rows == UserRows(users[..k], perUser, names)
    {
      var u := users[k];
      assert users[..k + 1][..k] == users[..k];
      assert u in users;
      var services := perUser[u];
      var b := Get(services.counts, Bolt);
      var j := Get(services.counts, Jet);
      var w := Get(services.counts, Whoosh);
      var y := Get(services.counts, Yandex);
      rows := rows + [MonthRow(names[u], b, j, w, y, b + j + w + y)];
    }
    assert users[..|users|] == users;
  }

  /** The month's rows, sorted. */
  method MonthSheet(rs: seq<Record>) returns (rows: seq<MonthRow>)
    ensures rows == MonthRows(rs)
  {
    var users, perUser, names := ScanMonth(rs);
    ScanKeys(rs);
    var unsorted := BuildRows(users, perUser, names);
    rows := StableSort(unsorted, RowTotal, IntGe);
  }

  /** monthly_report_handler, with the spreadsheet delivered. */
  method MonthlyReport(rows: seq<Row>, args: string, monthLabel: int -> string) returns (answer: Answer)
    ensures answer == MonthlyAnswer(rows, args, monthLabel)
  {
    var a := Strip(args);
    if a == [] {
      return Text(MonthlyUsage);
    }
    var words := Words(a);
    if |words| != 2 {
      return Text(BadFormat);
    }
    var window := MonthStartEnd(words[0], words[1]);
    if window.Invalid? {
      return Text(BadFormat);
    } else if window.Overflow? {
      return Raised;
    }
    var start, end := window.start, window.end;
    var rs := RecordsOf(HalfOpen(rows, start, end));
    if rs == [] {
      return Text(NoData(monthLabel(start)));
    }
    var sheet := MonthSheet(rs);
    answer := Sheet(sheet, Caption(monthLabel(start)));
  }
}
