/**
 * reports.py: the two sheets of the shift spreadsheet (every record as
 * queried, and one total per user), the report windows of the scheduled
 * jobs, and what `send_scheduled_report` sends to the report chats. A
 * spreadsheet is its sheets' rows of cells; the `%d.%m` and `%Y%m%d`
 * renderings of a day are the parameters `dayLabel` and `dateStamp`.
 */
module Reports {
  import opened Wrappers
  import opened Text
  import opened Store
  import opened Counting
  import opened Sorting
  import opened Tallies
  import opened Shifts

  /** A spreadsheet cell: text, a number, or nothing (a `None` column). */
  datatype Cell = Str(s: string) | Num(n: int) | Blank

  datatype Workbook = Workbook(allData: seq<seq<Cell>>, totals: seq<seq<Cell>>)

  // ---------------------------------------------------------------------
  // The "Все данные" sheet
  // ---------------------------------------------------------------------

  const AllDataHeader: seq<Cell> := [
    Str("ID"), Str("Номер Самоката"), Str("Сервис"), Str("ID Пользователя"),
    Str("Ник"), Str("Полное имя"), Str("Время Принятия"), Str("ID Чата")]

  /** `ws_all_data.append(row)`: the queried columns in their order. */
  function RowCells(x: Row): seq<Cell>
  {
    var r := x.rec;
    [Num(x.id), Str(r.number), Str(r.service), Num(r.userId),
     (match r.username case Some(u) => Str(u) case None => Blank),
     Str(r.fullName), Num(r.timestamp), Num(r.chatId)]
  }

  /** Reads a row back from its cells; the header and any other shape read as nothing. */
  function CellsRow(cells: seq<Cell>): Option<Row>
  {
    if |cells| != 8 then None
    else if !(cells[0].Num? && cells[0].n >= 0 && cells[1].Str? && cells[2].Str? && cells[3].Num?
              && !cells[4].Num? && cells[5].Str? && cells[6].Num? && cells[7].Num?) then None
    else
      var username := if cells[4].Str? then Some(cells[4].s) else None;
      Some(Row(cells[0].n, Record(cells[1].s, cells[2].s, cells[3].n, username, cells[5].s, cells[6].n, cells[7].n)))
  }

  function AllDataRows(rows: seq<Row>): (r: seq<seq<Cell>>)
    ensures |r| == |rows|
  {
    if rows == [] then [] else AllDataRows(rows[..|rows| - 1]) + [RowCells(rows[|rows| - 1])]
  }

  function AllDataSheet(rows: seq<Row>): seq<seq<Cell>>
  {
    [AllDataHeader] + AllDataRows(rows)
  }

  /** Each row's cells read back as that row. */
  lemma RowCellsRoundTrip(x: Row)
    ensures CellsRow(RowCells(x)) == Some(x)
  {
  }

  lemma {:induction false} AllDataRowsIndex(rows: seq<Row>)
    ensures forall i :: 0 <= i < |rows| ==> AllDataRows(rows)[i] == RowCells(rows[i])
  {
    if rows != [] {
      AllDataRowsIndex(rows[..|rows| - 1]);
    }
  }

  /**
   * The sheet is the header followed by one row per record, in the order
   * queried, each holding the whole record; the header reads as no record.
   */
  lemma AllDataMeaning(rows: seq<Row>)
    ensures var sheet := AllDataSheet(rows);
      && |sheet| == |rows| + 1
      && sheet[0] == AllDataHeader && CellsRow(AllDataHeader) == None
      && forall i :: 0 <= i < |rows| ==> CellsRow(sheet[i + 1]) == Some(rows[i])
  {
    AllDataRowsIndex(rows);
    forall i | 0 <= i < |rows| ensures CellsRow(AllDataSheet(rows)[i + 1]) == Some(rows[i]) {
      RowCellsRoundTrip(rows[i]);
    }
  }

  // ---------------------------------------------------------------------
  // The "Итоги" sheet
  // ---------------------------------------------------------------------

  const TotalsHeader: seq<Cell> := [Str("Пользователь"), Str("Всего Самокатов")]

  /** The full name if non-empty, else `@username` if there is one, else `ID: <id>`. */
  function DisplayName(r: Record): string
  {
    if r.fullName != "" then r.fullName
    else if Truthy(r.username) then "@" + r.username.value
    else "ID: " + IntToString(r.userId)
  }

  /** `user_info_map_summary`: each user's name, overwritten by every record of the user. */
  function LastNames(rs: seq<Record>): map<int, string>
  {
    if rs == [] then map[]
    else
      var r := rs[|rs| - 1];
      LastNames(rs[..|rs| - 1])[r.userId := DisplayName(r)]
  }

  /** Whether rs[k] is the last record of its user. */
  predicate LastOfUser(rs: seq<Record>, k: nat)
    requires k < |rs|
  {
    forall j :: k < j < |rs| ==> rs[j].userId != rs[k].userId
  }

  /** The sort key: the lower-cased display name. */
  function NameKey(names: map<int, string>): int -> string
  {
    (u: int) => if u in names then LowerStr(names[u]) else ""
  }

  /** `sorted(user_total_counts_summary.keys(), key=...)`: the users in first-seen order, then stably sorted. */
  function SortedUsers(rs: seq<Record>): seq<int>
  {
    SortBy(FirstSeen(UserIdsOf(rs)), NameKey(LastNames(rs)), StrLe)
  }

  datatype TotalRow = TotalRow(name: string, count: nat)

  function RowCount(t: TotalRow): nat
  {
    t.count
  }

  /** `[user_display_name, total_count]` for each user in turn. */
  function RowsFor(users: seq<int>, names: map<int, string>, counts: map<int, nat>): (r: seq<TotalRow>)
    requires forall u :: u in users ==> u in names && u in counts
    ensures |r| == |users|
    ensures forall i :: 0 <= i < |users| ==>
      var u := users[i]; u in names && u in counts && r[i] == TotalRow(names[u], counts[u])
  {
    if users == [] then []
    else
      var u := users[|users| - 1];
      RowsFor(users[..|users| - 1], names, counts) + [TotalRow(names[u], counts[u])]
  }

  function TotalsRows(rs: seq<Record>): seq<TotalRow>
  {
    UsersKnown(rs);
    RowsFor(SortedUsers(rs), LastNames(rs), CountMap(UserIdsOf(rs)))
  }

  function TotalCells(t: seq<TotalRow>): (r: seq<seq<Cell>>)
    ensures |r| == |t|
  {
    if t == [] then [] else TotalCells(t[..|t| - 1]) + [[Str(t[|t| - 1].name), Num(t[|t| - 1].count)]]
  }

  function TotalsSheet(rs: seq<Record>): seq<seq<Cell>>
  {
    [TotalsHeader] + TotalCells(TotalsRows(rs))
  }

  /** create_excel_report */
  function ExcelReport(rows: seq<Row>): Workbook
  {
    Workbook(AllDataSheet(rows), TotalsSheet(RecordsOf(rows)))
  }

  /** The name rule, case by case. */
  lemma DisplayNameCases(r: Record)
    ensures r.fullName != "" ==> DisplayName(r) == r.fullName
    ensures r.fullName == "" && Truthy(r.username) ==> DisplayName(r) == "@" + r.username.value
    ensures r.fullName == "" && !Truthy(r.username) ==> DisplayName(r) == "ID: " + IntToString(r.userId)
    ensures DisplayName(r) != ""
  {
  }

  /** Every user seen has a name, and it is the one of the user's last record. */
  lemma {:induction false} LastNamesMeaning(rs: seq<Record>)
    ensures forall u :: u in LastNames(rs) <==> u in UserIdsOf(rs)
    ensures forall k :: 0 <= k < |rs| && LastOfUser(rs, k) ==>
      rs[k].userId in LastNames(rs) && LastNames(rs)[rs[k].userId] == DisplayName(rs[k])
  {
    if rs != [] {
      var init := rs[..|rs| - 1];
      var r := rs[|rs| - 1];
      LastNamesMeaning(init);
      ColumnsSnoc(init, r);
      assert init + [r] == rs;
      forall k | 0 <= k < |rs| && LastOfUser(rs, k)
        ensures rs[k].userId in LastNames(rs) && LastNames(rs)[rs[k].userId] == DisplayName(rs[k])
      {
        if k < |init| {
          assert rs[k].userId != r.userId;
          assert LastOfUser(init, k);
          assert init[k] == rs[k];
        }
      }
    }
  }

  lemma UsersKnown(rs: seq<Record>)
    ensures forall u :: u in SortedUsers(rs) ==> u in LastNames(rs) && u in CountMap(UserIdsOf(rs))
  {
    var users := FirstSeen(UserIdsOf(rs));
    SortByPermutes(users, NameKey(LastNames(rs)), StrLe);
    FirstSeenMeaning(UserIdsOf(rs));
    LastNamesMeaning(rs);
    CountMapMeaning(UserIdsOf(rs));
    forall u | u in SortedUsers(rs) ensures u in users {
      assert u in multiset(SortedUsers(rs));
    }
  }

  /** The sorted users are the distinct users seen, and ties keep their first-seen order. */
  lemma SortedUsersMeaning(rs: seq<Record>)
    ensures var users := SortedUsers(rs);
      && Distinct(users) && (forall u :: u in users <==> u in UserIdsOf(rs))
      && SortedBy(users, NameKey(LastNames(rs)), StrLe)
      && (forall k :: Select(users, NameKey(LastNames(rs)), k) == Select(FirstSeen(UserIdsOf(rs)), NameKey(LastNames(rs)), k))
  {
    var first := FirstSeen(UserIdsOf(rs));
    var key := NameKey(LastNames(rs));
    var users := SortedUsers(rs);
    FirstSeenMeaning(UserIdsOf(rs));
    StrLeTotalPreorder();
    SortBySorted(first, key, StrLe);
    SortByPermutes(first, key, StrLe);
    DistinctPermutation(first, users);
    forall u ensures u in users <==> u in first {
      assert u in users <==> u in multiset(users);
    }
    forall k ensures Select(users, key, k) == Select(first, key, k) {
      SortByStable(first, key, StrLe, k);
    }
  }

  /** The totals rows come in order of lower-cased name, one per distinct user. */
  lemma TotalsOrder(rs: seq<Record>)
    ensures var t := TotalsRows(rs);
      && |t| == |FirstSeen(UserIdsOf(rs))|
      && forall i, j :: 0 <= i < j < |t| ==> StrLe(LowerStr(t[i].name), LowerStr(t[j].name))
  {
    var users := SortedUsers(rs);
    var key := NameKey(LastNames(rs));
    var t := TotalsRows(rs);
    UsersKnown(rs);
    SortedUsersMeaning(rs);
    SortByPermutes(FirstSeen(UserIdsOf(rs)), key, StrLe);
    assert |multiset(users)| == |multiset(FirstSeen(UserIdsOf(rs)))|;
    forall i | 0 <= i < |t| ensures LowerStr(t[i].name) == key(users[i]) {
      assert users[i] in users;
    }
  }

  /** The sum of the users' rows of `names` and `counts`, along the users. */
  lemma {:induction false} RowsForSum(users: seq<int>, names: map<int, string>, counts: map<int, nat>)
    requires forall u :: u in users ==> u in names && u in counts
    ensures SumBy(RowsFor(users, names, counts), RowCount) == SumAlong(users, counts)
  {
    if users != [] {
      var init := users[..|users| - 1];
      assert forall u :: u in init ==> u in users;
      RowsForSum(init, names, counts);
      var r := RowsFor(users, names, counts);
      assert r[..|r| - 1] == RowsFor(init, names, counts);
      assert users[|users| - 1] in users;
    }
  }

  /**
   * Each user's row counts the user's records under the name of the
   * user's last record, and the counts add up to the number of records.
   */
  lemma TotalsCounts(rs: seq<Record>)
    ensures var users := SortedUsers(rs);
      var t := TotalsRows(rs);
      && |t| == |users|
      && (forall i :: 0 <= i < |t| ==>
            && t[i].count == Occurrences(UserIdsOf(rs), users[i])
            && users[i] in LastNames(rs) && t[i].name == LastNames(rs)[users[i]])
      && SumBy(t, RowCount) == |rs|
  {
    var ids := UserIdsOf(rs);
    var users := SortedUsers(rs);
    UsersKnown(rs);
    CountMapMeaning(ids);
    RowsForSum(users, LastNames(rs), CountMap(ids));
    SortByPermutes(FirstSeen(ids), NameKey(LastNames(rs)), StrLe);
    SumAlongPermutation(users, FirstSeen(ids), CountMap(ids));
    CountsSumToLength(ids);
  }

  // ---------------------------------------------------------------------
  // The scheduled report
  // ---------------------------------------------------------------------

  /** What is sent to one report chat. */
  datatype Delivery =
    | SendText(chatId: int, text: string)
    | SendDocument(chatId: int, fileName: string, book: Workbook, caption: string)

  function EmptyReport(shift: Shift): string
  {
    "Отчет за " + shift.name + " (" + HourMinute(shift.start) + " - " + HourMinute(shift.end) + "): За смену ничего не принято."
  }

  function ReportCaption(shift: Shift, dayLabel: int -> string): string
  {
    "Ежедневный отчет за " + shift.name
      + " (" + dayLabel(DayOf(shift.start)) + " " + HourMinute(shift.start)
      + " - " + dayLabel(DayOf(shift.end)) + " " + HourMinute(shift.end) + ")"
  }

  function ReportFileName(shiftType: string, shift: Shift, dateStamp: int -> string): string
  {
    "report_" + (if shiftType == "morning" then "morning_shift" else "evening_shift")
      + "_" + dateStamp(DayOf(shift.start)) + ".xlsx"
  }

  /** The same text to each chat in turn. */
  function Notices(chats: seq<int>, text: string): (r: seq<Delivery>)
    ensures |r| == |chats|
    ensures forall i :: 0 <= i < |chats| ==> r[i] == SendText(chats[i], text)
  {
    if chats == [] then [] else Notices(chats[..|chats| - 1], text) + [SendText(chats[|chats| - 1], text)]
  }

  /** The same document to each chat in turn. */
  function Documents(chats: seq<int>, fileName: string, book: Workbook, caption: string): (r: seq<Delivery>)
    ensures |r| == |chats|
    ensures forall i :: 0 <= i < |chats| ==> r[i] == SendDocument(chats[i], fileName, book, caption)
  {
    if chats == [] then []
    else Documents(chats[..|chats| - 1], fileName, book, caption) + [SendDocument(chats[|chats| - 1], fileName, book, caption)]
  }

  /**
   * send_scheduled_report: nothing without a bot or for an unknown shift
   * type; otherwise the records stamped within the window, inclusive at
   * both ends, go to every report chat in turn, as a text notice when
   * there are none and as the spreadsheet otherwise.
   */
  function ScheduledDeliveries(hasBot: bool, shiftType: string, now: int, rows: seq<Row>, reportChats: seq<int>,
                               dayLabel: int -> string, dateStamp: int -> string): (r: seq<Delivery>)
  {
    if !hasBot then []
    else
      match ReportShift(shiftType, now)
      case None => []
      case Some(shift) =>
        var found := Between(rows, shift.start, shift.end);
        if found == [] then Notices(reportChats, EmptyReport(shift))
        else Documents(reportChats, ReportFileName(shiftType, shift, dateStamp), ExcelReport(found), ReportCaption(shift, dayLabel))
  }

  /**
   * Nothing is sent without a bot or for a type other than morning and
   * evening. Otherwise each report chat gets exactly one delivery: the
   * notice when no record lies in the window, the spreadsheet of exactly
   * the window's records otherwise, whose totals add up to their number.
   */
  lemma ScheduledCases(hasBot: bool, shiftType: string, now: int, rows: seq<Row>, reportChats: seq<int>,
                       dayLabel: int -> string, dateStamp: int -> string)
    ensures var d := ScheduledDeliveries(hasBot, shiftType, now, rows, reportChats, dayLabel, dateStamp);
      && (!hasBot || shiftType !in {"morning", "evening"} ==> d == [])
      && (hasBot && shiftType in {"morning", "evening"} ==>
            var shift := ReportShift(shiftType, now).value;
            var found := Between(rows, shift.start, shift.end);
            && |d| == |reportChats|
            && (found == [] <==> forall x :: x in rows ==> !(shift.start <= x.rec.timestamp <= shift.end))
            && (found == [] ==> d == Notices(reportChats, EmptyReport(shift)))
            && (found != [] ==>
                  && d == Documents(reportChats, ReportFileName(shiftType, shift, dateStamp), ExcelReport(found), ReportCaption(shift, dayLabel))
                  && |ExcelReport(found).allData| == |found| + 1
                  && SumBy(TotalsRows(RecordsOf(found)), RowCount) == |found|))
  {
    ReportShiftWindows(shiftType, now);
    if hasBot && shiftType in {"morning", "evening"} {
      var shift := ReportShift(shiftType, now).value;
      var found := Between(rows, shift.start, shift.end);
      BetweenEmpty(rows, shift.start, shift.end);
      if found != [] {
        AllDataMeaning(found);
        TotalsCounts(RecordsOf(found));
      }
    }
  }

  /** The window query finds nothing exactly when no row is stamped within it. */
  lemma BetweenEmpty(rows: seq<Row>, lo: int, hi: int)
    ensures Between(rows, lo, hi) == [] <==> forall x :: x in rows ==> !(lo <= x.rec.timestamp <= hi)
  {
    var found := Between(rows, lo, hi);
    if found != [] {
      assert found[0] in found;
    }
    if exists x :: x in rows && lo <= x.rec.timestamp <= hi {
      var x :| x in rows && lo <= x.rec.timestamp <= hi;
      assert x in found;
    }
  }

  // ---------------------------------------------------------------------
  // The building loops
  // ---------------------------------------------------------------------

  /** `for row in records: ws_all_data.append(row)` */
  method WriteAllData(rows: seq<Row>) returns (sheet: seq<seq<Cell>>)
    ensures sheet == AllDataSheet(rows)
  {
    sheet := [AllDataHeader];
    for i := 0 to |rows|
      invariant sheet == [AllDataHeader] + AllDataRows(rows[..i])
    {
      assert rows[..i + 1][..i] == rows[..i];
      sheet := sheet + [RowCells(rows[i])];
    }
    assert rows[..|rows|] == rows;
  }

  lemma ScanUsersStep(rs: seq<Record>, i: nat)
    requires i < |rs|
    ensures UserIdsOf(rs[..i + 1]) == UserIdsOf(rs[..i]) + [rs[i].userId]
    ensures LastNames(rs[..i + 1]) == LastNames(rs[..i])[rs[i].userId := DisplayName(rs[i])]
  {
    assert rs[..i + 1] == rs[..i] + [rs[i]];
    ColumnsSnoc(rs[..i], rs[i]);
    assert rs[..i + 1][..i] == rs[..i];
  }

  /** `user_total_counts_summary[user_id] += 1; user_info_map_summary[user_id] = display_name` */
  method ScanUsers(rs: seq<Record>) returns (counts: Counter<int>, names: map<int, string>)
    ensures counts == CounterOf(UserIdsOf(rs))
    ensures names == LastNames(rs)
  {
    counts, names := Counter([], map[]), map[];
    for i := 0 to |rs|
      invariant counts == CounterOf(UserIdsOf(rs[..i]))
      invariant names == LastNames(rs[..i])
    {
      var r := rs[i];
      ScanUsersStep(rs, i);
      CounterOfSnoc(UserIdsOf(rs[..i]), r.userId);
      counts := Bump(counts, r.userId);
      names := names[r.userId := DisplayName(r)];
    }
    assert rs[..|rs|] == rs;
  }

  /** `for user_id in sorted_user_ids_summary: ws_totals.append([...])` */
  method WriteTotals(users: seq<int>, names: map<int, string>, counts: map<int, nat>) returns (sheet: seq<seq<Cell>>)
    requires forall u :: u in users ==> u in names && u in counts
    ensures sheet == [TotalsHeader] + TotalCells(RowsFor(users, names, counts))
  {
    sheet := [TotalsHeader];
    for k := 0 to |users|
      invariant sheet == [TotalsHeader] + TotalCells(RowsFor(users[..k], names, counts))
    {
      var u := users[k];
      TotalCellsStep(users, k, names, counts);
      sheet := sheet + [[Str(names[u]), Num(counts[u])]];
    }
    assert users[..|users|] == users;
  }

  lemma TotalCellsStep(users: seq<int>, k: nat, names: map<int, string>, counts: map<int, nat>)
    requires k < |users|
    requires forall u :: u in users ==> u in names && u in counts
    ensures users[k] in names && users[k] in counts
    ensures forall u :: u in users[..k] ==> u in names && u in counts
    ensures TotalCells(RowsFor(users[..k + 1], names, counts))
      == TotalCells(RowsFor(users[..k], names, counts)) + [[Str(names[users[k]]), Num(counts[users[k]])]]
  {
    var u := users[k];
    assert u in users;
    assert users[..k + 1][..k] == users[..k];
  }

  /** create_excel_report, without styling and saving. */
  method CreateExcelReport(rows: seq<Row>) returns (book: Workbook)
    ensures book == ExcelReport(rows)
  {
    var allData := WriteAllData(rows);
    var rs := RecordsOf(rows);
    var counts, names := ScanUsers(rs);
    var sorted := StableSort(counts.keys, NameKey(names), StrLe);
    UsersKnown(rs);
    var totals := WriteTotals(sorted, names, counts.counts);
    book := Workbook(allData, totals);
  }

  /** send_scheduled_report: the deliveries, one report chat at a time. */
  method SendScheduledReport(hasBot: bool, shiftType: string, now: int, rows: seq<Row>, reportChats: seq<int>,
                             dayLabel: int -> string, dateStamp: int -> string)
    returns (sent: seq<Delivery>)
    ensures sent == ScheduledDeliveries(hasBot, shiftType, now, rows, reportChats, dayLabel, dateStamp)
  {
    if !hasBot {
      return [];
    }
    var window := ReportShift(shiftType, now);
    if window.None? {
      return [];
    }
    var shift := window.value;
    var found := Between(rows, shift.start, shift.end);
    if found == [] {
      sent := SendNotices(reportChats, EmptyReport(shift));
    } else {
      var book := CreateExcelReport(found);
      sent := SendDocuments(reportChats, ReportFileName(shiftType, shift, dateStamp), book, ReportCaption(shift, dayLabel));
    }
  }

  /** `for chat_id in REPORT_CHAT_IDS: send_message(chat_id, message_text)` */
  method SendNotices(chats: seq<int>, text: string) returns (sent: seq<Delivery>)
    ensures sent == Notices(chats, text)
  {
    sent := [];
    for i := 0 to |chats|
      invariant sent == Notices(chats[..i], text)
    {
      assert chats[..i + 1][..i] == chats[..i];
      sent := sent + [SendText(chats[i], text)];
    }
    assert chats[..|chats|] == chats;
  }

  /** `for chat_id in REPORT_CHAT_IDS: send_document(chat_id, ...)` */
  method SendDocuments(chats: seq<int>, fileName: string, book: Workbook, caption: string) returns (sent: seq<Delivery>)
    ensures sent == Documents(chats, fileName, book, caption)
  {
    sent := [];
    for i := 0 to |chats|
      invariant sent == Documents(chats[..i], fileName, book, caption)
    {
      assert chats[..i + 1][..i] == chats[..i];
      sent := sent + [SendDocument(chats[i], fileName, book, caption)];
    }
    assert chats[..|chats|] == chats;
  }
}
