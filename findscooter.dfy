/**
 * find_scooter_handler: the history of one scooter number, newest first,
 * one line per stored acceptance. The `%d.%m` label of a day is the
 * parameter `dayLabel`.
 */
module FindScooter {
  import opened Wrappers
  import opened Text
  import opened Store
  import opened Sorting
  import opened Shifts
  import opened Chunker
  import opened DailyStats

  const FindUsage: string := "🔍 Используйте: /find_scooter <номер>\nПример:\n/find_scooter 12345678\n/find_scooter AB1234"

  function NotFound(number: string): string
  {
    "❌ Нет записей с номером <code>" + number + "</code>"
  }

  function HistoryHeader(number: string): string
  {
    "🔍 <b>История самоката <code>" + number + "</code>:</b>"
  }

  /** The lookup key: `args.upper().replace('-', '')`. */
  function LookupKey(args: string): string
  {
    RemoveChar(UpperStr(args), '-')
  }

  /** A positive chat id is linked; any other is printed as is. */
  function ChatLink(chatId: int): string
  {
    if chatId > 0 then "<a href='tg://resolve?domain=chat&post=" + IntToString(chatId) + "'>" + IntToString(chatId) + "</a>"
    else IntToString(chatId)
  }

  function HistoryLine(r: Record, dayLabel: int -> string): string
  {
    "• " + r.service + " — " + AtNameOrFull(r)
      + " (" + dayLabel(DayOf(r.timestamp)) + " " + HourMinute(r.timestamp) + ") — чат: " + ChatLink(r.chatId)
  }

  function HistoryLines(rs: seq<Record>, dayLabel: int -> string): (r: seq<string>)
    ensures |r| == |rs|
  {
    if rs == [] then [] else HistoryLines(rs[..|rs| - 1], dayLabel) + [HistoryLine(rs[|rs| - 1], dayLabel)]
  }

  function Timestamp(r: Record): int
  {
    r.timestamp
  }

  /** `WHERE scooter_number = ?` */
  function Matching(rows: seq<Row>, number: string): seq<Record>
  {
    RecordsOf(Where(rows, (r: Record) => r.number == number))
  }

  /** `ORDER BY timestamp DESC`, rows with equal timestamps in table order. */
  function History(rows: seq<Row>, number: string): seq<Record>
  {
    SortBy(Matching(rows, number), Timestamp, IntGe)
  }

  /** The handler's messages for the argument text. */
  function FindMessages(rows: seq<Row>, args: string, dayLabel: int -> string): seq<string>
  {
    var a := Strip(args);
    if a == [] then [FindUsage]
    else
      var number := LookupKey(a);
      var h := History(rows, number);
      if h == [] then [NotFound(number)]
      else Messages(Groups(FindScooter, [HistoryHeader(number)] + HistoryLines(h, dayLabel)))
  }

  // ---------------------------------------------------------------------
  // What the history says
  // ---------------------------------------------------------------------

  /**
   * The key looked up is the key extraction stores for the same text
   * (dashes removed, upper-cased), whichever order the two steps run in.
   */
  lemma LookupKeyIsNormalize(args: string)
    ensures LookupKey(args) == Normalize(args)
  {
    UpperCommutesWithDashRemoval(args);
  }

  lemma RecordsOfMembers(rows: seq<Row>)
    ensures forall r :: r in RecordsOf(rows) <==> exists x :: x in rows && x.rec == r
  {
    forall r | r in RecordsOf(rows) ensures exists x :: x in rows && x.rec == r {
      var k :| 0 <= k < |rows| && RecordsOf(rows)[k] == r;
      assert rows[k] in rows;
    }
    forall x | x in rows ensures x.rec in RecordsOf(rows) {
      var k :| 0 <= k < |rows| && rows[k] == x;
      assert RecordsOf(rows)[k] == x.rec;
    }
  }

  /**
   * The history lists newest first, holds exactly the stored records with
   * that number, each as often as stored, and the ones stored with the
   * same timestamp in table order.
   */
  lemma HistoryMeaning(rows: seq<Row>, number: string)
    ensures SortedBy(History(rows, number), Timestamp, IntGe)
    ensures multiset(History(rows, number)) == multiset(Matching(rows, number))
    ensures forall r :: r in History(rows, number) <==> r.number == number && exists x :: x in rows && x.rec == r
    ensures forall t :: Select(History(rows, number), Timestamp, t) == Select(Matching(rows, number), Timestamp, t)
  {
    var m := Matching(rows, number);
    IntGeTotalPreorder();
    SortBySorted(m, Timestamp, IntGe);
    SortByPermutes(m, Timestamp, IntGe);
    forall t ensures Select(History(rows, number), Timestamp, t) == Select(m, Timestamp, t) {
      SortByStable(m, Timestamp, IntGe, t);
    }
    var keep := (r: Record) => r.number == number;
    RecordsOfMembers(Where(rows, keep));
    forall r ensures r in History(rows, number) <==> r in m {
      assert r in History(rows, number) <==> r in multiset(History(rows, number));
    }
  }

  /** The usage text answers blank arguments; "not found" answers a number with no record. */
  lemma FindAnswers(rows: seq<Row>, args: string, dayLabel: int -> string)
    ensures Strip(args) == [] ==> FindMessages(rows, args, dayLabel) == [FindUsage]
    ensures Strip(args) != [] && (forall x :: x in rows ==> x.rec.number != Normalize(Strip(args))) ==>
      FindMessages(rows, args, dayLabel) == [NotFound(Normalize(Strip(args)))]
    ensures Strip(args) != [] && (exists x :: x in rows && x.rec.number == Normalize(Strip(args))) ==>
      var h := History(rows, Normalize(Strip(args)));
      && |h| > 0
      && Flatten(Groups(FindScooter, [HistoryHeader(Normalize(Strip(args)))] + HistoryLines(h, dayLabel)))
         == [HistoryHeader(Normalize(Strip(args)))] + HistoryLines(h, dayLabel)
  {
    var a := Strip(args);
    if a != [] {
      var number := Normalize(a);
      LookupKeyIsNormalize(a);
      HistoryMeaning(rows, number);
      var h := History(rows, number);
      if h != [] {
        assert h[0] in h;
      }
      if exists x :: x in rows && x.rec.number == number {
        var x :| x in rows && x.rec.number == number;
        assert x.rec in h;
        GroupsKeepLines(FindScooter, [HistoryHeader(number)] + HistoryLines(h, dayLabel));
      }
    }
  }

  // ---------------------------------------------------------------------
  // The handler
  // ---------------------------------------------------------------------

  method FindScooterReply(rows: seq<Row>, args: string, dayLabel: int -> string) returns (messages: seq<string>)
    ensures messages == FindMessages(rows, args, dayLabel)
  {
    var a := Strip(args);
    if a == [] {
      return [FindUsage];
    }
    var number := LookupKey(a);
    var found := Matching(rows, number);
    var h := StableSort(found, Timestamp, IntGe);
    if h == [] {
      return [NotFound(number)];
    }
    var lines := WriteHistory(h, dayLabel);
    messages := Chunk(FindScooter, [HistoryHeader(number)] + lines);
  }

  /** `for row in records: response_parts.append(...)` */
  method WriteHistory(h: seq<Record>, dayLabel: int -> string) returns (lines: seq<string>)
    ensures lines == HistoryLines(h, dayLabel)
  {
    lines := [];
    for i := 0 to |h|
      invariant lines == HistoryLines(h[..i], dayLabel)
    {
      assert h[..i + 1][..i] == h[..i];
      lines := lines + [HistoryLine(h[i], dayLabel)];
    }
    assert h[..|h|] == h;
  }
}
