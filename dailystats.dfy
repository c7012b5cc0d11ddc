/**
 * The shift statistics reply (today_stats_handler): the records of the
 * current shift window, grouped by user in the order the users first
 * appear, each user's services in string order, the service totals, the
 * overall total, and the lines split into messages.
 */
module DailyStats {
  import opened Wrappers
  import opened Text
  import opened Store
  import opened Counting
  import opened Sorting
  import opened Tallies
  import opened Shifts
  import opened Chunker

  /** `f"@{username}" if username else fullname` */
  function AtNameOrFull(r: Record): string
  {
    if Truthy(r.username) then "@" + r.username.value else r.fullName
  }

  /** `user_info`: each user's name, set from the user's first record only. */
  function FirstNames(rs: seq<Record>): map<int, string>
  {
    if rs == [] then map[]
    else
      var m := FirstNames(rs[..|rs| - 1]);
      var r := rs[|rs| - 1];
      if r.userId in m then m else m[r.userId := AtNameOrFull(r)]
  }

  /** Whether rs[k] is the first record of its user. */
  predicate FirstOfUser(rs: seq<Record>, k: nat)
    requires k < |rs|
  {
    forall j :: 0 <= j < k ==> rs[j].userId != rs[k].userId
  }

  /** The users with a name are exactly the users seen. */
  lemma {:induction false} FirstNamesKeys(rs: seq<Record>)
    ensures forall u :: u in FirstNames(rs) <==> u in UserIdsOf(rs)
  {
    if rs != [] {
      var init := rs[..|rs| - 1];
      var r := rs[|rs| - 1];
      FirstNamesKeys(init);
      ColumnsSnoc(init, r);
      assert init + [r] == rs;
    }
  }

  /** Each user seen has a name, and it is the one of the user's first record. */
  lemma {:induction false} FirstNamesMeaning(rs: seq<Record>)
    ensures forall u :: u in FirstNames(rs) <==> u in UserIdsOf(rs)
    ensures forall k :: 0 <= k < |rs| && FirstOfUser(rs, k) ==>
      rs[k].userId in FirstNames(rs) && FirstNames(rs)[rs[k].userId] == AtNameOrFull(rs[k])
  {
    FirstNamesKeys(rs);
    if rs != [] {
      var init := rs[..|rs| - 1];
      FirstNamesMeaning(init);
      forall k | 0 <= k < |rs| && FirstOfUser(rs, k)
        ensures rs[k].userId in FirstNames(rs) && FirstNames(rs)[rs[k].userId] == AtNameOrFull(rs[k])
      {
        if k < |init| {
          FirstNameEarlier(rs, k);
        } else {
          FirstNameLast(rs);
        }
      }
    }
  }

  /** A user's first record before the last one keeps its name when the last record is added. */
  lemma FirstNameEarlier(rs: seq<Record>, k: nat)
    requires k < |rs| - 1 && FirstOfUser(rs, k)
    requires var init := rs[..|rs| - 1];
      forall k :: 0 <= k < |init| && FirstOfUser(init, k) ==>
        init[k].userId in FirstNames(init) && FirstNames(init)[init[k].userId] == AtNameOrFull(init[k])
    ensures rs[k].userId in FirstNames(rs) && FirstNames(rs)[rs[k].userId] == AtNameOrFull(rs[k])
  {
    var init := rs[..|rs| - 1];
    assert init[k] == rs[k];
    assert FirstOfUser(init, k) by {
      forall j | 0 <= j < k ensures init[j].userId != init[k].userId {
        assert init[j] == rs[j];
      }
    }
  }

  /** The last record, when it is its user's first, gives the user's name. */
  lemma FirstNameLast(rs: seq<Record>)
    requires rs != [] && FirstOfUser(rs, |rs| - 1)
    ensures var r := rs[|rs| - 1]; r.userId in FirstNames(rs) && FirstNames(rs)[r.userId] == AtNameOrFull(r)
  {
    var init := rs[..|rs| - 1];
    var r := rs[|rs| - 1];
    forall j | 0 <= j < |init| ensures init[j].userId != r.userId {
      assert init[j] == rs[j];
    }
    AbsentUserId(init, r.userId);
    FirstNamesKeys(init);
  }

  /** The user of each record is among the users seen. */
  lemma {:induction false} UserIdsAt(rs: seq<Record>, k: nat)
    requires k < |rs|
    ensures rs[k].userId in UserIdsOf(rs)
  {
    var init := rs[..|rs| - 1];
    ColumnsSnoc(init, rs[|rs| - 1]);
    assert init + [rs[|rs| - 1]] == rs;
    if k < |init| {
      assert init[k] == rs[k];
      UserIdsAt(init, k);
    }
  }

  lemma {:induction false} AbsentUserId(rs: seq<Record>, u: int)
    requires forall j :: 0 <= j < |rs| ==> rs[j].userId != u
    ensures u !in UserIdsOf(rs)
  {
    if rs != [] {
      var init := rs[..|rs| - 1];
      ColumnsSnoc(init, rs[|rs| - 1]);
      assert init + [rs[|rs| - 1]] == rs;
      AbsentUserId(init, u);
    }
  }

  // ---------------------------------------------------------------------
  // The reply lines
  // ---------------------------------------------------------------------

  function Title(shift: Shift): string
  {
    "<b>Статистика за " + shift.name + " (" + HourMinute(shift.start) + " - " + HourMinute(shift.end) + "):</b>"
  }

  function UserHeader(name: string, total: nat): string
  {
    "\n<b>" + name + "</b> - всего: " + NatToString(total) + " шт."
  }

  const ServicesHeader: string := "\n<b>Итог по сервисам:</b>"

  function FinalLine(shiftName: string, total: nat): string
  {
    "\n<b>Общий итог за " + shiftName + ": " + NatToString(total) + " шт.</b>"
  }

  function EmptyNotice(shiftName: string): string
  {
    "За " + shiftName + " пока ничего не принято."
  }

  /** One user's block: the name with `sum(services.values())`, then the user's sorted services. */
  function UserBlock(c: Counter<string>, name: string): seq<string>
  {
    [UserHeader(name, Total(c))] + ItemLines(Dash, SortedItems(c))
  }

  /** The blocks of the users, in the order given. */
  function UserBlocks(users: seq<int>, perUser: map<int, Counter<string>>, names: map<int, string>): seq<string>
    requires forall u :: u in users ==> u in perUser && u in names
  {
    if users == [] then []
    else
      var u := users[|users| - 1];
      UserBlocks(users[..|users| - 1], perUser, names) + UserBlock(perUser[u], names[u])
  }

  /** The lines of a non-empty shift, as the handler builds them. */
  function ShiftLines(rs: seq<Record>, shift: Shift): seq<string>
  {
    var users := FirstSeen(UserIdsOf(rs));
    var perUser := PerUser(rs);
    var names := FirstNames(rs);
    ScanKeys(rs);
    [Title(shift)]
      + UserBlocks(users, perUser, names)
      + [ServicesHeader]
      + ItemLines(BoldName, SortedItems(CounterOf(ServicesOf(rs))))
      + [FinalLine(shift.name, SumAlong(users, UserTotals(perUser)))]
  }

  /** The messages the handler sends for the clock reading `now`. */
  function ShiftMessages(rows: seq<Row>, now: int): seq<string>
  {
    var shift := ShiftTimeRange(now);
    var records := RecordsOf(Between(rows, shift.start, shift.end));
    if records == [] then [EmptyNotice(shift.name)]
    else Messages(Groups(TodayStats, ShiftLines(records, shift)))
  }

  lemma ScanKeys(rs: seq<Record>)
    ensures forall u :: u in FirstSeen(UserIdsOf(rs)) ==> u in PerUser(rs) && u in FirstNames(rs)
  {
    FirstSeenMeaning(UserIdsOf(rs));
    PerUserMeaning(rs);
    FirstNamesMeaning(rs);
  }

  // ---------------------------------------------------------------------
  // What the reply says
  // ---------------------------------------------------------------------

  /**
   * Each record raises exactly one user's counter and one service total:
   * the overall total, the sum of the user totals in user order, equals
   * the number of records and the sum of the service totals.
   */
  lemma ShiftTotal(rs: seq<Record>)
    ensures SumAlong(FirstSeen(UserIdsOf(rs)), UserTotals(PerUser(rs))) == |rs|
    ensures SumItems(SortedItems(CounterOf(ServicesOf(rs)))) == |rs|
  {
    UserTotalsSum(rs);
    SortedItemsMeaning(ServicesOf(rs));
  }

  /**
   * A user's header shows the number of the user's records, and the
   * user's service lines list each service of those records once, with
   * its count, in string order.
   */
  lemma UserBlockCounts(rs: seq<Record>, u: int)
    requires u in PerUser(rs)
    ensures Total(PerUser(rs)[u]) == |UserServices(rs, u)|
    ensures var items := SortedItems(PerUser(rs)[u]);
      && SortedBy(items, ItemKey, StrLe) && KeysDistinct(items, ItemKey)
      && (forall p :: p in items ==> p.1 == Occurrences(UserServices(rs, u), p.0) > 0)
      && (forall s :: s in UserServices(rs, u) ==> (s, Occurrences(UserServices(rs, u), s)) in items)
  {
    PerUserMeaning(rs);
    CounterOfMeaning(UserServices(rs, u));
    SortedItemsMeaning(UserServices(rs, u));
  }

  // ---------------------------------------------------------------------
  // The handler
  // ---------------------------------------------------------------------

  lemma ScanStep(rs: seq<Record>, i: nat)
    requires i < |rs|
    ensures var prev := rs[..i];
      var r := rs[i];
      && UserIdsOf(rs[..i + 1]) == UserIdsOf(prev) + [r.userId]
      && ServicesOf(rs[..i + 1]) == ServicesOf(prev) + [r.service]
      && PerUser(rs[..i + 1]) == PerUser(prev)[r.userId := Bump(if r.userId in PerUser(prev) then PerUser(prev)[r.userId] else NoCounts, r.service)]
      && FirstNames(rs[..i + 1]) == (if r.userId in FirstNames(prev) then FirstNames(prev) else FirstNames(prev)[r.userId := AtNameOrFull(r)])
  {
    assert rs[..i + 1] == rs[..i] + [rs[i]];
    ColumnsSnoc(rs[..i], rs[i]);
    assert rs[..i + 1][..i] == rs[..i];
  }

  /**
   * The scanning loop over the shift's records: `user_stats`, `user_info`
   * and `service_totals`, with the users in the order the dict yields them.
   */
  method ScanRecords(rs: seq<Record>)
    returns (users: seq<int>, perUser: map<int, Counter<string>>, names: map<int, string>, totals: Counter<string>)
    ensures users == FirstSeen(UserIdsOf(rs))
    ensures perUser == PerUser(rs) && names == FirstNames(rs)
    ensures totals == CounterOf(ServicesOf(rs))
  {
    users, perUser, names, totals := [], map[], map[], Counter([], map[]);
    for i := 0 to |rs|
      invariant users == FirstSeen(UserIdsOf(rs[..i]))
      invariant perUser == PerUser(rs[..i]) && names == FirstNames(rs[..i])
      invariant totals == CounterOf(ServicesOf(rs[..i]))
    {
      var r := rs[i];
      ScanStep(rs, i);
      PerUserMeaning(rs[..i]);
      FirstSeenMeaning(UserIdsOf(rs[..i]));
      CounterOfSnoc(ServicesOf(rs[..i]), r.service);
      assert (UserIdsOf(rs[..i]) + [r.userId])[..i] == UserIdsOf(rs[..i]);
      if r.userId !in perUser {
        users := users + [r.userId];
      }
      perUser := perUser[r.userId := Bump(if r.userId in perUser then perUser[r.userId] else NoCounts, r.service)];
      totals := Bump(totals, r.service);
      if r.userId !in names {
        names := names[r.userId := AtNameOrFull(r)];
      }
    }
    assert rs[..|rs|] == rs;
  }

  lemma BlocksStep(users: seq<int>, k: nat, perUser: map<int, Counter<string>>, names: map<int, string>)
    requires k < |users|
    requires forall u :: u in users ==> u in perUser && u in names
    ensures forall u :: u in users[..k] ==> u in perUser && u in names
    ensures users[k] in perUser && users[k] in names
    ensures var c := perUser[users[k]];
      UserBlocks(users[..k + 1], perUser, names)
        == (UserBlocks(users[..k], perUser, names) + [UserHeader(names[users[k]], Total(c))]) + ItemLines(Dash, SortedItems(c))
  {
    var u := users[k];
    assert u in users;
    assert u in perUser && u in names;
    assert users[..k + 1][..k] == users[..k];
  }

  /**
   * `for user_id, services in user_stats.items()`: each user's block, and
   * `total_all_users` as the sum of the user totals.
   */
  method UserLines(users: seq<int>, perUser: map<int, Counter<string>>, names: map<int, string>)
    returns (blocks: seq<string>, totalAll: nat)
    requires forall u :: u in users ==> u in perUser && u in names
    ensures blocks == UserBlocks(users, perUser, names)
    ensures totalAll == SumAlong(users, UserTotals(perUser))
  {
    blocks := [];
    totalAll := 0;
    for k := 0 to |users|
      invariant blocks == UserBlocks(users[..k], perUser, names)
      invariant totalAll == SumAlong(users[..k], UserTotals(perUser))
    {
      var u := users[k];
      BlocksStep(users, k, perUser, names);
      assert users[..k + 1][..k] == users[..k];
      var services := perUser[u];
      var userTotal := Total(services);
      totalAll := totalAll + userTotal;
      blocks := blocks + [UserHeader(names[u], userTotal)];
      var items := StableSort(Items(services), ItemKey, StrLe);
      blocks := AppendItemLines(blocks, Dash, items);
    }
    assert users[..|users|] == users;
  }

  /** today_stats_handler: the messages sent for the clock reading `now`. */
  method ShiftStatsReply(rows: seq<Row>, now: int) returns (messages: seq<string>)
    ensures messages == ShiftMessages(rows, now)
  {
    var shift := ShiftTimeRange(now);
    var records := RecordsOf(Between(rows, shift.start, shift.end));
    if records == [] {
      messages := [EmptyNotice(shift.name)];
      return;
    }
    var users, perUser, names, totals := ScanRecords(records);
    ScanKeys(records);
    var blocks, totalAll := UserLines(users, perUser, names);
    var lines := [Title(shift)] + blocks + [ServicesHeader];
    var totalItems := StableSort(Items(totals), ItemKey, StrLe);
    lines := AppendItemLines(lines, BoldName, totalItems);
    lines := lines + [FinalLine(shift.name, totalAll)];
    messages := Chunk(TodayStats, lines);
  }
}
