/**
 * What the report handlers compute from fetched records: counters of
 * services per user and overall, the user order of a dict filled while
 * scanning, `sorted(counter.items())`, and the text of one counter line.
 */
module Tallies {
  import opened Wrappers
  import opened Text
  import opened Store
  import opened Counting
  import opened Sorting

  /** The service column of the records, in order. */
  function ServicesOf(rs: seq<Record>): (r: seq<string>)
    ensures |r| == |rs|
  {
    if rs == [] then [] else ServicesOf(rs[..|rs| - 1]) + [rs[|rs| - 1].service]
  }

  /** The user-id column of the records, in order. */
  function UserIdsOf(rs: seq<Record>): (r: seq<int>)
    ensures |r| == |rs|
  {
    if rs == [] then [] else UserIdsOf(rs[..|rs| - 1]) + [rs[|rs| - 1].userId]
  }

  /** The services of user u's records, in order. */
  function UserServices(rs: seq<Record>, u: int): seq<string>
  {
    if rs == [] then []
    else
      var last := rs[|rs| - 1];
      UserServices(rs[..|rs| - 1], u) + (if last.userId == u then [last.service] else [])
  }

  lemma ColumnsSnoc(rs: seq<Record>, r: Record)
    ensures ServicesOf(rs + [r]) == ServicesOf(rs) + [r.service]
    ensures UserIdsOf(rs + [r]) == UserIdsOf(rs) + [r.userId]
    ensures forall u :: UserServices(rs + [r], u) == UserServices(rs, u) + (if r.userId == u then [r.service] else [])
  {
    assert (rs + [r])[..|rs|] == rs;
  }

  const NoCounts: Counter<string> := Counter([], map[])

  /** `user_stats[user_id][service] += 1` for each record: a counter of services per user. */
  function PerUser(rs: seq<Record>): map<int, Counter<string>>
  {
    if rs == [] then map[]
    else
      var m := PerUser(rs[..|rs| - 1]);
      var r := rs[|rs| - 1];
      m[r.userId := Bump(if r.userId in m then m[r.userId] else NoCounts, r.service)]
  }

  /** The users' counters are keyed by the users seen, each the counter of that user's services. */
  lemma {:induction false} PerUserMeaning(rs: seq<Record>)
    ensures forall u :: u in PerUser(rs) <==> u in UserIdsOf(rs)
    ensures forall u :: u in PerUser(rs) ==> PerUser(rs)[u] == CounterOf(UserServices(rs, u))
  {
    if rs != [] {
      var init := rs[..|rs| - 1];
      var r := rs[|rs| - 1];
      PerUserMeaning(init);
      ColumnsSnoc(init, r);
      assert init + [r] == rs;
      var m := PerUser(init);
      var v := r.userId;
      if v in m {
        CounterOfSnoc(UserServices(init, v), r.service);
      } else {
        UserServicesEmpty(init, v);
        CounterOfSnoc([], r.service);
        assert [] + [r.service] == [r.service];
      }
      assert PerUser(rs)[v] == CounterOf(UserServices(rs, v));
      forall u | u in PerUser(rs) ensures PerUser(rs)[u] == CounterOf(UserServices(rs, u)) {
        if u != v {
          assert PerUser(rs)[u] == m[u];
          assert UserServices(rs, u) == UserServices(init, u) + [];
          assert UserServices(init, u) + [] == UserServices(init, u);
        }
      }
    }
  }

  lemma {:induction false} UserServicesEmpty(rs: seq<Record>, u: int)
    requires u !in UserIdsOf(rs)
    ensures UserServices(rs, u) == []
  {
    if rs != [] {
      ColumnsSnoc(rs[..|rs| - 1], rs[|rs| - 1]);
      assert rs[..|rs| - 1] + [rs[|rs| - 1]] == rs;
      UserServicesEmpty(rs[..|rs| - 1], u);
    }
  }

  /** A user's records are as many as the user's occurrences in the user-id column. */
  lemma {:induction false} UserServicesCount(rs: seq<Record>, u: int)
    ensures |UserServices(rs, u)| == Occurrences(UserIdsOf(rs), u)
  {
    if rs != [] {
      var init := rs[..|rs| - 1];
      UserServicesCount(init, u);
      ColumnsSnoc(init, rs[|rs| - 1]);
      assert init + [rs[|rs| - 1]] == rs;
      assert (UserIdsOf(init) + [rs[|rs| - 1].userId])[..|init|] == UserIdsOf(init);
    }
  }

  /** `sum(services.values())` for each user. */
  function UserTotals(m: map<int, Counter<string>>): map<int, nat>
  {
    map u | u in m :: Total(m[u])
  }

  /** Each user's total is the number of the user's records. */
  lemma UserTotalsAreCounts(rs: seq<Record>)
    ensures UserTotals(PerUser(rs)) == CountMap(UserIdsOf(rs))
  {
    PerUserMeaning(rs);
    CountMapMeaning(UserIdsOf(rs));
    var a := UserTotals(PerUser(rs));
    var b := CountMap(UserIdsOf(rs));
    forall u | u in a ensures u in b && a[u] == b[u] {
      CounterOfMeaning(UserServices(rs, u));
      UserServicesCount(rs, u);
    }
  }

  /**
   * The users' totals, taken in the order the users were first seen, add
   * up to the number of records: each record is counted once, for its
   * user.
   */
  lemma UserTotalsSum(rs: seq<Record>)
    ensures SumAlong(FirstSeen(UserIdsOf(rs)), UserTotals(PerUser(rs))) == |rs|
  {
    UserTotalsAreCounts(rs);
    CountsSumToLength(UserIdsOf(rs));
  }

  // ---------------------------------------------------------------------
  // sorted(counter.items())
  // ---------------------------------------------------------------------

  type Item = (string, nat)

  function ItemKey(p: Item): string
  {
    p.0
  }

  /** `counter.items()`, in the dict's order. */
  function Items(c: Counter<string>): seq<Item>
  {
    ItemsAlong(c.keys, c.counts)
  }

  function ItemsAlong(keys: seq<string>, counts: map<string, nat>): seq<Item>
  {
    if keys == [] then []
    else
      var k := keys[|keys| - 1];
      ItemsAlong(keys[..|keys| - 1], counts) + [(k, Get(counts, k))]
  }

  /**
   * `sorted(counter.items())`. The keys of a dict are distinct, so the
   * tuples are ordered by their first component alone.
   */
  function SortedItems(c: Counter<string>): seq<Item>
  {
    SortBy(Items(c), ItemKey, StrLe)
  }

  function SumItems(items: seq<Item>): nat
  {
    if items == [] then 0 else SumItems(items[..|items| - 1]) + items[|items| - 1].1
  }

  lemma {:induction false} ItemsAlongMeaning(keys: seq<string>, counts: map<string, nat>)
    ensures |ItemsAlong(keys, counts)| == |keys|
    ensures forall i :: 0 <= i < |keys| ==> ItemsAlong(keys, counts)[i] == (keys[i], Get(counts, keys[i]))
    ensures SumItems(ItemsAlong(keys, counts)) == SumAlong(keys, counts)
  {
    if keys != [] {
      var init := keys[..|keys| - 1];
      ItemsAlongMeaning(init, counts);
      var k := keys[|keys| - 1];
      assert (ItemsAlong(init, counts) + [(k, Get(counts, k))])[..|init|] == ItemsAlong(init, counts);
    }
  }

  lemma {:induction false} SumItemsInsert(r: seq<Item>, x: Item)
    ensures SumItems(InsertBy(r, x, ItemKey, StrLe)) == SumItems(r) + x.1
  {
    if r == [] || StrLe(ItemKey(r[|r| - 1]), ItemKey(x)) {
      assert (r + [x])[..|r|] == r;
    } else {
      var init := r[..|r| - 1];
      SumItemsInsert(init, x);
      var s := InsertBy(init, x, ItemKey, StrLe);
      assert (s + [r[|r| - 1]])[..|s|] == s;
    }
  }

  lemma {:induction false} SumItemsSort(items: seq<Item>)
    ensures SumItems(SortBy(items, ItemKey, StrLe)) == SumItems(items)
  {
    if items != [] {
      SumItemsSort(items[..|items| - 1]);
      SumItemsInsert(SortBy(items[..|items| - 1], ItemKey, StrLe), items[|items| - 1]);
    }
  }

  /** The sorted items are in string order, with no service twice. */
  lemma SortedItemsOrder(c: Counter<string>)
    requires Distinct(c.keys)
    ensures SortedBy(SortedItems(c), ItemKey, StrLe)
    ensures KeysDistinct(SortedItems(c), ItemKey)
  {
    var items := Items(c);
    ItemsAlongMeaning(c.keys, c.counts);
    StrLeTotalPreorder();
    SortBySorted(items, ItemKey, StrLe);
    assert KeysDistinct(items, ItemKey) by {
      forall i, j | 0 <= i < j < |items| ensures ItemKey(items[i]) != ItemKey(items[j]) {
        assert items[i].0 == c.keys[i] && items[j].0 == c.keys[j];
      }
    }
    SortByDistinct(items, ItemKey, StrLe);
  }

  /**
   * Counting xs and sorting the items: one pair for each distinct item of
   * xs, holding its number of occurrences (never 0), in string order, and
   * the counts add up to |xs|.
   */
  lemma SortedItemsMeaning(xs: seq<string>)
    ensures var r := SortedItems(CounterOf(xs));
      && SortedBy(r, ItemKey, StrLe)
      && KeysDistinct(r, ItemKey)
      && (forall p :: p in r ==> p.0 in xs && p.1 == Occurrences(xs, p.0) && p.1 > 0)
      && (forall s :: s in xs ==> (s, Occurrences(xs, s)) in r)
      && SumItems(r) == |xs|
  {
    var c := CounterOf(xs);
    CounterOfMeaning(xs);
    SortedItemsOrder(c);
    SortedItemsContents(xs);
    ItemsAlongMeaning(c.keys, c.counts);
    SumItemsSort(Items(c));
  }

  lemma SortedItemsContents(xs: seq<string>)
    ensures var r := SortedItems(CounterOf(xs));
      && (forall p :: p in r ==> p.0 in xs && p.1 == Occurrences(xs, p.0) && p.1 > 0)
      && (forall s :: s in xs ==> (s, Occurrences(xs, s)) in r)
  {
    var c := CounterOf(xs);
    SortByMembers(Items(c), ItemKey, StrLe);
    ItemsHaveCounts(xs);
    ItemsCoverAll(xs);
  }

  lemma ItemsHaveCounts(xs: seq<string>)
    ensures forall p :: p in Items(CounterOf(xs)) ==> p.0 in xs && p.1 == Occurrences(xs, p.0) && p.1 > 0
  {
    var c := CounterOf(xs);
    var items := Items(c);
    CounterOfMeaning(xs);
    CountMapMeaning(xs);
    ItemsAlongMeaning(c.keys, c.counts);
    forall p | p in items ensures p.0 in xs && p.1 == Occurrences(xs, p.0) && p.1 > 0 {
      var i :| 0 <= i < |items| && items[i] == p;
      assert c.keys[i] in c.keys;
    }
  }

  lemma ItemsCoverAll(xs: seq<string>)
    ensures forall s :: s in xs ==> (s, Occurrences(xs, s)) in Items(CounterOf(xs))
  {
    var c := CounterOf(xs);
    var items := Items(c);
    CounterOfMeaning(xs);
    ItemsAlongMeaning(c.keys, c.counts);
    forall s | s in xs ensures (s, Occurrences(xs, s)) in items {
      var i :| 0 <= i < |c.keys| && c.keys[i] == s;
      assert items[i] == (s, Occurrences(xs, s));
    }
  }

  // ---------------------------------------------------------------------
  // The text of one counter line
  // ---------------------------------------------------------------------

  /** The four line formats the handlers use for a (service, count) pair. */
  datatype Style =
    | Plain         // `{service}: {count} шт.`
    | BoldName      // `<b>{service}</b>: {count} шт.`
    | Dash          // `  - {service}: {count} шт.`
    | DashBoldName  // `  - <b>{service}</b>: {count} шт.`

  function ItemLine(style: Style, p: Item): string
  {
    var count := NatToString(p.1) + " шт.";
    match style
    case Plain => p.0 + ": " + count
    case BoldName => "<b>" + p.0 + "</b>: " + count
    case Dash => "  - " + p.0 + ": " + count
    case DashBoldName => "  - <b>" + p.0 + "</b>: " + count
  }

  function ItemLines(style: Style, items: seq<Item>): (r: seq<string>)
    ensures |r| == |items|
  {
    if items == [] then [] else ItemLines(style, items[..|items| - 1]) + [ItemLine(style, items[|items| - 1])]
  }

  /** `for service, count in items: lines.append(...)` */
  method AppendItemLines(lines0: seq<string>, style: Style, items: seq<Item>) returns (lines: seq<string>)
    ensures lines == lines0 + ItemLines(style, items)
  {
    lines := lines0;
    for j := 0 to |items|
      invariant lines == lines0 + ItemLines(style, items[..j])
    {
      assert items[..j + 1][..j] == items[..j];
      lines := lines + [ItemLine(style, items[j])];
    }
    assert items[..|items|] == items;
  }
}
