/**
 * process_scooter_text: extract the records of one message, write them in
 * one INSERT OR IGNORE batch and build the reply that lists, per service
 * in sorted order, how many were accepted. Nothing is written and nothing
 * is replied when the message yields no record.
 */
module Acceptance {
  import opened Wrappers
  import opened Text
  import opened Config
  import opened Store
  import opened Counting
  import opened Sorting
  import opened Tallies
  import opened Extraction

  /** The HTML mention of the sender. */
  function Mention(who: Sender): string
  {
    "<a href='tg://user?id=" + IntToString(who.userId) + "'>" + who.fullName + "</a>"
  }

  function ReplyHeader(who: Sender, total: nat): string
  {
    Mention(who) + ", принято " + NatToString(total) + " шт.:"
  }

  /** `if count > 0`: the items with a positive count, in order. */
  function NonZero(items: seq<Item>): seq<Item>
  {
    if items == [] then []
    else
      var p := items[|items| - 1];
      NonZero(items[..|items| - 1]) + (if p.1 > 0 then [p] else [])
  }

  /**
   * `sorted(accepted_summary.items())`: the summary counter of the
   * records' services, in string order. Its header total is
   * `sum(accepted_summary.values())`.
   */
  function SummaryItems(records: seq<Record>): seq<Item>
  {
    SortedItems(CounterOf(ServicesOf(records)))
  }

  function ReplyLines(who: Sender, records: seq<Record>): seq<string>
  {
    var items := SummaryItems(records);
    [ReplyHeader(who, SumItems(items))] + ItemLines(DashBoldName, NonZero(items))
  }

  /** The reply text. */
  function Reply(who: Sender, records: seq<Record>): string
  {
    JoinWith(ReplyLines(who, records), "\n")
  }

  // ---------------------------------------------------------------------
  // What the reply says
  // ---------------------------------------------------------------------

  lemma {:induction false} NonZeroKeepsPositive(items: seq<Item>)
    requires forall k :: 0 <= k < |items| ==> items[k].1 > 0
    ensures NonZero(items) == items
  {
    if items != [] {
      var init := items[..|items| - 1];
      NonZeroKeepsPositive(init);
      assert init + [items[|items| - 1]] == items;
    }
  }

  lemma {:induction false} ServicesOfIndex(rs: seq<Record>)
    ensures forall i :: 0 <= i < |rs| ==> ServicesOf(rs)[i] == rs[i].service
  {
    if rs != [] {
      ServicesOfIndex(rs[..|rs| - 1]);
    }
  }

  /** The summary's count of a service is the number of records of that service. */
  lemma {:induction false} CountServiceIsOccurrences(rs: seq<Record>, s: string)
    ensures CountService(rs, s) == Occurrences(ServicesOf(rs), s)
  {
    if rs != [] {
      CountServiceIsOccurrences(rs[..|rs| - 1], s);
    }
  }

  /**
   * The reply lists each service that has records exactly once, in
   * string order, with the count the extraction's summary holds for it;
   * only the four services appear, and the header's total is the number
   * of records written.
   */
  lemma ReplyMeaning(text: string, who: Sender, ts: int, tick: nat -> string, bolt: string -> seq<string>)
    ensures var records := Extract(text, who, ts, tick, bolt);
      var items := SummaryItems(records);
      var summary := TallyMap(records);
      && SumItems(items) == |records|
      && NonZero(items) == items
      && SortedBy(items, ItemKey, StrLe) && KeysDistinct(items, ItemKey)
      && (forall p :: p in items ==> p.0 in ServicesSorted && p.0 in summary && p.1 == summary[p.0])
      && (forall s :: s in summary ==> (s, summary[s]) in items)
  {
    ExtractServicesKnown(text, who, ts, tick, bolt);
    SummaryMeaning(Extract(text, who, ts, tick, bolt));
  }

  /** What `ReplyMeaning` states, for any records of the four services. */
  lemma SummaryMeaning(records: seq<Record>)
    requires forall r :: r in records ==> r.service in ServicesSorted
    ensures var items := SummaryItems(records);
      var summary := TallyMap(records);
      && SumItems(items) == |records|
      && NonZero(items) == items
      && SortedBy(items, ItemKey, StrLe) && KeysDistinct(items, ItemKey)
      && (forall p :: p in items ==> p.0 in ServicesSorted && p.0 in summary && p.1 == summary[p.0])
      && (forall s :: s in summary ==> (s, summary[s]) in items)
  {
    var services := ServicesOf(records);
    var items := SummaryItems(records);
    var summary := TallyMap(records);
    SortedItemsMeaning(services);
    NonZeroKeepsPositive(items);
    TallyMapCounts(records);
    ServicesOfIndex(records);
    forall p | p in items ensures p.0 in ServicesSorted && p.0 in summary && p.1 == summary[p.0] {
      var i :| 0 <= i < |services| && services[i] == p.0;
      assert records[i] in records;
      CountServiceIsOccurrences(records, p.0);
    }
    forall s | s in summary ensures (s, summary[s]) in items {
      CountServiceIsOccurrences(records, s);
      assert Occurrences(services, s) > 0;
      OccurrencesPositive(services, s);
    }
  }

  lemma {:induction false} OccurrencesPositive(xs: seq<string>, x: string)
    requires Occurrences(xs, x) > 0
    ensures x in xs
  {
    if xs[|xs| - 1] != x {
      OccurrencesPositive(xs[..|xs| - 1], x);
    }
  }

  // ---------------------------------------------------------------------
  // The handler
  // ---------------------------------------------------------------------

  /**
   * process_scooter_text. Returns whether anything was accepted and the
   * reply sent, if any; the table receives one batch write exactly when
   * the message yields records.
   */
  method ProcessScooterText(table: Table, text: string, who: Sender, ts: int, tick: nat -> string, bolt: string -> seq<string>)
    returns (accepted: bool, reply: Option<string>)
    requires table.Valid()
    modifies table
    ensures table.Valid()
    ensures accepted <==> Extract(text, who, ts, tick, bolt) != []
    ensures reply == if accepted then Some(Reply(who, Extract(text, who, ts, tick, bolt))) else None
    ensures accepted ==> table.Records() == InsertOrIgnore(old(table.Records()), Extract(text, who, ts, tick, bolt))
    ensures !accepted ==> table.rows == old(table.rows) && table.nextId == old(table.nextId)
  {
    var records, summary := ExtractRecords(text, who, ts, tick, bolt);
    if records == [] {
      return false, None;
    }
    table.WriteBatch(records);
    var counter := Tally(ServicesOf(records));
    var items := StableSort(Items(counter), ItemKey, StrLe);
    var total := SumOfCounts(items);
    var lines := AppendItemLines([ReplyHeader(who, total)], DashBoldName, NonZero(items));
    return true, Some(JoinWith(lines, "\n"));
  }

  /** `sum(accepted_summary.values())` */
  method SumOfCounts(items: seq<Item>) returns (total: nat)
    ensures total == SumItems(items)
  {
    total := 0;
    for i := 0 to |items|
      invariant total == SumItems(items[..i])
    {
      assert items[..i + 1][..i] == items[..i];
      total := total + items[i].1;
    }
    assert items[..|items|] == items;
  }
}
