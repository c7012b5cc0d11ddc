/**
 * main.py, the earlier revision of the bot: a table without a chat column
 * or a uniqueness key, written one INSERT per record; the free-text
 * handler `handle_all_messages`, which neither deduplicates nor removes
 * batch phrases before the individual pass; `/batch_accept`; and the
 * admin's today statistics. The moment of each INSERT, which the table
 * takes from `CURRENT_TIMESTAMP`, is the parameter `now`; the
 * `%Y%m%d%H%M%S` token of the placeholders is the parameter `tick`.
 */
module Legacy {
  import opened Wrappers
  import opened Text
  import opened Config
  import opened Store
  import opened Counting
  import opened Tallies
  import opened Shifts
  import opened Patterns
  import opened Extraction
  import opened DailyStats

  /** A row of the earlier accepted_scooters table, without its id. */
  datatype LegacyRecord = LegacyRecord(
    number: string,
    service: string,
    userId: int,
    username: Option<string>,
    fullName: string,
    timestamp: int)

  datatype LegacyRow = LegacyRow(id: nat, rec: LegacyRecord)

  /** `message.from_user`: id, optional username and full name. */
  datatype User = User(userId: int, username: Option<string>, fullName: string)

  function RecordOf(number: string, service: string, who: User, now: int): LegacyRecord
  {
    LegacyRecord(number, service, who.userId, who.username, who.fullName, now)
  }

  function LegacyRecordsOf(rows: seq<LegacyRow>): (r: seq<LegacyRecord>)
    ensures |r| == |rows|
  {
    if rows == [] then [] else LegacyRecordsOf(rows[..|rows| - 1]) + [rows[|rows| - 1].rec]
  }

  /** The table, held in memory: rows in insertion order and the next AUTOINCREMENT id. */
  class LegacyTable {
    var rows: seq<LegacyRow>
    var nextId: nat

    ghost predicate Valid()
      reads this
    {
      && nextId >= 1
      && (forall k :: 0 <= k < |rows| ==> 1 <= rows[k].id < nextId)
      && (forall i, j :: 0 <= i < j < |rows| ==> rows[i].id < rows[j].id)
    }

    function Records(): seq<LegacyRecord>
      reads this
    {
      LegacyRecordsOf(rows)
    }

    constructor ()
      ensures Valid() && rows == [] && nextId == 1
    {
      rows := [];
      nextId := 1;
    }

    /** insert_scooter_record: one INSERT, with a fresh id. */
    method Insert(rec: LegacyRecord)
      requires Valid()
      modifies this
      ensures Valid()
      ensures rows == old(rows) + [LegacyRow(old(nextId), rec)] && nextId == old(nextId) + 1
      ensures Records() == old(Records()) + [rec]
    {
      assert LegacyRecordsOf(rows + [LegacyRow(nextId, rec)])[..|rows|] == LegacyRecordsOf(rows);
      rows := rows + [LegacyRow(nextId, rec)];
      nextId := nextId + 1;
    }
  }

  // ---------------------------------------------------------------------
  // handle_all_messages
  // ---------------------------------------------------------------------

  /** What one accepted record is: its service and its number. */
  type Accepted = (string, string)

  function ServicesOfAccepted(ps: seq<Accepted>): (r: seq<string>)
    ensures |r| == |ps|
  {
    if ps == [] then [] else ServicesOfAccepted(ps[..|ps| - 1]) + [ps[|ps| - 1].0]
  }

  /** Every match of one pattern, as a record of that service, repeats included. */
  function Tag(service: string, nums: seq<string>): (r: seq<Accepted>)
    ensures |r| == |nums|
  {
    if nums == [] then [] else Tag(service, nums[..|nums| - 1]) + [(service, nums[|nums| - 1])]
  }

  /** The placeholders `<SERVICE>_BATCH_<tick>_<i>` for i = 1..q. */
  function Placeholders(service: string, tick: string, q: nat): (r: seq<Accepted>)
    ensures |r| == q
  {
    if q == 0 then [] else Placeholders(service, tick, q - 1) + [(service, Placeholder(service, tick, q))]
  }

  /**
   * The service and quantity of a phrase that adds records: the alias
   * resolved through the service map and `int(quantity_str)` positive.
   * Within the alphabet of `Text` the pattern only matches the map's three
   * aliases; a phrase whose alias does not resolve adds nothing.
   */
  function PhraseQuantity(m: BatchMatch): Option<(string, nat)>
  {
    var k := LowerStr(m.alias);
    match ParseInt(m.digits)
    case None => None
    case Some(q) => if k in ServiceMap && q > 0 then Some((ServiceMap[k], q as nat)) else None
  }

  /** One phrase's records: its placeholders when it adds any. */
  function PhrasePairs(m: BatchMatch, tick: string): seq<Accepted>
  {
    match PhraseQuantity(m)
    case None => []
    case Some((service, q)) => Placeholders(service, tick, q)
  }

  function BatchPairs(ms: seq<BatchMatch>, tick: string): seq<Accepted>
  {
    if ms == [] then []
    else BatchPairs(ms[..|ms| - 1], tick) + PhrasePairs(ms[|ms| - 1], tick)
  }

  /** The individual matches in the order Яндекс, Whoosh, Jet, on the text as received. */
  function IndividualPairs(text: string): seq<Accepted>
  {
    Tag(Yandex, FindAll(YandexId, text)) + Tag(Whoosh, FindAll(LegacyWhooshId, text)) + Tag(Jet, FindAll(LegacyJetId, text))
  }

  /** Everything the handler inserts, in order; nothing for an empty or blank message. */
  function AcceptedPairs(text: string, tick: string): seq<Accepted>
  {
    if Strip(text) == [] then []
    else IndividualPairs(text) + BatchPairs(FindBatches(LegacyBatch, text), tick)
  }

  function RecordsFor(ps: seq<Accepted>, who: User, now: int): (r: seq<LegacyRecord>)
    ensures |r| == |ps|
  {
    if ps == [] then [] else RecordsFor(ps[..|ps| - 1], who, now) + [RecordOf(ps[|ps| - 1].1, ps[|ps| - 1].0, who, now)]
  }

  /** `accepted_by_service` after the given records: each service's count. */
  function Tally3(ps: seq<Accepted>): map<string, nat>
  {
    var s := ServicesOfAccepted(ps);
    map[Yandex := Occurrences(s, Yandex), Whoosh := Occurrences(s, Whoosh), Jet := Occurrences(s, Jet)]
  }

  /** `@username` when there is one, otherwise the HTML mention with the full name. */
  function LegacyMention(who: User): string
  {
    if Truthy(who.username) then "@" + who.username.value
    else "<a href='tg://user?id=" + IntToString(who.userId) + "'>" + who.fullName + "</a>"
  }

  const FixedOrder: seq<string> := [Yandex, Whoosh, Jet]

  /** `for service_name in ["Яндекс", "Whoosh", "Jet"]`: a line for each positive count. */
  function CountLines(names: seq<string>, counts: map<string, nat>): seq<string>
  {
    if names == [] then []
    else
      var s := names[|names| - 1];
      CountLines(names[..|names| - 1], counts) + (if Counting.Get(counts, s) > 0 then [s + ": " + NatToString(Counting.Get(counts, s))] else [])
  }

  function LegacyReplyText(who: User, counts: map<string, nat>, total: nat): string
  {
    JoinWith([LegacyMention(who) + ", принято от тебя " + NatToString(total) + " шт.:"] + CountLines(FixedOrder, counts), "\n")
  }

  /** The reply, sent only when something was accepted. */
  function LegacyReply(who: User, ps: seq<Accepted>): Option<string>
  {
    if |ps| > 0 then Some(LegacyReplyText(who, Tally3(ps), |ps|)) else None
  }

  // ---------------------------------------------------------------------
  // What the handler does
  // ---------------------------------------------------------------------

  lemma {:induction false} TagMeaning(service: string, nums: seq<string>)
    ensures forall i :: 0 <= i < |nums| ==> Tag(service, nums)[i] == (service, nums[i])
  {
    if nums != [] {
      TagMeaning(service, nums[..|nums| - 1]);
    }
  }

  lemma TagAt(service: string, nums: seq<string>, i: nat)
    requires i < |nums|
    ensures Tag(service, nums)[i] == (service, nums[i])
  {
    TagMeaning(service, nums);
  }

  lemma {:induction false} PlaceholdersMeaning(service: string, tick: string, q: nat)
    ensures forall i :: 0 <= i < q ==> Placeholders(service, tick, q)[i] == (service, Placeholder(service, tick, i + 1))
  {
    if q > 0 {
      PlaceholdersMeaning(service, tick, q - 1);
    }
  }

  /**
   * Every individual match becomes a record, a number written twice
   * becomes two records, and the matches come first, Яндекс, then
   * Whoosh, then Jet, taken from the text with the batch phrases still in
   * it.
   */
  lemma IndividualNoDedup(text: string, tick: string)
    requires Strip(text) != []
    ensures var ys, ws, js := FindAll(YandexId, text), FindAll(LegacyWhooshId, text), FindAll(LegacyJetId, text);
      var ps := AcceptedPairs(text, tick);
      && |ps| >= |ys| + |ws| + |js|
      && (forall i :: 0 <= i < |ys| ==> ps[i] == (Yandex, ys[i]))
      && (forall i :: 0 <= i < |ws| ==> ps[|ys| + i] == (Whoosh, ws[i]))
      && (forall i :: 0 <= i < |js| ==> ps[|ys| + |ws| + i] == (Jet, js[i]))
  {
    TagsIndex(FindAll(YandexId, text), FindAll(LegacyWhooshId, text), FindAll(LegacyJetId, text),
              BatchPairs(FindBatches(LegacyBatch, text), tick));
  }

  lemma TagsIndex(ys: seq<string>, ws: seq<string>, js: seq<string>, d: seq<Accepted>)
    ensures var ps := Tag(Yandex, ys) + Tag(Whoosh, ws) + Tag(Jet, js) + d;
      && |ps| >= |ys| + |ws| + |js|
      && (forall i :: 0 <= i < |ys| ==> ps[i] == (Yandex, ys[i]))
      && (forall i :: 0 <= i < |ws| ==> ps[|ys| + i] == (Whoosh, ws[i]))
      && (forall i :: 0 <= i < |js| ==> ps[|ys| + |ws| + i] == (Jet, js[i]))
  {
    var a, b, c := Tag(Yandex, ys), Tag(Whoosh, ws), Tag(Jet, js);
    var ps := a + b + c + d;
    TagMeaning(Yandex, ys);
    TagMeaning(Whoosh, ws);
    TagMeaning(Jet, js);
    forall i | 0 <= i < |ys| ensures ps[i] == (Yandex, ys[i]) {
      assert ps[i] == a[i];
    }
    forall i | 0 <= i < |ws| ensures ps[|ys| + i] == (Whoosh, ws[i]) {
      assert ps[|ys| + i] == b[i];
    }
    forall i | 0 <= i < |js| ensures ps[|ys| + |ws| + i] == (Jet, js[i]) {
      assert ps[|ys| + |ws| + i] == c[i];
    }
  }

  /**
   * A batch phrase with a positive quantity q adds exactly q records of
   * its service, numbered 1..q under the one clock token, however large q
   * is; a zero quantity adds none.
   */
  lemma PhraseMeaning(m: BatchMatch, tick: string)
    requires LowerStr(m.alias) in ServiceMap && |m.digits| > 0 && AllDigits(m.digits)
    ensures var q := DecimalValue(m.digits);
      var service := ServiceMap[LowerStr(m.alias)];
      var ps := PhrasePairs(m, tick);
      && PhraseQuantity(m) == (if q > 0 then Some((service, q)) else None)
      && |ps| == q
      && forall i :: 0 <= i < q ==> ps[i] == (service, Placeholder(service, tick, i + 1))
  {
    DigitsAreLiteral(m.digits);
    PlaceholdersMeaning(ServiceMap[LowerStr(m.alias)], tick, DecimalValue(m.digits));
  }

  /** The total quantity of the phrases that add records. */
  function PhraseTotal(ms: seq<BatchMatch>): nat
  {
    if ms == [] then 0
    else
      PhraseTotal(ms[..|ms| - 1])
      + match PhraseQuantity(ms[|ms| - 1])
        case Some((_, q)) => q
        case None => 0
  }

  lemma {:induction false} BatchPairsCount(ms: seq<BatchMatch>, tick: string)
    ensures |BatchPairs(ms, tick)| == PhraseTotal(ms)
  {
    if ms != [] {
      BatchPairsCount(ms[..|ms| - 1], tick);
    }
  }

  /**
   * How many records a message adds: none for a blank message; otherwise
   * one per identifier match of each of the three patterns, plus the sum
   * of the positive quantities of the batch phrases, with no upper cap.
   */
  lemma AcceptedCount(text: string, tick: string)
    ensures |AcceptedPairs(text, tick)| ==
      if Strip(text) == [] then 0
      else |FindAll(YandexId, text)| + |FindAll(LegacyWhooshId, text)| + |FindAll(LegacyJetId, text)|
           + PhraseTotal(FindBatches(LegacyBatch, text))
  {
    BatchPairsCount(FindBatches(LegacyBatch, text), tick);
  }

  lemma DigitsAreLiteral(s: string)
    requires |s| > 0 && AllDigits(s)
    ensures ParseInt(s) == Some(DecimalValue(s) as int)
  {
    assert IsDigit(s[0]) && IsDigit(s[|s| - 1]);
    NoSpaceToStrip(s);
    assert !(s[0] == '+' || s[0] == '-');
    assert IsDecimalLiteral(s);
    assert '_' !in s by {
      forall k | 0 <= k < |s| ensures s[k] != '_' {
        assert IsDigit(s[k]);
      }
    }
    RemoveCharAbsent(s, '_');
  }

  lemma {:induction false} ServicesOfAcceptedAppend(a: seq<Accepted>, b: seq<Accepted>)
    ensures ServicesOfAccepted(a + b) == ServicesOfAccepted(a) + ServicesOfAccepted(b)
  {
    if b == [] {
      assert a + b == a;
    } else {
      ServicesOfAcceptedAppend(a, b[..|b| - 1]);
      assert (a + b)[..|a + b| - 1] == a + b[..|b| - 1];
    }
  }

  predicate KnownServices(ps: seq<Accepted>)
  {
    forall i :: 0 <= i < |ps| ==> ps[i].0 in FixedOrder
  }

  lemma {:induction false} ThreeColumns(xs: seq<string>)
    requires forall i :: 0 <= i < |xs| ==> xs[i] in FixedOrder
    ensures Occurrences(xs, Yandex) + Occurrences(xs, Whoosh) + Occurrences(xs, Jet) == |xs|
  {
    if xs != [] {
      ThreeColumns(xs[..|xs| - 1]);
    }
  }

  lemma {:induction false} ServicesOfAcceptedIndex(ps: seq<Accepted>)
    ensures forall i :: 0 <= i < |ps| ==> ServicesOfAccepted(ps)[i] == ps[i].0
  {
    if ps != [] {
      ServicesOfAcceptedIndex(ps[..|ps| - 1]);
    }
  }

  lemma {:induction false} CountLinesMeaning(names: seq<string>, counts: map<string, nat>)
    ensures forall l :: l in CountLines(names, counts) <==>
      exists s :: s in names && Counting.Get(counts, s) > 0 && l == s + ": " + NatToString(Counting.Get(counts, s))
  {
    if names != [] {
      CountLinesMeaning(names[..|names| - 1], counts);
      var s := names[|names| - 1];
      assert forall t :: t in names <==> t in names[..|names| - 1] || t == s;
    }
  }

  /**
   * The reply is sent exactly when something was inserted; its total is
   * the number of records inserted and the sum of the three services'
   * counts, and it lists exactly the services with a positive count.
   */
  lemma LegacyReplyMeaning(who: User, ps: seq<Accepted>)
    requires KnownServices(ps)
    ensures LegacyReply(who, ps).Some? <==> |ps| > 0
    ensures var c := Tally3(ps);
      c[Yandex] + c[Whoosh] + c[Jet] == |ps|
    ensures forall l :: l in CountLines(FixedOrder, Tally3(ps)) <==>
      exists s :: s in FixedOrder && Counting.Get(Tally3(ps), s) > 0 && l == s + ": " + NatToString(Counting.Get(Tally3(ps), s))
  {
    ServicesOfAcceptedIndex(ps);
    ThreeColumns(ServicesOfAccepted(ps));
    CountLinesMeaning(FixedOrder, Tally3(ps));
  }

  lemma {:induction false} TagKnown(service: string, nums: seq<string>)
    requires service in FixedOrder
    ensures KnownServices(Tag(service, nums))
  {
    TagMeaning(service, nums);
  }

  lemma {:induction false} BatchPairsKnown(ms: seq<BatchMatch>, tick: string)
    ensures KnownServices(BatchPairs(ms, tick))
  {
    if ms != [] {
      BatchPairsKnown(ms[..|ms| - 1], tick);
      var m := ms[|ms| - 1];
      if PhraseQuantity(m).Some? {
        var (service, q) := PhraseQuantity(m).value;
        assert service in FixedOrder;
        PlaceholdersMeaning(service, tick, q);
      }
    }
  }

  /** Only the three services are ever recorded. */
  lemma AcceptedKnown(text: string, tick: string)
    ensures KnownServices(AcceptedPairs(text, tick))
  {
    if Strip(text) != [] {
      var yandex := Tag(Yandex, FindAll(YandexId, text));
      var whoosh := Tag(Whoosh, FindAll(LegacyWhooshId, text));
      var jet := Tag(Jet, FindAll(LegacyJetId, text));
      var batches := BatchPairs(FindBatches(LegacyBatch, text), tick);
      TagKnown(Yandex, FindAll(YandexId, text));
      TagKnown(Whoosh, FindAll(LegacyWhooshId, text));
      TagKnown(Jet, FindAll(LegacyJetId, text));
      BatchPairsKnown(FindBatches(LegacyBatch, text), tick);
      KnownAppend(yandex, whoosh);
      KnownAppend(yandex + whoosh, jet);
      KnownAppend(yandex + whoosh + jet, batches);
    }
  }

  lemma KnownAppend(a: seq<Accepted>, b: seq<Accepted>)
    requires KnownServices(a) && KnownServices(b)
    ensures KnownServices(a + b)
  {
    forall i | 0 <= i < |a + b| ensures (a + b)[i].0 in FixedOrder {
      if i >= |a| {
        assert (a + b)[i] == b[i - |a|];
      }
    }
  }

  // ---------------------------------------------------------------------
  // The handler's loops
  // ---------------------------------------------------------------------

  /** `accepted_by_service` and `total_accepted` agree with the records inserted so far. */
  predicate Tracked(counts: map<string, nat>, total: nat, ps: seq<Accepted>)
  {
    counts == Tally3(ps) && total == |ps|
  }

  lemma TrackedStep(counts: map<string, nat>, total: nat, ps: seq<Accepted>, p: Accepted)
    requires Tracked(counts, total, ps) && p.0 in FixedOrder
    ensures p.0 in counts
    ensures Tracked(counts[p.0 := counts[p.0] + 1], total + 1, ps + [p])
  {
    assert (ps + [p])[..|ps|] == ps;
  }

  lemma Assoc(x: seq<LegacyRecord>, y: seq<LegacyRecord>, z: seq<LegacyRecord>)
    ensures (x + y) + z == x + (y + z)
  {
  }

  /** Inserting the next item of ps, after done and the first i of ps. */
  lemma PrefixStep(done: seq<Accepted>, ps: seq<Accepted>, i: nat, who: User, now: int)
    requires i < |ps|
    ensures done + ps[..i + 1] == (done + ps[..i]) + [ps[i]]
    ensures RecordsFor(ps[..i + 1], who, now) == RecordsFor(ps[..i], who, now) + [RecordOf(ps[i].1, ps[i].0, who, now)]
  {
    assert ps[..i + 1] == ps[..i] + [ps[i]];
    assert (ps[..i] + [ps[i]])[..i] == ps[..i];
  }

  /** One `INSERT INTO scooters` and the matching `accepted_by_service[service] += 1; total_accepted += 1`. */
  method InsertOne(table: LegacyTable, service: string, number: string, who: User, now: int,
                   ghost done: seq<Accepted>, counts0: map<string, nat>, total0: nat)
    returns (counts: map<string, nat>, total: nat)
    requires table.Valid() && service in FixedOrder && Tracked(counts0, total0, done)
    modifies table
    ensures table.Valid()
    ensures table.Records() == old(table.Records()) + [RecordOf(number, service, who, now)]
    ensures Tracked(counts, total, done + [(service, number)])
  {
    TrackedStep(counts0, total0, done, (service, number));
    table.Insert(RecordOf(number, service, who, now));
    counts := counts0[service := counts0[service] + 1];
    total := total0 + 1;
  }

  /** `for num in numbers: insert_scooter_record(...); accepted_by_service[...] += 1; total_accepted += 1` */
  method InsertNumbers(table: LegacyTable, service: string, nums: seq<string>, who: User, now: int,
                       ghost done: seq<Accepted>, counts0: map<string, nat>, total0: nat)
    returns (counts: map<string, nat>, total: nat)
    requires table.Valid() && service in FixedOrder && Tracked(counts0, total0, done)
    modifies table
    ensures table.Valid()
    ensures table.Records() == old(table.Records()) + RecordsFor(Tag(service, nums), who, now)
    ensures Tracked(counts, total, done + Tag(service, nums))
  {
    counts, total := counts0, total0;
    ghost var start := table.Records();
    ghost var ps := Tag(service, nums);
    assert done + ps[..0] == done;
    for i := 0 to |nums|
      invariant table.Valid()
      invariant table.Records() == start + RecordsFor(ps[..i], who, now)
      invariant Tracked(counts, total, done + ps[..i])
    {
      TagAt(service, nums, i);
      PrefixStep(done, ps, i, who, now);
      Assoc(start, RecordsFor(ps[..i], who, now), [RecordOf(nums[i], service, who, now)]);
      counts, total := InsertOne(table, service, nums[i], who, now, done + ps[..i], counts, total);
    }
    assert ps[..|nums|] == ps;
  }

  /** `for i in range(quantity)`: the placeholders of one phrase, each inserted and counted. */
  method InsertPlaceholders(table: LegacyTable, service: string, tick: string, q: nat, who: User, now: int,
                            ghost done: seq<Accepted>, counts0: map<string, nat>, total0: nat)
    returns (counts: map<string, nat>, total: nat)
    requires table.Valid() && service in FixedOrder && Tracked(counts0, total0, done)
    modifies table
    ensures table.Valid()
    ensures table.Records() == old(table.Records()) + RecordsFor(Placeholders(service, tick, q), who, now)
    ensures Tracked(counts, total, done + Placeholders(service, tick, q))
  {
    counts, total := counts0, total0;
    ghost var start := table.Records();
    ghost var ps := Placeholders(service, tick, q);
    PlaceholdersMeaning(service, tick, q);
    assert done + ps[..0] == done;
    for i := 0 to q
      invariant table.Valid()
      invariant table.Records() == start + RecordsFor(ps[..i], who, now)
      invariant Tracked(counts, total, done + ps[..i])
    {
      var number := Placeholder(service, tick, i + 1);
      PrefixStep(done, ps, i, who, now);
      Assoc(start, RecordsFor(ps[..i], who, now), [RecordOf(number, service, who, now)]);
      counts, total := InsertOne(table, service, number, who, now, done + ps[..i], counts, total);
    }
    assert ps[..q] == ps;
  }

  lemma {:induction false} RecordsForAppend(a: seq<Accepted>, b: seq<Accepted>, who: User, now: int)
    ensures RecordsFor(a + b, who, now) == RecordsFor(a, who, now) + RecordsFor(b, who, now)
  {
    if b == [] {
      assert a + b == a;
    } else {
      RecordsForAppend(a, b[..|b| - 1], who, now);
      assert (a + b)[..|a + b| - 1] == a + b[..|b| - 1];
    }
  }

  lemma BatchStepAccepted(done: seq<Accepted>, ms: seq<BatchMatch>, k: nat, tick: string, who: User, now: int,
                          service: string, q: nat)
    requires k < |ms| && PhraseQuantity(ms[k]) == Some((service, q))
    ensures done + BatchPairs(ms[..k + 1], tick) == (done + BatchPairs(ms[..k], tick)) + Placeholders(service, tick, q)
    ensures RecordsFor(BatchPairs(ms[..k + 1], tick), who, now)
      == RecordsFor(BatchPairs(ms[..k], tick), who, now) + RecordsFor(Placeholders(service, tick, q), who, now)
  {
    assert ms[..k + 1][..k] == ms[..k];
    RecordsForAppend(BatchPairs(ms[..k], tick), Placeholders(service, tick, q), who, now);
  }

  lemma BatchStepSkipped(ms: seq<BatchMatch>, k: nat, tick: string)
    requires k < |ms| && PhraseQuantity(ms[k]).None?
    ensures BatchPairs(ms[..k + 1], tick) == BatchPairs(ms[..k], tick)
  {
    assert ms[..k + 1][..k] == ms[..k];
  }

  /** `for match in batch_text_matches`: each phrase in turn. */
  method InsertBatches(table: LegacyTable, ms: seq<BatchMatch>, tick: string, who: User, now: int,
                       ghost done: seq<Accepted>, counts0: map<string, nat>, total0: nat)
    returns (counts: map<string, nat>, total: nat)
    requires table.Valid() && Tracked(counts0, total0, done)
    modifies table
    ensures table.Valid()
    ensures table.Records() == old(table.Records()) + RecordsFor(BatchPairs(ms, tick), who, now)
    ensures Tracked(counts, total, done + BatchPairs(ms, tick))
  {
    counts, total := counts0, total0;
    ghost var start := table.Records();
    assert done + BatchPairs(ms[..0], tick) == done;
    for k := 0 to |ms|
      invariant table.Valid()
      invariant table.Records() == start + RecordsFor(BatchPairs(ms[..k], tick), who, now)
      invariant Tracked(counts, total, done + BatchPairs(ms[..k], tick))
    {
      var key := LowerStr(ms[k].alias);
      var quantity := ParseInt(ms[k].digits);
      if key in ServiceMap && quantity.Some? && quantity.value > 0 {
        var service, q: nat := ServiceMap[key], quantity.value;
        BatchStepAccepted(done, ms, k, tick, who, now, service, q);
        Assoc(start, RecordsFor(BatchPairs(ms[..k], tick), who, now), RecordsFor(Placeholders(service, tick, q), who, now));
        counts, total := InsertPlaceholders(table, service, tick, q, who, now,
                                            done + BatchPairs(ms[..k], tick), counts, total);
      } else {
        BatchStepSkipped(ms, k, tick);
      }
    }
    assert ms[..|ms|] == ms;
  }

  /** The three passes of individual matches, Яндекс, Whoosh, Jet. */
  method InsertIndividual(table: LegacyTable, text: string, who: User, now: int)
    returns (counts: map<string, nat>, total: nat)
    requires table.Valid()
    modifies table
    ensures table.Valid()
    ensures table.Records() == old(table.Records()) + RecordsFor(IndividualPairs(text), who, now)
    ensures Tracked(counts, total, IndividualPairs(text))
  {
    counts := map[Yandex := 0, Whoosh := 0, Jet := 0];
    total := 0;
    var ys := FindAll(YandexId, text);
    var ws := FindAll(LegacyWhooshId, text);
    var js := FindAll(LegacyJetId, text);
    ghost var a, b, c := Tag(Yandex, ys), Tag(Whoosh, ws), Tag(Jet, js);
    ghost var s0 := table.Records();
    assert Tracked(counts, total, []);
    counts, total := InsertNumbers(table, Yandex, ys, who, now, [], counts, total);
    assert [] + a == a;
    ghost var s1 := table.Records();
    counts, total := InsertNumbers(table, Whoosh, ws, who, now, a, counts, total);
    ghost var s2 := table.Records();
    counts, total := InsertNumbers(table, Jet, js, who, now, a + b, counts, total);
    RecordsForAppend(a, b, who, now);
    RecordsForAppend(a + b, c, who, now);
    ghost var ra, rb, rc := RecordsFor(a, who, now), RecordsFor(b, who, now), RecordsFor(c, who, now);
    assert table.Records() == ((s0 + ra) + rb) + rc;
    Assoc(s0, ra, rb);
    Assoc(s0, ra + rb, rc);
  }

  /**
   * handle_all_messages: inserts one record per accepted item, in order,
   * and replies with the counts when there is at least one.
   */
  method HandleAllMessages(table: LegacyTable, text: string, who: User, tick: string, now: int)
    returns (reply: Option<string>)
    requires table.Valid()
    modifies table
    ensures table.Valid()
    ensures table.Records() == old(table.Records()) + RecordsFor(AcceptedPairs(text, tick), who, now)
    ensures reply == LegacyReply(who, AcceptedPairs(text, tick))
  {
    if Strip(text) == [] {
      return None;
    }
    ghost var s0 := table.Records();
    var counts, total := InsertIndividual(table, text, who, now);
    var ms := FindBatches(LegacyBatch, text);
    ghost var ip := IndividualPairs(text);
    counts, total := InsertBatches(table, ms, tick, who, now, ip, counts, total);
    InsertedInOrder(s0, ip, BatchPairs(ms, tick), who, now);
    reply := ReplyIfAny(who, counts, total, ip + BatchPairs(ms, tick));
  }

  /** The individual inserts, then the batch inserts, are the records of all the pairs in order. */
  lemma InsertedInOrder(s0: seq<LegacyRecord>, ip: seq<Accepted>, bp: seq<Accepted>, who: User, now: int)
    ensures (s0 + RecordsFor(ip, who, now)) + RecordsFor(bp, who, now) == s0 + RecordsFor(ip + bp, who, now)
  {
    RecordsForAppend(ip, bp, who, now);
    Assoc(s0, RecordsFor(ip, who, now), RecordsFor(bp, who, now));
  }

  /** `if total_accepted > 0`: the reply with the tracked counts, or none. */
  method ReplyIfAny(who: User, counts: map<string, nat>, total: nat, ghost ps: seq<Accepted>) returns (reply: Option<string>)
    requires Tracked(counts, total, ps)
    ensures reply == LegacyReply(who, ps)
  {
    if total > 0 {
      reply := Some(LegacyReplyText(who, counts, total));
    } else {
      reply := None;
    }
  }


  // ---------------------------------------------------------------------
  // /batch_accept <service> <quantity>
  // ---------------------------------------------------------------------

  const BatchUsage: string := "Используйте команду в формате: /batch_accept <сервис> <количество>\nНапример: /batch_accept Yandex 20"
  const UnknownService: string := "Неизвестный сервис. Доступные сервисы: Yandex, Whoosh, Jet."
  const BadQuantity: string := "Количество должно быть положительным числом."

  datatype BatchRequest = ShowBatchUsage | RejectService | RejectQuantity | AcceptBatch(service: string, quantity: nat)

  /** Exactly two words; a known service, any case; a quantity `int()` reads as positive. */
  function ParseBatchAccept(args: string): BatchRequest
  {
    var words := Words(args);
    if |words| != 2 then ShowBatchUsage
    else if LowerStr(words[0]) !in ServiceMap then RejectService
    else
      match ParseInt(words[1])
      case None => RejectQuantity
      case Some(q) => if q <= 0 then RejectQuantity else AcceptBatch(ServiceMap[LowerStr(words[0])], q)
  }

  function BatchAcceptedReply(who: User, count: nat, service: string): string
  {
    LegacyMention(who) + ", принято " + NatToString(count) + " самокатов сервиса " + service + " в качестве пакетной сдачи."
  }

  /**
   * The request's cases: usage unless exactly two words, a rejected
   * service unless it is yandex, whoosh or jet in any case, a rejected
   * quantity unless it reads as a positive integer; an accepted one is
   * one of the three services.
   */
  lemma ParseBatchAcceptCases(args: string)
    ensures ParseBatchAccept(args).ShowBatchUsage? <==> |Words(args)| != 2
    ensures ParseBatchAccept(args).RejectService? <==> |Words(args)| == 2 && LowerStr(Words(args)[0]) !in ServiceMap
    ensures ParseBatchAccept(args).RejectQuantity? <==>
      |Words(args)| == 2 && LowerStr(Words(args)[0]) in ServiceMap
      && (ParseInt(Words(args)[1]).None? || ParseInt(Words(args)[1]).value <= 0)
    ensures ParseBatchAccept(args).AcceptBatch? ==>
      && ParseBatchAccept(args).service in FixedOrder
      && ParseBatchAccept(args).quantity > 0
      && Some(ParseBatchAccept(args).quantity as int) == ParseInt(Words(args)[1])
  {
    var words := Words(args);
    if |words| == 2 {
      var key := LowerStr(words[0]);
      if key in ServiceMap {
        ServiceMapInFixedOrder(key);
      }
    }
  }

  /** Every SERVICE_MAP value is one of the three services of the fixed order. */
  lemma ServiceMapInFixedOrder(key: string)
    requires key in ServiceMap
    ensures ServiceMap[key] in FixedOrder
  {
    ServiceMapAgrees();
  }

  /** The insert loop of /batch_accept: `quantity` placeholders, counted in `accepted_count`. */
  method InsertBatch(table: LegacyTable, service: string, tick: string, quantity: nat, who: User, now: int)
    returns (accepted: nat)
    requires table.Valid()
    modifies table
    ensures table.Valid() && accepted == quantity
    ensures table.Records() == old(table.Records()) + RecordsFor(Placeholders(service, tick, quantity), who, now)
  {
    accepted := 0;
    ghost var start := table.Records();
    ghost var ps := Placeholders(service, tick, quantity);
    PlaceholdersMeaning(service, tick, quantity);
    for i := 0 to quantity
      invariant table.Valid() && accepted == i
      invariant table.Records() == start + RecordsFor(ps[..i], who, now)
    {
      var number := Placeholder(service, tick, i + 1);
      PrefixStep([], ps, i, who, now);
      Assoc(start, RecordsFor(ps[..i], who, now), [RecordOf(number, service, who, now)]);
      table.Insert(RecordOf(number, service, who, now));
      accepted := accepted + 1;
    }
    assert ps[..quantity] == ps;
  }

  /**
   * batch_accept_handler: a rejected request inserts nothing and answers
   * its error; an accepted one inserts exactly `quantity` placeholders,
   * numbered 1..quantity under one clock token, and reports the count.
   */
  method BatchAccept(table: LegacyTable, args: string, who: User, tick: string, now: int) returns (reply: string)
    requires table.Valid()
    modifies table
    ensures table.Valid()
    ensures var req := ParseBatchAccept(args);
      && (!req.AcceptBatch? ==> table.rows == old(table.rows) && table.nextId == old(table.nextId))
      && (req.ShowBatchUsage? ==> reply == BatchUsage)
      && (req.RejectService? ==> reply == UnknownService)
      && (req.RejectQuantity? ==> reply == BadQuantity)
      && (req.AcceptBatch? ==>
            && table.Records() == old(table.Records()) + RecordsFor(Placeholders(req.service, tick, req.quantity), who, now)
            && reply == BatchAcceptedReply(who, req.quantity, req.service))
  {
    var req := ParseBatchAccept(args);
    match req
    case ShowBatchUsage => reply := BatchUsage;
    case RejectService => reply := UnknownService;
    case RejectQuantity => reply := BadQuantity;
    case AcceptBatch(service, quantity) =>
      var accepted := InsertBatch(table, service, tick, quantity, who, now);
      reply := BatchAcceptedReply(who, accepted, service);
  }

  // ---------------------------------------------------------------------
  // /today_stats (admins)
  // ---------------------------------------------------------------------

  const NothingToday: string := "Сегодня пока ничего не принято."
  const Separator: string := "Деп\n"

  /** `WHERE DATE(timestamp) = DATE('now')`: the rows stamped on the day of `now`. */
  function Today(rows: seq<LegacyRow>, now: int): seq<LegacyRecord>
  {
    if rows == [] then []
    else
      var r := rows[|rows| - 1].rec;
      Today(rows[..|rows| - 1], now) + (if DayOf(r.timestamp) == DayOf(now) then [r] else [])
  }

  /** The columns the statistics read, in the shape of the current table's records (no chat). */
  function View(l: LegacyRecord): Record
  {
    Record(l.number, l.service, l.userId, l.username, l.fullName, l.timestamp, 0)
  }

  function Views(ls: seq<LegacyRecord>): (r: seq<Record>)
    ensures |r| == |ls|
  {
    if ls == [] then [] else Views(ls[..|ls| - 1]) + [View(ls[|ls| - 1])]
  }

  /** `Принято {service}: {count}` for each of a user's services, in the order first accepted. */
  function ServiceCountLines(keys: seq<string>, counts: map<string, nat>): seq<string>
  {
    if keys == [] then []
    else
      var k := keys[|keys| - 1];
      ServiceCountLines(keys[..|keys| - 1], counts) + ["Принято " + k + ": " + NatToString(Counting.Get(counts, k))]
  }

  function LegacyBlock(c: Counter<string>, name: string): (r: seq<string>)
    ensures |r| > 0 && r[|r| - 1] == Separator
  {
    [name + " Статистика за сегодня:"] + ServiceCountLines(c.keys, c.counts)
      + ["Всего от " + name + ": " + NatToString(Total(c)) + " шт.", Separator]
  }

  function LegacyBlocks(users: seq<int>, perUser: map<int, Counter<string>>, names: map<int, string>): (r: seq<string>)
    requires forall u :: u in users ==> u in perUser && u in names
    ensures users != [] ==> |r| > 0 && r[|r| - 1] == Separator
  {
    if users == [] then []
    else
      var u := users[|users| - 1];
      LegacyBlocks(users[..|users| - 1], perUser, names) + LegacyBlock(perUser[u], names[u])
  }

  /** `if response_parts[-1] == "Деп\n": response_parts[-1] = "Деп"` */
  function PatchLast(parts: seq<string>): seq<string>
  {
    if parts != [] && parts[|parts| - 1] == Separator then parts[..|parts| - 1] + ["Деп"] else parts
  }

  function LegacyStatsText(rows: seq<LegacyRow>, now: int): string
  {
    var today := Today(rows, now);
    if today == [] then NothingToday
    else
      var rs := Views(today);
      var users := FirstSeen(UserIdsOf(rs));
      ScanKeys(rs);
      JoinWith(PatchLast(LegacyBlocks(users, PerUser(rs), FirstNames(rs))), "\n")
        + "\n---\nОбщий итог за сегодня: " + NatToString(SumAlong(users, UserTotals(PerUser(rs)))) + " шт."
  }

  /** The patch touches only the last part, and only when it is the separator. */
  lemma PatchLastMeaning(parts: seq<string>)
    ensures |PatchLast(parts)| == |parts|
    ensures forall i :: 0 <= i < |parts| - 1 ==> PatchLast(parts)[i] == parts[i]
    ensures parts != [] ==>
      PatchLast(parts)[|parts| - 1] == (if parts[|parts| - 1] == Separator then "Деп" else parts[|parts| - 1])
  {
  }

  /**
   * A day with records: the final separator is always the one patched,
   * and the overall figure is the number of the day's records, each
   * counted once, for its user.
   */
  lemma LegacyStatsMeaning(rows: seq<LegacyRow>, now: int)
    ensures var today := Today(rows, now);
      today != [] ==>
        var rs := Views(today);
        var users := FirstSeen(UserIdsOf(rs));
        && users != []
        && SumAlong(users, UserTotals(PerUser(rs))) == |today|
        && (forall u :: u in users ==> u in PerUser(rs) && Total(PerUser(rs)[u]) == Occurrences(UserIdsOf(rs), u))
  {
    var today := Today(rows, now);
    if today != [] {
      var rs := Views(today);
      FirstSeenMeaning(UserIdsOf(rs));
      assert rs[0].userId in UserIdsOf(rs) by {
        UserIdsAt(rs, 0);
      }
      UserTotalsSum(rs);
      UserTotalsAreCounts(rs);
      CountMapMeaning(UserIdsOf(rs));
      PerUserMeaning(rs);
      forall u | u in FirstSeen(UserIdsOf(rs))
        ensures u in PerUser(rs) && Total(PerUser(rs)[u]) == Occurrences(UserIdsOf(rs), u)
      {
        assert UserTotals(PerUser(rs))[u] == CountMap(UserIdsOf(rs))[u];
      }
    }
  }

  lemma LegacyBlocksStep(users: seq<int>, k: nat, perUser: map<int, Counter<string>>, names: map<int, string>)
    requires k < |users|
    requires forall u :: u in users ==> u in perUser && u in names
    ensures forall u :: u in users[..k] ==> u in perUser && u in names
    ensures LegacyBlocks(users[..k + 1], perUser, names)
      == LegacyBlocks(users[..k], perUser, names) + LegacyBlock(perUser[users[k]], names[users[k]])
    ensures SumAlong(users[..k + 1], UserTotals(perUser)) == SumAlong(users[..k], UserTotals(perUser)) + Total(perUser[users[k]])
  {
    assert users[..k + 1][..k] == users[..k];
    assert users[k] in users;
  }

  /** `for service, count in services_stats.items()` */
  method WriteServiceCounts(parts0: seq<string>, c: Counter<string>) returns (parts: seq<string>, userTotal: nat)
    ensures parts == parts0 + ServiceCountLines(c.keys, c.counts)
    ensures userTotal == Total(c)
  {
    parts, userTotal := parts0, 0;
    for i := 0 to |c.keys|
      invariant parts == parts0 + ServiceCountLines(c.keys[..i], c.counts)
      invariant userTotal == SumAlong(c.keys[..i], c.counts)
    {
      assert c.keys[..i + 1][..i] == c.keys[..i];
      var k := c.keys[i];
      parts := parts + ["Принято " + k + ": " + NatToString(Counting.Get(c.counts, k))];
      userTotal := userTotal + Counting.Get(c.counts, k);
    }
    assert c.keys[..|c.keys|] == c.keys;
  }

  /** `for user_id, user_data in users_stats.items()`: the blocks and `total_all_users`. */
  method WriteBlocks(users: seq<int>, perUser: map<int, Counter<string>>, names: map<int, string>)
    returns (parts: seq<string>, totalAll: nat)
    requires forall u :: u in users ==> u in perUser && u in names
    ensures parts == LegacyBlocks(users, perUser, names)
    ensures totalAll == SumAlong(users, UserTotals(perUser))
  {
    parts, totalAll := [], 0;
    for k := 0 to |users|
      invariant parts == LegacyBlocks(users[..k], perUser, names)
      invariant totalAll == SumAlong(users[..k], UserTotals(perUser))
    {
      LegacyBlocksStep(users, k, perUser, names);
      var u := users[k];
      var name := names[u];
      var block := [name + " Статистика за сегодня:"];
      var userTotal;
      block, userTotal := WriteServiceCounts(block, perUser[u]);
      block := block + ["Всего от " + name + ": " + NatToString(userTotal) + " шт.", Separator];
      parts := parts + block;
      totalAll := totalAll + userTotal;
    }
    assert users[..|users|] == users;
  }

  /** admin_today_stats_handler */
  method AdminTodayStats(table: LegacyTable, now: int) returns (text: string)
    ensures text == LegacyStatsText(table.rows, now)
  {
    var today := Today(table.rows, now);
    if today == [] {
      return NothingToday;
    }
    var rs := Views(today);
    var users, perUser, names, totals := ScanRecords(rs);
    ScanKeys(rs);
    var parts, totalAll := WriteBlocks(users, perUser, names);
    if parts != [] && parts[|parts| - 1] == Separator {
      parts := parts[..|parts| - 1] + ["Деп"];
    }
    text := JoinWith(parts, "\n") + "\n---\nОбщий итог за сегодня: " + NatToString(totalAll) + " шт.";
  }
}
