/**
 * Text-to-record extraction of the current revision (process_scooter_text).
 *
 * A message is read in two passes. The batch pass expands each phrase
 * `<alias> <digits>` with a known alias and a quantity in 1..200 into that
 * many placeholder records; then every batch phrase is cut out of the text.
 * The individual pass runs the Яндекс, Whoosh, Jet and Bolt patterns in
 * that order over what is left, normalises each match and skips a number
 * that an earlier match of the same message already claimed.
 *
 * The clock reads become parameters: `ts` is the instant stamped on every
 * record, `tick(k)` the clock token embedded in the k-th placeholder of
 * the call. Bolt's matcher is the parameter `bolt`.
 */
module Extraction {
  import opened Wrappers
  import opened Text
  import opened Config
  import opened Patterns
  import opened Store

  /** The message fields copied into every record: the sender and the chat. */
  datatype Sender = Sender(userId: int, username: Option<string>, fullName: string, chatId: int)

  function MakeRecord(number: string, service: string, who: Sender, ts: int): Record
  {
    Record(number, service, who.userId, who.username, who.fullName, ts, who.chatId)
  }

  lemma AppendAssoc(a: seq<Record>, b: seq<Record>, c: seq<Record>)
    ensures (a + b) + c == a + (b + c)
  {
  }

  /** Every record carries the one timestamp and the sender's and chat's fields. */
  predicate Stamped(records: seq<Record>, who: Sender, ts: int)
  {
    forall r :: r in records ==>
      r.timestamp == ts && r.userId == who.userId && r.username == who.username
      && r.fullName == who.fullName && r.chatId == who.chatId
  }

  // ---------------------------------------------------------------------
  // Counting records per service (the accepted_summary defaultdict)
  // ---------------------------------------------------------------------

  function CountService(records: seq<Record>, service: string): nat
  {
    if records == [] then 0
    else CountService(records[..|records| - 1], service) + (if records[|records| - 1].service == service then 1 else 0)
  }

  lemma {:induction false} CountServiceAppend(a: seq<Record>, b: seq<Record>, service: string)
    ensures CountService(a + b, service) == CountService(a, service) + CountService(b, service)
  {
    if b != [] {
      CountServiceAppend(a, b[..|b| - 1], service);
      assert (a + b)[..|a + b| - 1] == a + b[..|b| - 1];
    } else {
      assert a + b == a;
    }
  }

  lemma {:induction false} CountServiceUniform(rs: seq<Record>, s: string, service: string)
    requires forall r :: r in rs ==> r.service == s
    ensures CountService(rs, service) == if service == s then |rs| else 0
  {
    if rs != [] {
      CountServiceUniform(rs[..|rs| - 1], s, service);
    }
  }

  /**
   * The counter agrees with the records: a service is a key exactly when
   * some record has it, and its value is the number of such records.
   */
  ghost predicate Tallies(summary: map<string, nat>, records: seq<Record>)
  {
    forall s :: (s in summary <==> CountService(records, s) > 0)
      && (s in summary ==> summary[s] == CountService(records, s))
  }

  function Get(summary: map<string, nat>, s: string): nat
  {
    if s in summary then summary[s] else 0
  }

  /** The counter the loops build: one increment of a record's service per record, in order. */
  function TallyMap(records: seq<Record>): map<string, nat>
  {
    if records == [] then map[]
    else
      var m := TallyMap(records[..|records| - 1]);
      var s := records[|records| - 1].service;
      m[s := Get(m, s) + 1]
  }

  lemma TallyMapSnoc(records: seq<Record>, rec: Record)
    ensures TallyMap(records + [rec]) == TallyMap(records)[rec.service := Get(TallyMap(records), rec.service) + 1]
  {
    assert (records + [rec])[..|records|] == records;
  }

  /** The counter the loops build holds, for each service, the number of its records. */
  lemma {:induction false} TallyMapCounts(records: seq<Record>)
    ensures Tallies(TallyMap(records), records)
  {
    if records != [] {
      TallyMapCounts(records[..|records| - 1]);
    }
  }

  /** `accepted_summary[service] += len(extra)` after appending records of one service. */
  lemma {:induction false} TallyMapAppend(records: seq<Record>, extra: seq<Record>, service: string)
    requires forall k :: 0 <= k < |extra| ==> extra[k].service == service
    ensures TallyMap(records + extra)
      == if extra == [] then TallyMap(records)
         else TallyMap(records)[service := Get(TallyMap(records), service) + |extra|]
  {
    if extra == [] {
      assert records + extra == records;
    } else {
      var init := extra[..|extra| - 1];
      assert forall k :: 0 <= k < |init| ==> init[k] == extra[k];
      TallyMapAppend(records, init, service);
      assert (records + extra)[..|records + extra| - 1] == records + init;
    }
  }

  // ---------------------------------------------------------------------
  // Batch pass
  // ---------------------------------------------------------------------

  /** `SERVICE_ALIASES.get(service_raw.lower())` */
  function ResolveAlias(alias: string): Option<string>
  {
    var k := LowerStr(alias);
    if k in ServiceAliases then Some(ServiceAliases[k]) else None
  }

  /** The service and quantity of a phrase the batch pass accepts; None for a phrase it skips. */
  function AcceptedBatch(m: BatchMatch): Option<(string, nat)>
  {
    var service := ResolveAlias(m.alias);
    var quantity := ParseInt(m.digits);
    if service.Some? && quantity.Some? && 0 < quantity.value <= 200 then Some((service.value, quantity.value as nat))
    else None
  }

  /** The placeholder number `<SERVICE>_BATCH_<token>_<i>`. */
  function Placeholder(service: string, token: string, i: nat): string
  {
    UpperStr(service) + "_BATCH_" + token + "_" + NatToString(i)
  }

  /** The first n placeholder records of one phrase; the j-th reads clock token tick(k0 + j). */
  function Expand(service: string, n: nat, who: Sender, ts: int, tick: nat -> string, k0: nat): seq<Record>
  {
    seq(n, j requires 0 <= j < n => MakeRecord(Placeholder(service, tick(k0 + j), j + 1), service, who, ts))
  }

  lemma ExpandProperties(service: string, n: nat, who: Sender, ts: int, tick: nat -> string, k0: nat)
    ensures |Expand(service, n, who, ts, tick, k0)| == n
    ensures forall r :: r in Expand(service, n, who, ts, tick, k0) ==> r.service == service
    ensures Stamped(Expand(service, n, who, ts, tick, k0), who, ts)
  {
    var e := Expand(service, n, who, ts, tick, k0);
    forall r | r in e
      ensures r.service == service && r.timestamp == ts && r.userId == who.userId
        && r.username == who.username && r.fullName == who.fullName && r.chatId == who.chatId
    {
      var j :| 0 <= j < n && e[j] == r;
      assert e[j] == MakeRecord(Placeholder(service, tick(k0 + j), j + 1), service, who, ts);
    }
  }

  /** The records of the batch pass over the phrases ms, in order. */
  function BatchRecords(ms: seq<BatchMatch>, who: Sender, ts: int, tick: nat -> string): seq<Record>
    decreases |ms|, 1
  {
    if ms == [] then [] else LastPhraseRecords(ms, who, ts, tick)
  }

  /** The records of the nonempty ms: those of all but the last phrase, then the last phrase's placeholders. */
  function LastPhraseRecords(ms: seq<BatchMatch>, who: Sender, ts: int, tick: nat -> string): seq<Record>
    requires ms != []
    decreases |ms|, 0
  {
    var prev := BatchRecords(ms[..|ms| - 1], who, ts, tick);
    match AcceptedBatch(ms[|ms| - 1])
    case Some((service, q)) => prev + Expand(service, q, who, ts, tick, |prev|)
    case None => prev
  }

  /** The total quantity of the accepted phrases of ms that name `service`. */
  function BatchQuantity(ms: seq<BatchMatch>, service: string): nat
  {
    if ms == [] then 0
    else
      BatchQuantity(ms[..|ms| - 1], service)
      + match AcceptedBatch(ms[|ms| - 1])
        case Some((s, q)) => if s == service then q else 0
        case None => 0
  }

  /** r is placeholder number i of an accepted phrase of ms that names r's service. */
  ghost predicate FromAcceptedPhrase(r: Record, ms: seq<BatchMatch>)
  {
    exists m, q: nat, t: string, i: nat ::
      m in ms && AcceptedBatch(m) == Some((r.service, q)) && 1 <= i <= q && r.number == Placeholder(r.service, t, i)
  }

  /**
   * A phrase adds records only when its alias resolves and its quantity is
   * in 1..200, and then exactly `quantity` records of its service; skipped
   * phrases add none and do not stop the ones after them.
   */
  lemma {:induction false} BatchRecordsCount(ms: seq<BatchMatch>, who: Sender, ts: int, tick: nat -> string, service: string)
    ensures CountService(BatchRecords(ms, who, ts, tick), service) == BatchQuantity(ms, service)
  {
    if ms != [] {
      var init := ms[..|ms| - 1];
      BatchRecordsCount(init, who, ts, tick, service);
      var prev := BatchRecords(init, who, ts, tick);
      match AcceptedBatch(ms[|ms| - 1])
      case Some((s, q)) =>
        var e := Expand(s, q, who, ts, tick, |prev|);
        CountServiceAppend(prev, e, service);
        ExpandProperties(s, q, who, ts, tick, |prev|);
        CountServiceUniform(e, s, service);
      case None =>
    }
  }

  /** Every record of the batch pass carries the message's sender, chat and timestamp. */
  lemma {:induction false} BatchRecordsStamped(ms: seq<BatchMatch>, who: Sender, ts: int, tick: nat -> string)
    ensures Stamped(BatchRecords(ms, who, ts, tick), who, ts)
  {
    if ms != [] {
      var init := ms[..|ms| - 1];
      BatchRecordsStamped(init, who, ts, tick);
      var prev := BatchRecords(init, who, ts, tick);
      match AcceptedBatch(ms[|ms| - 1])
      case Some((s, q)) =>
        ExpandProperties(s, q, who, ts, tick, |prev|);
      case None =>
    }
  }

  /** Every record of the batch pass is a placeholder of an accepted phrase. */
  lemma {:induction false} BatchRecordsProvenance(ms: seq<BatchMatch>, who: Sender, ts: int, tick: nat -> string)
    ensures forall r :: r in BatchRecords(ms, who, ts, tick) ==> FromAcceptedPhrase(r, ms)
  {
    if ms != [] {
      var init := ms[..|ms| - 1];
      var m := ms[|ms| - 1];
      BatchRecordsProvenance(init, who, ts, tick);
      var prev := BatchRecords(init, who, ts, tick);
      ProvenanceExtends(prev, init, ms);
      match AcceptedBatch(m)
      case Some((s, q)) =>
        ExpandProvenance(ms, m, s, q, who, ts, tick, |prev|);
      case None =>
    }
  }

  /** A placeholder of a phrase of init is one of a phrase of any ms that contains init. */
  lemma ProvenanceExtends(prev: seq<Record>, init: seq<BatchMatch>, ms: seq<BatchMatch>)
    requires forall m :: m in init ==> m in ms
    requires forall r :: r in prev ==> FromAcceptedPhrase(r, init)
    ensures forall r :: r in prev ==> FromAcceptedPhrase(r, ms)
  {
    forall r: Record | r in prev ensures FromAcceptedPhrase(r, ms) {
      var m', q', t, i :| m' in init && AcceptedBatch(m') == Some((r.service, q')) && 1 <= i <= q'
        && r.number == Placeholder(r.service, t, i);
      assert m' in ms;
    }
  }

  /** The placeholders an accepted phrase m of ms expands to come from m. */
  lemma ExpandProvenance(ms: seq<BatchMatch>, m: BatchMatch, s: string, q: nat, who: Sender, ts: int, tick: nat -> string, k0: nat)
    requires m in ms && AcceptedBatch(m) == Some((s, q))
    ensures forall r :: r in Expand(s, q, who, ts, tick, k0) ==> FromAcceptedPhrase(r, ms)
  {
    var e := Expand(s, q, who, ts, tick, k0);
    forall r: Record | r in e ensures FromAcceptedPhrase(r, ms) {
      var j :| 0 <= j < q && e[j] == r;
      assert e[j] == MakeRecord(Placeholder(s, tick(k0 + j), j + 1), s, who, ts);
      assert 1 <= j + 1 <= q && r.number == Placeholder(r.service, tick(k0 + j), j + 1);
    }
  }

  // ---------------------------------------------------------------------
  // Removal and the individual pass
  // ---------------------------------------------------------------------

  /** The text the identifier patterns scan: the batch phrases are cut out when there are any. */
  function TextForNumbers(text: string): string
  {
    if FindBatches(CurrentBatch, text) == [] then text else SubBatches(CurrentBatch, text)
  }

  /**
   * The identifier patterns see exactly the text outside the batch phrases,
   * so the digits of a batch quantity never become an identifier.
   */
  lemma TextForNumbersRemovesBatches(text: string)
    ensures TextForNumbers(text) == Outside(text, 0, FindBatches(CurrentBatch, text))
  {
    SubRemovesExactlyTheMatches(CurrentBatch, text, 0);
    assert text[0..] == text;
  }

  /** The matches of one service's pattern, in text order. */
  function MatchesFor(service: string, t: string, bolt: string -> seq<string>): seq<string>
  {
    if service == Yandex then FindAll(YandexId, t)
    else if service == Whoosh then FindAll(WhooshId, t)
    else if service == Jet then FindAll(JetId, t)
    else bolt(t)
  }

  function NormSet(nums: seq<string>): set<string>
  {
    set n | n in nums :: Normalize(n)
  }

  lemma NormSetAppend(nums: seq<string>, x: string)
    ensures NormSet(nums + [x]) == NormSet(nums) + {Normalize(x)}
  {
    assert forall n :: n in nums + [x] <==> n in nums || n == x;
  }

  /** The claimed set after the numbers nums, in order, were claimed. */
  function ClaimedAfter(claimed: set<string>, nums: seq<string>): set<string>
  {
    if nums == [] then claimed else ClaimedAfter(claimed, nums[..|nums| - 1]) + {Normalize(nums[|nums| - 1])}
  }

  lemma {:induction false} ClaimedAfterIs(claimed: set<string>, nums: seq<string>)
    ensures ClaimedAfter(claimed, nums) == claimed + NormSet(nums)
  {
    if nums != [] {
      ClaimedAfterIs(claimed, nums[..|nums| - 1]);
      NormSetAppend(nums[..|nums| - 1], nums[|nums| - 1]);
      assert nums[..|nums| - 1] + [nums[|nums| - 1]] == nums;
    } else {
      assert NormSet(nums) == {};
    }
  }

  /** The normalised numbers that the patterns of `services` match, all together. */
  function ClaimedBy(services: seq<string>, t: string, bolt: string -> seq<string>): set<string>
  {
    if services == [] then {}
    else ClaimedBy(services[..|services| - 1], t, bolt) + NormSet(MatchesFor(services[|services| - 1], t, bolt))
  }

  /** The records one service adds: its matches in order, normalised, skipping numbers already claimed. */
  function DedupMatches(service: string, nums: seq<string>, claimed: set<string>, who: Sender, ts: int): seq<Record>
  {
    if nums == [] then []
    else
      var prev := DedupMatches(service, nums[..|nums| - 1], claimed, who, ts);
      var c := Normalize(nums[|nums| - 1]);
      if c in ClaimedAfter(claimed, nums[..|nums| - 1]) then prev else prev + [MakeRecord(c, service, who, ts)]
  }

  /** The records of the individual pass with the services tried in the order given. */
  function IndividualRecords(services: seq<string>, t: string, bolt: string -> seq<string>, who: Sender, ts: int): seq<Record>
  {
    if services == [] then []
    else
      var init := services[..|services| - 1];
      var s := services[|services| - 1];
      IndividualRecords(init, t, bolt, who, ts) + DedupMatches(s, MatchesFor(s, t, bolt), ClaimedBy(init, t, bolt), who, ts)
  }

  /**
   * x's number is matched by the pattern of services[k], the service x
   * carries, and by none of the services tried before it.
   */
  ghost predicate FirstClaimedBy(x: Record, services: seq<string>, t: string, bolt: string -> seq<string>)
  {
    exists k :: 0 <= k < |services| && x.service == services[k]
      && x.number in NormSet(MatchesFor(services[k], t, bolt))
      && x.number !in ClaimedBy(services[..k], t, bolt)
  }

  function NumbersOf(records: seq<Record>): set<string>
  {
    set r | r in records :: r.number
  }

  predicate DistinctNumbers(records: seq<Record>)
  {
    forall i, j :: 0 <= i < j < |records| ==> records[i].number != records[j].number
  }

  /** One service's numbers are exactly its normalised matches that were not claimed before. */
  lemma {:induction false} DedupMatchesNumbers(service: string, nums: seq<string>, claimed: set<string>, who: Sender, ts: int)
    ensures NumbersOf(DedupMatches(service, nums, claimed, who, ts)) == NormSet(nums) - claimed
  {
    if nums != [] {
      var init := nums[..|nums| - 1];
      var x := nums[|nums| - 1];
      DedupMatchesNumbers(service, init, claimed, who, ts);
      ClaimedAfterIs(claimed, init);
      NormSetAppend(init, x);
      assert init + [x] == nums;
      var c := Normalize(x);
      if c !in claimed + NormSet(init) {
        NumbersOfSnoc(DedupMatches(service, init, claimed, who, ts), MakeRecord(c, service, who, ts));
      }
    }
  }

  /** One service's records have pairwise distinct numbers. */
  lemma {:induction false} DedupMatchesDistinct(service: string, nums: seq<string>, claimed: set<string>, who: Sender, ts: int)
    ensures DistinctNumbers(DedupMatches(service, nums, claimed, who, ts))
  {
    if nums != [] {
      var init := nums[..|nums| - 1];
      DedupMatchesDistinct(service, init, claimed, who, ts);
      var prev := DedupMatches(service, init, claimed, who, ts);
      var c := Normalize(nums[|nums| - 1]);
      if c !in ClaimedAfter(claimed, init) {
        DedupMatchesNumbers(service, init, claimed, who, ts);
        ClaimedAfterIs(claimed, init);
        var r := prev + [MakeRecord(c, service, who, ts)];
        forall i | 0 <= i < |prev| ensures r[i].number != c {
          assert prev[i] in prev;
          assert prev[i].number in NumbersOf(prev);
        }
      }
    }
  }

  lemma NumbersOfSnoc(a: seq<Record>, r: Record)
    ensures NumbersOf(a + [r]) == NumbersOf(a) + {r.number}
  {
    NumbersOfAppend(a, [r]);
    assert NumbersOf([r]) == {r.number};
  }

  /** Every record of one service carries that service and the message's sender, chat and timestamp. */
  lemma {:induction false} DedupMatchesStamped(service: string, nums: seq<string>, claimed: set<string>, who: Sender, ts: int)
    ensures var r := DedupMatches(service, nums, claimed, who, ts);
      (forall x :: x in r ==> x.service == service) && Stamped(r, who, ts)
  {
    if nums != [] {
      DedupMatchesStamped(service, nums[..|nums| - 1], claimed, who, ts);
    }
  }

  /**
   * The individual pass: numbers pairwise distinct across all services,
   * every normalised match of every service present and nothing else.
   */
  lemma {:induction false} IndividualNumbers(services: seq<string>, t: string, bolt: string -> seq<string>, who: Sender, ts: int)
    ensures var r := IndividualRecords(services, t, bolt, who, ts);
      && DistinctNumbers(r)
      && NumbersOf(r) == ClaimedBy(services, t, bolt)
      && Stamped(r, who, ts)
  {
    if services != [] {
      var init := services[..|services| - 1];
      var s := services[|services| - 1];
      IndividualNumbers(init, t, bolt, who, ts);
      var prev := IndividualRecords(init, t, bolt, who, ts);
      var claimed := ClaimedBy(init, t, bolt);
      var nums := MatchesFor(s, t, bolt);
      DedupMatchesNumbers(s, nums, claimed, who, ts);
      DedupMatchesDistinct(s, nums, claimed, who, ts);
      DedupMatchesStamped(s, nums, claimed, who, ts);
      var d := DedupMatches(s, nums, claimed, who, ts);
      assert IndividualRecords(services, t, bolt, who, ts) == prev + d;
      NumbersOfAppend(prev, d);
      DistinctAppend(prev, d);
    }
  }

  lemma NumbersOfAppend(a: seq<Record>, b: seq<Record>)
    ensures NumbersOf(a + b) == NumbersOf(a) + NumbersOf(b)
  {
    assert forall r :: r in a + b <==> r in a || r in b;
  }

  lemma DistinctAppend(a: seq<Record>, b: seq<Record>)
    requires DistinctNumbers(a) && DistinctNumbers(b) && NumbersOf(a) !! NumbersOf(b)
    ensures DistinctNumbers(a + b)
  {
    var r := a + b;
    forall i, j | 0 <= i < j < |r| ensures r[i].number != r[j].number {
      if j >= |a| && i < |a| {
        assert a[i] in a && b[j - |a|] in b;
        assert r[i].number in NumbersOf(a) && r[j].number in NumbersOf(b);
      } else if i >= |a| {
        assert r[i] == b[i - |a|] && r[j] == b[j - |a|];
      }
    }
  }

  /**
   * The record of a number carries the first service, in the order given,
   * whose pattern matched that number.
   */
  lemma {:induction false} IndividualFirstClaim(services: seq<string>, t: string, bolt: string -> seq<string>, who: Sender, ts: int)
    ensures forall x :: x in IndividualRecords(services, t, bolt, who, ts) ==> FirstClaimedBy(x, services, t, bolt)
  {
    if services != [] {
      var init := services[..|services| - 1];
      var s := services[|services| - 1];
      IndividualFirstClaim(init, t, bolt, who, ts);
      var prev := IndividualRecords(init, t, bolt, who, ts);
      var d := DedupMatches(s, MatchesFor(s, t, bolt), ClaimedBy(init, t, bolt), who, ts);
      assert IndividualRecords(services, t, bolt, who, ts) == prev + d;
      forall x | x in prev + d ensures FirstClaimedBy(x, services, t, bolt) {
        if x in d {
          FirstClaimNew(services, t, bolt, who, ts, x);
        } else {
          FirstClaimKept(services, t, bolt, x);
        }
      }
    }
  }

  /** A record the last service adds is claimed first by that service. */
  lemma FirstClaimNew(services: seq<string>, t: string, bolt: string -> seq<string>, who: Sender, ts: int, x: Record)
    requires services != []
    requires var init := services[..|services| - 1];
      var s := services[|services| - 1];
      x in DedupMatches(s, MatchesFor(s, t, bolt), ClaimedBy(init, t, bolt), who, ts)
    ensures FirstClaimedBy(x, services, t, bolt)
  {
    var init := services[..|services| - 1];
    var s := services[|services| - 1];
    var nums := MatchesFor(s, t, bolt);
    var claimed := ClaimedBy(init, t, bolt);
    var d := DedupMatches(s, nums, claimed, who, ts);
    DedupMatchesNumbers(s, nums, claimed, who, ts);
    DedupMatchesStamped(s, nums, claimed, who, ts);
    assert x.number in NumbersOf(d);
    assert x.service == s;
  }

  /** A record claimed first by an earlier service stays so when a service is added after it. */
  lemma FirstClaimKept(services: seq<string>, t: string, bolt: string -> seq<string>, x: Record)
    requires services != [] && FirstClaimedBy(x, services[..|services| - 1], t, bolt)
    ensures FirstClaimedBy(x, services, t, bolt)
  {
    var init := services[..|services| - 1];
    var k :| 0 <= k < |init| && x.service == init[k]
      && x.number in NormSet(MatchesFor(init[k], t, bolt))
      && x.number !in ClaimedBy(init[..k], t, bolt);
    assert services[..k] == init[..k];
    assert services[k] == init[k];
  }

  // ---------------------------------------------------------------------
  // The whole extraction
  // ---------------------------------------------------------------------

  /** The records built for one message: the batch pass, then the individual pass. */
  function Extract(text: string, who: Sender, ts: int, tick: nat -> string, bolt: string -> seq<string>): seq<Record>
  {
    BatchRecords(FindBatches(CurrentBatch, text), who, ts, tick)
    + IndividualRecords(ServicePriority, TextForNumbers(text), bolt, who, ts)
  }

  /**
   * All records of one message share its timestamp, sender and chat, and
   * the individual records have pairwise distinct numbers, one for each
   * normalised match in the text left after removal.
   */
  lemma ExtractStamped(text: string, who: Sender, ts: int, tick: nat -> string, bolt: string -> seq<string>)
    ensures Stamped(Extract(text, who, ts, tick, bolt), who, ts)
    ensures var ind := IndividualRecords(ServicePriority, TextForNumbers(text), bolt, who, ts);
      DistinctNumbers(ind) && NumbersOf(ind) == ClaimedBy(ServicePriority, TextForNumbers(text), bolt)
  {
    BatchRecordsStamped(FindBatches(CurrentBatch, text), who, ts, tick);
    IndividualNumbers(ServicePriority, TextForNumbers(text), bolt, who, ts);
  }

  /** Every record's service is one of the four services. */
  lemma ExtractServicesKnown(text: string, who: Sender, ts: int, tick: nat -> string, bolt: string -> seq<string>)
    ensures forall r :: r in Extract(text, who, ts, tick, bolt) ==> r.service in ServicesSorted
  {
    var ms := FindBatches(CurrentBatch, text);
    var b := BatchRecords(ms, who, ts, tick);
    var t := TextForNumbers(text);
    var ind := IndividualRecords(ServicePriority, t, bolt, who, ts);
    BatchRecordsProvenance(ms, who, ts, tick);
    IndividualFirstClaim(ServicePriority, t, bolt, who, ts);
    AliasTable();
    forall r: Record | r in b ensures r.service in ServicesSorted {
      assert FromAcceptedPhrase(r, ms);
      var m, q, tok, i :| m in ms && AcceptedBatch(m) == Some((r.service, q)) && 1 <= i <= q
        && r.number == Placeholder(r.service, tok, i);
      assert ServiceAliases[LowerStr(m.alias)] == r.service;
      assert r.service in ServiceAliases.Values;
    }
    forall r: Record | r in ind ensures r.service in ServicesSorted {
      assert FirstClaimedBy(r, ServicePriority, t, bolt);
    }
  }

  /** Each service's count is its accepted batch quantity plus its individual records. */
  lemma ExtractCount(text: string, who: Sender, ts: int, tick: nat -> string, bolt: string -> seq<string>, service: string)
    ensures CountService(Extract(text, who, ts, tick, bolt), service)
      == BatchQuantity(FindBatches(CurrentBatch, text), service)
         + CountService(IndividualRecords(ServicePriority, TextForNumbers(text), bolt, who, ts), service)
  {
    var ms := FindBatches(CurrentBatch, text);
    BatchRecordsCount(ms, who, ts, tick, service);
    CountServiceAppend(BatchRecords(ms, who, ts, tick), IndividualRecords(ServicePriority, TextForNumbers(text), bolt, who, ts), service);
  }

  /**
   * The cap: the message "jet q" is one phrase, which adds q Jet records
   * when q is in 1..200 and none otherwise (so "jet 200" adds 200 and
   * "jet 0" or "jet 201" none).
   */
  lemma JetPhraseCap(q: nat, who: Sender, ts: int, tick: nat -> string)
    ensures var text := "jet " + NatToString(q);
      var ms := FindBatches(CurrentBatch, text);
      var added := BatchRecords(ms, who, ts, tick);
      && ms == [BatchMatch("jet", NatToString(q), 0, |text|)]
      && |added| == CountService(added, Jet) == (if 1 <= q <= 200 then q else 0)
  {
    var digits := NatToString(q);
    NatToStringRoundTrip(q);
    JetPhraseScan(digits);
    var m := BatchMatch("jet", digits, 0, 4 + |digits|);
    JetPhraseAccepted(q, m);
    OnePhraseRecords(m, who, ts, tick);
  }

  lemma JetPhraseAccepted(q: nat, m: BatchMatch)
    requires m.alias == "jet" && m.digits == NatToString(q)
    ensures AcceptedBatch(m) == if 1 <= q <= 200 then Some((Jet, q)) else None
  {
    JetAliasResolves();
    ParseIntOfNatToString(q);
  }

  lemma JetAliasResolves()
    ensures ResolveAlias("jet") == Some(Jet)
  {
    BatchAlternativesResolve();
    assert BatchAlternatives[1] == "jet";
  }

  /** A message with one phrase adds that phrase's quantity of records, all of its service. */
  lemma OnePhraseRecords(m: BatchMatch, who: Sender, ts: int, tick: nat -> string)
    ensures var added := BatchRecords([m], who, ts, tick);
      match AcceptedBatch(m)
      case Some((s, q)) => |added| == CountService(added, s) == q
      case None => added == []
  {
    assert [m][..0] == [] && [m][0] == m;
    assert BatchRecords([], who, ts, tick) == [];
    var added := BatchRecords([m], who, ts, tick);
    assert added == LastPhraseRecords([m], who, ts, tick);
    match AcceptedBatch(m)
    case Some((s, q)) =>
      assert added == [] + Expand(s, q, who, ts, tick, 0);
      ExpandProperties(s, q, who, ts, tick, 0);
      BatchRecordsCount([m], who, ts, tick, s);
      assert BatchQuantity([m], s) == BatchQuantity([], s) + q;
    case None =>
  }

  lemma BatchRecordsAccepted(ms: seq<BatchMatch>, b: nat, who: Sender, ts: int, tick: nat -> string, service: string, q: nat)
    requires b < |ms| && AcceptedBatch(ms[b]) == Some((service, q))
    ensures BatchRecords(ms[..b + 1], who, ts, tick)
      == BatchRecords(ms[..b], who, ts, tick) + Expand(service, q, who, ts, tick, |BatchRecords(ms[..b], who, ts, tick)|)
  {
    assert ms[..b + 1][..b] == ms[..b];
  }

  lemma BatchRecordsSkipped(ms: seq<BatchMatch>, b: nat, who: Sender, ts: int, tick: nat -> string)
    requires b < |ms| && AcceptedBatch(ms[b]).None?
    ensures BatchRecords(ms[..b + 1], who, ts, tick) == BatchRecords(ms[..b], who, ts, tick)
  {
    var x := ms[..b + 1];
    assert x[..b] == ms[..b] && x[b] == ms[b];
    assert BatchRecords(x, who, ts, tick) == LastPhraseRecords(x, who, ts, tick);
  }

  lemma DedupMatchesStep(service: string, nums: seq<string>, j: nat, claimed: set<string>, who: Sender, ts: int)
    requires j < |nums|
    ensures var prev := DedupMatches(service, nums[..j], claimed, who, ts);
      var c := Normalize(nums[j]);
      && DedupMatches(service, nums[..j + 1], claimed, who, ts)
         == (if c in ClaimedAfter(claimed, nums[..j]) then prev else prev + [MakeRecord(c, service, who, ts)])
      && ClaimedAfter(claimed, nums[..j + 1]) == ClaimedAfter(claimed, nums[..j]) + {c}
  {
    assert nums[..j + 1][..j] == nums[..j];
  }

  /** DedupMatchesStep, continuing the records records0. */
  lemma ClaimStep(service: string, nums: seq<string>, j: nat, records0: seq<Record>, claimed: set<string>, who: Sender, ts: int)
    requires j < |nums|
    ensures var prev := records0 + DedupMatches(service, nums[..j], claimed, who, ts);
      var c := Normalize(nums[j]);
      && records0 + DedupMatches(service, nums[..j + 1], claimed, who, ts)
         == (if c in ClaimedAfter(claimed, nums[..j]) then prev else prev + [MakeRecord(c, service, who, ts)])
      && ClaimedAfter(claimed, nums[..j + 1]) == ClaimedAfter(claimed, nums[..j]) + {c}
  {
    DedupMatchesStep(service, nums, j, claimed, who, ts);
    AppendAssoc(records0, DedupMatches(service, nums[..j], claimed, who, ts), [MakeRecord(Normalize(nums[j]), service, who, ts)]);
  }

  lemma IndividualRecordsStep(services: seq<string>, v: nat, t: string, bolt: string -> seq<string>, who: Sender, ts: int)
    requires v < |services|
    ensures IndividualRecords(services[..v + 1], t, bolt, who, ts)
      == IndividualRecords(services[..v], t, bolt, who, ts)
         + DedupMatches(services[v], MatchesFor(services[v], t, bolt), ClaimedBy(services[..v], t, bolt), who, ts)
    ensures ClaimedBy(services[..v + 1], t, bolt) == ClaimedBy(services[..v], t, bolt) + NormSet(MatchesFor(services[v], t, bolt))
  {
    assert services[..v + 1][..v] == services[..v];
  }

  /**
   * `for i in range(quantity)`: appends the placeholders 1..q of one
   * accepted phrase, the j-th reading clock token tick(|records0| + j).
   */
  method AppendPlaceholders(records0: seq<Record>, service: string, q: nat, who: Sender, ts: int, tick: nat -> string)
    returns (records: seq<Record>)
    ensures records == records0 + Expand(service, q, who, ts, tick, |records0|)
  {
    records := records0;
    var k0 := |records0|;
    var i := 0;
    while i < q
      invariant 0 <= i <= q
      invariant records == records0 + Expand(service, i, who, ts, tick, k0)
    {
      var rec := MakeRecord(Placeholder(service, tick(k0 + i), i + 1), service, who, ts);
      AppendAssoc(records0, Expand(service, i, who, ts, tick, k0), [rec]);
      assert Expand(service, i + 1, who, ts, tick, k0) == Expand(service, i, who, ts, tick, k0) + [rec];
      records := records + [rec];
      i := i + 1;
    }
  }

  /** An accepted phrase: its q placeholder records appended, its service's count raised by q. */
  method AcceptPhrase(records0: seq<Record>, summary0: map<string, nat>, s: string, q: nat, who: Sender, ts: int, tick: nat -> string)
    returns (records: seq<Record>, summary: map<string, nat>)
    requires summary0 == TallyMap(records0) && 0 < q
    ensures records == records0 + Expand(s, q, who, ts, tick, |records0|)
    ensures summary == TallyMap(records)
  {
    records := AppendPlaceholders(records0, s, q, who, ts, tick);
    ghost var extra := Expand(s, q, who, ts, tick, |records0|);
    ExpandProperties(s, q, who, ts, tick, |records0|);
    TallyMapAppend(records0, extra, s);
    assert |extra| == q && extra != [];
    summary := summary0[s := Get(summary0, s) + q];
  }

  /**
   * One phrase of the batch pass: an accepted phrase appends its
   * placeholder records and raises its service's count by its quantity; a
   * skipped phrase changes nothing.
   */
  method BatchPhrase(batches: seq<BatchMatch>, b: nat, who: Sender, ts: int, tick: nat -> string,
                     records0: seq<Record>, summary0: map<string, nat>)
    returns (records: seq<Record>, summary: map<string, nat>)
    requires b < |batches|
    requires records0 == BatchRecords(batches[..b], who, ts, tick) && summary0 == TallyMap(records0)
    ensures records == BatchRecords(batches[..b + 1], who, ts, tick)
    ensures summary == TallyMap(records)
  {
    var service := ResolveAlias(batches[b].alias);
    var quantity := ParseInt(batches[b].digits);
    if service.Some? && quantity.Some? && 0 < quantity.value <= 200 {
      var s, q: nat := service.value, quantity.value;
      BatchRecordsAccepted(batches, b, who, ts, tick, s, q);
      records, summary := AcceptPhrase(records0, summary0, s, q, who, ts, tick);
    } else {
      BatchRecordsSkipped(batches, b, who, ts, tick);
      records, summary := records0, summary0;
    }
  }

  /** The batch pass over the phrases the batch pattern found, in order. */
  method BatchPass(batches: seq<BatchMatch>, who: Sender, ts: int, tick: nat -> string)
    returns (records: seq<Record>, summary: map<string, nat>)
    ensures records == BatchRecords(batches, who, ts, tick)
    ensures summary == TallyMap(records)
  {
    records := [];
    summary := map[];
    var b := 0;
    while b < |batches|
      invariant 0 <= b <= |batches|
      invariant records == BatchRecords(batches[..b], who, ts, tick)
      invariant summary == TallyMap(records)
    {
      records, summary := BatchPhrase(batches, b, who, ts, tick, records, summary);
      b := b + 1;
    }
    assert batches[..|batches|] == batches;
  }

  /** One match of `for num in numbers`: normalised, then appended with a count increment unless already claimed. */
  method ClaimOne(service: string, numbers: seq<string>, j: nat, records0: seq<Record>, claimed: set<string>, who: Sender, ts: int,
                  records1: seq<Record>, summary1: map<string, nat>, processed1: set<string>)
    returns (records: seq<Record>, summary: map<string, nat>, processed: set<string>)
    requires j < |numbers|
    requires records1 == records0 + DedupMatches(service, numbers[..j], claimed, who, ts)
    requires processed1 == ClaimedAfter(claimed, numbers[..j])
    requires summary1 == TallyMap(records1)
    ensures records == records0 + DedupMatches(service, numbers[..j + 1], claimed, who, ts)
    ensures processed == ClaimedAfter(claimed, numbers[..j + 1])
    ensures summary == TallyMap(records)
  {
    ClaimStep(service, numbers, j, records0, claimed, who, ts);
    records, summary, processed := records1, summary1, processed1;
    var clean := Normalize(numbers[j]);
    if clean !in processed {
      var rec := MakeRecord(clean, service, who, ts);
      TallyMapSnoc(records, rec);
      records := records + [rec];
      summary := summary[service := Get(summary, service) + 1];
      processed := processed + {clean};
    }
  }

  /**
   * `for num in numbers` for one service: each match is normalised, and
   * appended with a count increment unless already claimed.
   */
  method ClaimMatches(service: string, numbers: seq<string>, records0: seq<Record>, summary0: map<string, nat>,
                      claimed: set<string>, who: Sender, ts: int)
    returns (records: seq<Record>, summary: map<string, nat>, processed: set<string>)
    requires summary0 == TallyMap(records0)
    ensures records == records0 + DedupMatches(service, numbers, claimed, who, ts)
    ensures processed == claimed + NormSet(numbers)
    ensures summary == TallyMap(records)
  {
    records, summary, processed := records0, summary0, claimed;
    var j := 0;
    while j < |numbers|
      invariant 0 <= j <= |numbers|
      invariant records == records0 + DedupMatches(service, numbers[..j], claimed, who, ts)
      invariant processed == ClaimedAfter(claimed, numbers[..j])
      invariant summary == TallyMap(records)
    {
      records, summary, processed := ClaimOne(service, numbers, j, records0, claimed, who, ts, records, summary, processed);
      j := j + 1;
    }
    assert numbers[..|numbers|] == numbers;
    ClaimedAfterIs(claimed, numbers);
  }

  /**
   * The individual pass over the text t, continuing the records and the
   * counter of the batch pass: the services in the order given, each
   * service's matches claimed in text order.
   */
  method IndividualPass(services: seq<string>, t: string, records0: seq<Record>, summary0: map<string, nat>,
                        who: Sender, ts: int, bolt: string -> seq<string>)
    returns (records: seq<Record>, summary: map<string, nat>)
    requires summary0 == TallyMap(records0)
    ensures records == records0 + IndividualRecords(services, t, bolt, who, ts)
    ensures summary == TallyMap(records)
  {
    records := records0;
    summary := summary0;
    var processed: set<string> := {};
    var v := 0;
    while v < |services|
      invariant 0 <= v <= |services|
      invariant records == records0 + IndividualRecords(services[..v], t, bolt, who, ts)
      invariant processed == ClaimedBy(services[..v], t, bolt)
      invariant summary == TallyMap(records)
    {
      var numbers := MatchesFor(services[v], t, bolt);
      IndividualRecordsStep(services, v, t, bolt, who, ts);
      AppendAssoc(records0, IndividualRecords(services[..v], t, bolt, who, ts),
                  DedupMatches(services[v], numbers, processed, who, ts));
      records, summary, processed := ClaimMatches(services[v], numbers, records, summary, processed, who, ts);
      v := v + 1;
    }
    assert services[..|services|] == services;
  }

  /**
   * process_scooter_text up to the write: the batch pass, the removal of
   * every batch phrase when there is any, and the individual pass.
   */
  method ExtractRecords(text: string, who: Sender, ts: int, tick: nat -> string, bolt: string -> seq<string>)
    returns (records: seq<Record>, summary: map<string, nat>)
    ensures records == Extract(text, who, ts, tick, bolt)
    ensures summary == TallyMap(records) && Tallies(summary, records)
  {
    var batches := FindBatches(CurrentBatch, text);
    records, summary := BatchPass(batches, who, ts, tick);
    var textForNumbers := text;
    if |batches| > 0 {
      textForNumbers := SubBatches(CurrentBatch, text);
    }
    records, summary := IndividualPass(ServicePriority, textForNumbers, records, summary, who, ts, bolt);
    TallyMapCounts(records);
  }
}
