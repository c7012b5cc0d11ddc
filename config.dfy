/**
 * The bot's static configuration: service names, the alias tables used by
 * the batch shorthand, and the three ID lists read from the environment.
 */
module Config {
  import opened Wrappers
  import opened Text

  const Yandex: string := "Яндекс"
  const Whoosh: string := "Whoosh"
  const Jet: string := "Jet"
  const Bolt: string := "Bolt"

  /** SERVICE_ALIASES: the tokens of the batch shorthand, lower-cased. */
  const ServiceAliases: map<string, string> := map[
    "yandex" := Yandex, "яндекс" := Yandex, "y" := Yandex,
    "whoosh" := Whoosh, "вуш" := Whoosh, "w" := Whoosh,
    "jet" := Jet, "джет" := Jet, "j" := Jet
  ]

  /** SERVICE_MAP */
  const ServiceMap: map<string, string> := map["yandex" := Yandex, "whoosh" := Whoosh, "jet" := Jet]

  /** The alternatives of BATCH_QUANTITY_PATTERN, in the order the regex tries them. */
  const BatchAlternatives: seq<string> := ["whoosh", "jet", "yandex", "вуш", "джет", "яндекс", "w", "j", "y"]

  /** The order in which the individual pass tries the per-service patterns. */
  const ServicePriority: seq<string> := [Yandex, Whoosh, Jet, Bolt]

  /** The four services in Python's string order (Latin before Cyrillic). */
  const ServicesSorted: seq<string> := [Bolt, Jet, Whoosh, Yandex]

  /** SERVICE_ALIASES maps exactly the nine tokens, three per service. */
  lemma AliasTable()
    ensures ServiceAliases.Keys == {"yandex", "яндекс", "y", "whoosh", "вуш", "w", "jet", "джет", "j"}
    ensures forall k :: k in ServiceAliases ==> (ServiceAliases[k] == Yandex <==> k in {"yandex", "яндекс", "y"})
    ensures forall k :: k in ServiceAliases ==> (ServiceAliases[k] == Whoosh <==> k in {"whoosh", "вуш", "w"})
    ensures forall k :: k in ServiceAliases ==> (ServiceAliases[k] == Jet <==> k in {"jet", "джет", "j"})
    ensures ServiceAliases.Values == {Yandex, Whoosh, Jet}
  {
    assert ServiceAliases["y"] == Yandex && ServiceAliases["w"] == Whoosh && ServiceAliases["j"] == Jet;
  }

  /**
   * Every alternative of the batch pattern is already lower-case and is a
   * key of SERVICE_ALIASES, so the alias lookup after a batch match never
   * misses.
   */
  lemma BatchAlternativesResolve()
    ensures forall a :: a in BatchAlternatives ==> LowerStr(a) == a && a in ServiceAliases
  {
    forall a | a in BatchAlternatives ensures LowerStr(a) == a {
      assert forall i :: 0 <= i < |a| ==> !IsLatinUpper(a[i]) && !IsCyrillicUpper(a[i]) && a[i] != 'Ё';
    }
  }

  /** SERVICE_MAP agrees with SERVICE_ALIASES on its three English keys. */
  lemma ServiceMapAgrees()
    ensures forall k :: k in ServiceMap ==> k in ServiceAliases && ServiceAliases[k] == ServiceMap[k]
    ensures ServiceMap.Keys == {"yandex", "whoosh", "jet"}
  {
  }

  // ---------------------------------------------------------------------
  // ADMIN_IDS, ALLOWED_CHAT_IDS, REPORT_CHAT_IDS
  // ---------------------------------------------------------------------

  predicate IsBlank(item: string)
  {
    Strip(item) == ""
  }

  /** The set comprehension over the comma-separated items; None is the ValueError. */
  function ParseIdItems(items: seq<string>): Option<set<int>>
  {
    if items == [] then Some({})
    else
      var rest := ParseIdItems(items[1..]);
      if IsBlank(items[0]) then rest
      else match ParseInt(items[0])
        case None => None
        case Some(v) => if rest.None? then None else Some({v} + rest.value)
  }

  /** One environment value, e.g. `os.getenv('ADMIN_IDS', '')`. */
  function ParseIdList(raw: string): Option<set<int>>
  {
    ParseIdItems(SplitOn(raw, ','))
  }

  datatype IdSets = IdSets(admins: set<int>, allowedChats: set<int>, reportChats: set<int>)

  /** The try/except around the three comprehensions: one bad item empties all three sets. */
  function LoadIdSets(adminsRaw: string, allowedRaw: string, reportRaw: string): IdSets
  {
    match (ParseIdList(adminsRaw), ParseIdList(allowedRaw), ParseIdList(reportRaw))
    case (Some(a), Some(c), Some(r)) => IdSets(a, c, r)
    case _ => IdSets({}, {}, {})
  }

  /**
   * A list parses exactly when every non-blank item is an integer, and then
   * its set holds exactly the values of the non-blank items: blank items
   * are skipped.
   */
  lemma {:induction false} ParseIdItemsMeaning(items: seq<string>)
    ensures ParseIdItems(items).None? <==>
            exists k :: 0 <= k < |items| && !IsBlank(items[k]) && ParseInt(items[k]).None?
    ensures ParseIdItems(items).Some? ==>
            forall v :: v in ParseIdItems(items).value <==>
              exists k :: 0 <= k < |items| && !IsBlank(items[k]) && ParseInt(items[k]) == Some(v)
  {
    if items != [] {
      var tail := items[1..];
      ParseIdItemsMeaning(tail);
      forall k | 0 <= k < |tail| ensures tail[k] == items[k + 1] { }
      if ParseIdItems(items).None? {
        if !IsBlank(items[0]) && ParseInt(items[0]).None? {
        } else {
          var k :| 0 <= k < |tail| && !IsBlank(tail[k]) && ParseInt(tail[k]).None?;
          assert items[k + 1] == tail[k];
        }
      } else {
        forall k | 0 <= k < |items| && !IsBlank(items[k]) ensures ParseInt(items[k]).Some? {
          if k > 0 { assert items[k] == tail[k - 1]; }
        }
        forall v ensures v in ParseIdItems(items).value <==>
            exists k :: 0 <= k < |items| && !IsBlank(items[k]) && ParseInt(items[k]) == Some(v)
        {
          if v in ParseIdItems(items).value {
            if !IsBlank(items[0]) && ParseInt(items[0]) == Some(v) {
            } else {
              var k :| 0 <= k < |tail| && !IsBlank(tail[k]) && ParseInt(tail[k]) == Some(v);
              assert items[k + 1] == tail[k];
            }
          }
          if exists k :: 0 <= k < |items| && !IsBlank(items[k]) && ParseInt(items[k]) == Some(v) {
            var k :| 0 <= k < |items| && !IsBlank(items[k]) && ParseInt(items[k]) == Some(v);
            if k > 0 { assert tail[k - 1] == items[k]; }
          }
        }
      }
    }
  }

  /** A non-integer item in any of the three lists leaves all three sets empty. */
  lemma BadItemEmptiesAll(adminsRaw: string, allowedRaw: string, reportRaw: string, which: nat, k: nat)
    requires which < 3
    requires var raw := [adminsRaw, allowedRaw, reportRaw][which];
             k < |SplitOn(raw, ',')| && !IsBlank(SplitOn(raw, ',')[k]) && ParseInt(SplitOn(raw, ',')[k]).None?
    ensures LoadIdSets(adminsRaw, allowedRaw, reportRaw) == IdSets({}, {}, {})
  {
    var raw := [adminsRaw, allowedRaw, reportRaw][which];
    ParseIdItemsMeaning(SplitOn(raw, ','));
  }
}
