/**
 * The regular expressions of config.py and main.py, written out as
 * scanners over the text. `FindAll` and `FindBatches` are Python's
 * `re.findall` (leftmost match, then continue after it, never
 * overlapping), `SubBatches` is `re.sub(pattern, '', text)`.
 */
module Patterns {
  import opened Wrappers
  import opened Text
  import Config

  /** `\b` at position i: exactly one of the characters around i is a word character. */
  predicate Boundary(s: string, i: nat)
    requires i <= |s|
  {
    (i > 0 && IsWordChar(s[i - 1])) != (i < |s| && IsWordChar(s[i]))
  }

  predicate DigitsAt(s: string, i: nat, n: nat)
    requires i + n <= |s|
  {
    forall k :: i <= k < i + n ==> IsDigit(s[k])
  }

  /** `[A-ZА-Я]` under re.IGNORECASE. */
  predicate IsWhooshLetter(c: char)
  {
    IsLatinUpper(c) || IsLatinLower(c) || IsCyrillicUpper(c) || IsCyrillicLower(c)
  }

  /** `[A-Z]` under re.IGNORECASE, as in the earlier revision (main.py). */
  predicate IsLatinLetter(c: char)
  {
    IsLatinUpper(c) || IsLatinLower(c)
  }

  /** The identifier patterns: three of config.py and the two of main.py that differ. */
  datatype IdPattern =
    | YandexId        // \b(\d{8})\b
    | WhooshId        // \b([A-ZА-Я]{2}\d{4})\b, IGNORECASE
    | JetId           // \b(\d{3}-?\d{3})\b
    | LegacyWhooshId  // \b[A-Z]{2}\d{4}\b, IGNORECASE
    | LegacyJetId     // \b\d{6}\b

  /**
   * The length of the match of `p` that starts at position i, or 0 when
   * none does. For JetId the optional dash is tried first, as the greedy
   * `-?` does, and dropped on backtracking.
   */
  function MatchLength(p: IdPattern, s: string, i: nat): (n: nat)
    requires i <= |s|
    ensures n == 0 || i + n <= |s|
  {
    match p
    case YandexId =>
      if i + 8 <= |s| && Boundary(s, i) && DigitsAt(s, i, 8) && Boundary(s, i + 8) then 8 else 0
    case WhooshId =>
      if i + 6 <= |s| && Boundary(s, i) && IsWhooshLetter(s[i]) && IsWhooshLetter(s[i + 1])
         && DigitsAt(s, i + 2, 4) && Boundary(s, i + 6)
      then 6 else 0
    case JetId =>
      if i + 7 <= |s| && Boundary(s, i) && DigitsAt(s, i, 3) && s[i + 3] == '-'
         && DigitsAt(s, i + 4, 3) && Boundary(s, i + 7)
      then 7
      else if i + 6 <= |s| && Boundary(s, i) && DigitsAt(s, i, 6) && Boundary(s, i + 6) then 6
      else 0
    case LegacyWhooshId =>
      if i + 6 <= |s| && Boundary(s, i) && IsLatinLetter(s[i]) && IsLatinLetter(s[i + 1])
         && DigitsAt(s, i + 2, 4) && Boundary(s, i + 6)
      then 6 else 0
    case LegacyJetId =>
      if i + 6 <= |s| && Boundary(s, i) && DigitsAt(s, i, 6) && Boundary(s, i + 6) then 6 else 0
  }

  /** `pattern.findall(s[i..])` continued from position i of the same text. */
  function FindAllFrom(p: IdPattern, s: string, i: nat): seq<string>
    requires i <= |s|
    decreases |s| - i
  {
    if i == |s| then []
    else
      var n := MatchLength(p, s, i);
      if n > 0 then [s[i..i + n]] + FindAllFrom(p, s, i + n) else FindAllFrom(p, s, i + 1)
  }

  function FindAll(p: IdPattern, s: string): seq<string>
  {
    FindAllFrom(p, s, 0)
  }

  /** What a match of each pattern looks like as text. */
  predicate Shape(p: IdPattern, m: string)
  {
    match p
    case YandexId => |m| == 8 && AllDigits(m)
    case WhooshId =>
      |m| == 6 && IsWhooshLetter(m[0]) && IsWhooshLetter(m[1]) && AllDigits(m[2..])
    case JetId =>
      || (|m| == 6 && AllDigits(m))
      || (|m| == 7 && m[3] == '-' && AllDigits(m[..3]) && AllDigits(m[4..]))
    case LegacyWhooshId =>
      |m| == 6 && IsLatinLetter(m[0]) && IsLatinLetter(m[1]) && AllDigits(m[2..])
    case LegacyJetId => |m| == 6 && AllDigits(m)
  }

  /**
   * Every string `findall` returns has the shape of its pattern: a Yandex
   * id is eight digits, a Whoosh id two letters and four digits, a Jet id
   * three digits, an optional dash and three digits.
   */
  lemma {:induction false} FindAllShapes(p: IdPattern, s: string, i: nat)
    requires i <= |s|
    ensures forall m :: m in FindAllFrom(p, s, i) ==> Shape(p, m)
    decreases |s| - i
  {
    if i < |s| {
      var n := MatchLength(p, s, i);
      if n > 0 {
        FindAllShapes(p, s, i + n);
        var m := s[i..i + n];
        assert forall k :: 0 <= k < |m| ==> m[k] == s[i + k];
        match p
        case JetId =>
          if n == 7 {
            assert m[..3] == s[i..i + 3] && m[4..] == s[i + 4..i + 7];
          }
        case WhooshId => assert m[2..] == s[i + 2..i + 6];
        case LegacyWhooshId => assert m[2..] == s[i + 2..i + 6];
        case _ =>
      } else {
        FindAllShapes(p, s, i + 1);
      }
    }
  }

  /** The spans, from i on, of the matches `findall` reports: start and end of each, in order. */
  function MatchSpans(p: IdPattern, s: string, i: nat): (r: seq<(nat, nat)>)
    requires i <= |s|
    ensures forall k :: 0 <= k < |r| ==> i <= r[k].0 < r[k].1 <= |s|
    decreases |s| - i
  {
    if i == |s| then []
    else
      var n := MatchLength(p, s, i);
      if n > 0 then [(i, i + n)] + MatchSpans(p, s, i + n) else MatchSpans(p, s, i + 1)
  }

  /** Whether position j lies strictly inside one of the spans. */
  predicate Covered(spans: seq<(nat, nat)>, j: nat)
  {
    exists k :: 0 <= k < |spans| && spans[k].0 < j < spans[k].1
  }

  /** The strings `findall` returns are the text of the reported spans, in order. */
  lemma {:induction false} FindAllAtSpans(p: IdPattern, s: string, i: nat)
    requires i <= |s|
    ensures var sp := MatchSpans(p, s, i);
      && |FindAllFrom(p, s, i)| == |sp|
      && forall k :: 0 <= k < |sp| ==> FindAllFrom(p, s, i)[k] == s[sp[k].0..sp[k].1]
    decreases |s| - i
  {
    if i < |s| {
      var n := MatchLength(p, s, i);
      if n > 0 {
        FindAllAtSpans(p, s, i + n);
        TextsOfSpansCons(s, (i, i + n), MatchSpans(p, s, i + n), FindAllFrom(p, s, i + n));
      } else {
        FindAllAtSpans(p, s, i + 1);
      }
    }
  }

  lemma TextsOfSpansCons(s: string, span: (nat, nat), rest: seq<(nat, nat)>, later: seq<string>)
    requires span.0 <= span.1 <= |s|
    requires forall k :: 0 <= k < |rest| ==> rest[k].0 <= rest[k].1 <= |s|
    requires |later| == |rest| && forall k :: 0 <= k < |rest| ==> later[k] == s[rest[k].0..rest[k].1]
    ensures var sp, found := [span] + rest, [s[span.0..span.1]] + later;
      forall k :: 0 <= k < |sp| ==> found[k] == s[sp[k].0..sp[k].1]
  {
    var sp, found := [span] + rest, [s[span.0..span.1]] + later;
    forall k | 1 <= k < |sp|
      ensures found[k] == s[sp[k].0..sp[k].1]
    {
      assert sp[k] == rest[k - 1] && found[k] == later[k - 1];
    }
  }

  /**
   * The scan misses nothing: every position from i on where the pattern
   * matches starts a reported span, unless it lies inside a span
   * reported before it; its text is then among the strings returned.
   */
  lemma FindAllComplete(p: IdPattern, s: string, i: nat, j: nat)
    requires i <= j < |s| && MatchLength(p, s, j) > 0
    requires !Covered(MatchSpans(p, s, i), j)
    ensures (j, j + MatchLength(p, s, j)) in MatchSpans(p, s, i)
    ensures s[j..j + MatchLength(p, s, j)] in FindAllFrom(p, s, i)
  {
    SpanAtMatch(p, s, i, j);
    var sp := MatchSpans(p, s, i);
    var k :| 0 <= k < |sp| && sp[k] == (j, j + MatchLength(p, s, j));
    FindAllAtSpans(p, s, i);
    assert FindAllFrom(p, s, i)[k] == s[j..j + MatchLength(p, s, j)];
  }

  lemma {:induction false} SpanAtMatch(p: IdPattern, s: string, i: nat, j: nat)
    requires i <= j < |s| && MatchLength(p, s, j) > 0
    requires !Covered(MatchSpans(p, s, i), j)
    ensures (j, j + MatchLength(p, s, j)) in MatchSpans(p, s, i)
    decreases |s| - i
  {
    if j > i {
      var n := MatchLength(p, s, i);
      if n > 0 {
        UncoveredAfterSpan(p, s, i, j);
        SpanAtMatch(p, s, i + n, j);
        assert MatchSpans(p, s, i) == [(i, i + n)] + MatchSpans(p, s, i + n);
      } else {
        SpanAtMatch(p, s, i + 1, j);
      }
    }
  }

  /** A position not inside the first span is past it, and not inside any later span. */
  lemma UncoveredAfterSpan(p: IdPattern, s: string, i: nat, j: nat)
    requires i < j <= |s| && MatchLength(p, s, i) > 0
    requires !Covered(MatchSpans(p, s, i), j)
    ensures i + MatchLength(p, s, i) <= j
    ensures !Covered(MatchSpans(p, s, i + MatchLength(p, s, i)), j)
  {
    var n := MatchLength(p, s, i);
    var sp, rest := MatchSpans(p, s, i), MatchSpans(p, s, i + n);
    assert sp == [(i, i + n)] + rest;
    assert sp[0] == (i, i + n);
    forall k | 0 <= k < |rest|
      ensures !(rest[k].0 < j < rest[k].1)
    {
      assert sp[k + 1] == rest[k];
    }
  }

  /**
   * No Jet match starts inside an eight-digit Yandex match: the `\b` after
   * six digits, or the dash, can never be found in a run of eight digits.
   */
  lemma YandexExcludesJet(s: string, i: nat, k: nat)
    requires i <= |s| && MatchLength(YandexId, s, i) > 0
    requires i <= k < i + 8
    ensures MatchLength(JetId, s, k) == 0
  {
    if k > i {
      assert IsDigit(s[k - 1]) && IsDigit(s[k]);
    } else {
      assert IsDigit(s[i + 3]) && IsDigit(s[i + 5]) && IsDigit(s[i + 6]);
    }
  }

  // ---------------------------------------------------------------------
  // The batch shorthand
  // ---------------------------------------------------------------------

  /** One match of a batch pattern: the alias as written, the digits, and the span. */
  datatype BatchMatch = BatchMatch(alias: string, digits: string, start: nat, end: nat)

  /** The two batch patterns: config.py's and main.py's. */
  datatype BatchPattern =
    | CurrentBatch  // \b(whoosh|jet|yandex|вуш|джет|яндекс|w|j|y)\s+(\d+)\b, IGNORECASE
    | LegacyBatch   // (yandex|whoosh|jet)\s+(\d+), IGNORECASE

  const LegacyBatchAlternatives: seq<string> := ["yandex", "whoosh", "jet"]

  function SpaceRunEnd(s: string, j: nat): (e: nat)
    requires j <= |s|
    ensures j <= e <= |s|
    ensures forall k :: j <= k < e ==> IsSpace(s[k])
    ensures e == |s| || !IsSpace(s[e])
    decreases |s| - j
  {
    if j < |s| && IsSpace(s[j]) then SpaceRunEnd(s, j + 1) else j
  }

  function DigitRunEnd(s: string, j: nat): (e: nat)
    requires j <= |s|
    ensures j <= e <= |s|
    ensures forall k :: j <= k < e ==> IsDigit(s[k])
    ensures e == |s| || !IsDigit(s[e])
    decreases |s| - j
  {
    if j < |s| && IsDigit(s[j]) then DigitRunEnd(s, j + 1) else j
  }

  /**
   * `alt\s+(\d+)` at position i, followed by `\b` when `boundaryAfter`.
   * Both runs are taken whole: a shorter `\s+` leaves a blank where `\d`
   * must start, and a shorter `\d+` puts `\b` between two digits, so
   * backtracking finds no other match.
   */
  function AliasMatch(s: string, i: nat, alt: string, boundaryAfter: bool): (r: Option<BatchMatch>)
    requires i <= |s|
    ensures r.Some? ==> r.value.start == i && i < r.value.end <= |s|
    ensures r.Some? ==> LowerStr(r.value.alias) == alt
    ensures r.Some? ==> |r.value.digits| > 0 && AllDigits(r.value.digits)
  {
    if i + |alt| <= |s| && LowerStr(s[i..i + |alt|]) == alt then
      var j1 := SpaceRunEnd(s, i + |alt|);
      var j2 := DigitRunEnd(s, j1);
      if j1 > i + |alt| && j2 > j1 && (!boundaryAfter || Boundary(s, j2)) then
        assert forall k :: 0 <= k < j2 - j1 ==> s[j1..j2][k] == s[j1 + k];
        Some(BatchMatch(s[i..i + |alt|], s[j1..j2], i, j2))
      else None
    else None
  }

  /** The alternation: the first alternative, in pattern order, with which the whole match succeeds. */
  function FirstAlternative(s: string, i: nat, alts: seq<string>, boundaryAfter: bool): (r: Option<BatchMatch>)
    requires i <= |s|
    ensures r.Some? ==> r.value.start == i && i < r.value.end <= |s|
    ensures r.Some? ==> LowerStr(r.value.alias) in alts
    ensures r.Some? ==> |r.value.digits| > 0 && AllDigits(r.value.digits)
  {
    if alts == [] then None
    else match AliasMatch(s, i, alts[0], boundaryAfter)
      case Some(m) => Some(m)
      case None => FirstAlternative(s, i, alts[1..], boundaryAfter)
  }

  function BatchMatchAt(p: BatchPattern, s: string, i: nat): (r: Option<BatchMatch>)
    requires i <= |s|
    ensures r.Some? ==> r.value.start == i && i < r.value.end <= |s|
    ensures r.Some? ==> |r.value.digits| > 0 && AllDigits(r.value.digits)
  {
    match p
    case CurrentBatch => if Boundary(s, i) then FirstAlternative(s, i, Config.BatchAlternatives, true) else None
    case LegacyBatch => FirstAlternative(s, i, LegacyBatchAlternatives, false)
  }

  /** The matches of a batch pattern from position i on, left to right and disjoint. */
  function FindBatchesFrom(p: BatchPattern, s: string, i: nat): (r: seq<BatchMatch>)
    requires i <= |s|
    ensures forall k :: 0 <= k < |r| ==> i <= r[k].start < r[k].end <= |s|
    ensures forall j, k :: 0 <= j < k < |r| ==> r[j].end <= r[k].start
    decreases |s| - i
  {
    if i == |s| then []
    else match BatchMatchAt(p, s, i)
      case Some(m) => [m] + FindBatchesFrom(p, s, m.end)
      case None => FindBatchesFrom(p, s, i + 1)
  }

  /** Each span `findall` reports is the match the pattern makes at its start. */
  lemma {:induction false} FindBatchesFromAreMatches(p: BatchPattern, s: string, i: nat)
    requires i <= |s|
    ensures forall m :: m in FindBatchesFrom(p, s, i) ==> BatchMatchAt(p, s, m.start) == Some(m)
    decreases |s| - i
  {
    if i < |s| {
      match BatchMatchAt(p, s, i)
      case Some(m) => FindBatchesFromAreMatches(p, s, m.end);
      case None => FindBatchesFromAreMatches(p, s, i + 1);
    }
  }

  function FindBatches(p: BatchPattern, s: string): seq<BatchMatch>
  {
    FindBatchesFrom(p, s, 0)
  }

  /** A run of digits reaching the end of the text is taken whole. */
  lemma {:induction false} DigitRunToEnd(s: string, j: nat)
    requires j <= |s| && forall k :: j <= k < |s| ==> IsDigit(s[k])
    ensures DigitRunEnd(s, j) == |s|
    decreases |s| - j
  {
    if j < |s| {
      DigitRunToEnd(s, j + 1);
    }
  }

  /** The text "jet" followed by a space and a run of digits is one batch phrase, spanning all of it. */
  lemma JetPhraseScan(digits: string)
    requires |digits| > 0 && AllDigits(digits)
    ensures var s := "jet " + digits;
      FindBatches(CurrentBatch, s) == [BatchMatch("jet", digits, 0, |s|)]
  {
    var s := "jet " + digits;
    assert s[0] == 'j' && s[3] == ' ' && IsDigit(s[4]);
    assert Boundary(s, 0);
    if |s| >= 6 {
      assert LowerStr(s[0..6])[0] == 'j';
    }
    assert AliasMatch(s, 0, "whoosh", true).None?;
    Config.BatchAlternativesResolve();
    assert s[0..3] == "jet" && LowerStr("jet") == "jet";
    assert SpaceRunEnd(s, 4) == 4;
    assert SpaceRunEnd(s, 3) == 4;
    DigitRunToEnd(s, 4);
    assert s[4..|s|] == digits;
    assert Boundary(s, |s|);
    var m := BatchMatch("jet", digits, 0, |s|);
    assert AliasMatch(s, 0, "jet", true) == Some(m);
    var alts := Config.BatchAlternatives;
    assert alts[0] == "whoosh" && alts[1..][0] == "jet";
    assert FirstAlternative(s, 0, alts[1..], true) == Some(m);
    assert BatchMatchAt(CurrentBatch, s, 0) == Some(m);
    assert FindBatchesFrom(CurrentBatch, s, |s|) == [];
    assert FindBatchesFrom(CurrentBatch, s, 0) == [m] + FindBatchesFrom(CurrentBatch, s, |s|);
  }

  /** `pattern.sub('', s[i..])` continued from position i of the same text. */
  function SubBatchesFrom(p: BatchPattern, s: string, i: nat): string
    requires i <= |s|
    decreases |s| - i
  {
    if i == |s| then []
    else match BatchMatchAt(p, s, i)
      case Some(m) => SubBatchesFrom(p, s, m.end)
      case None => [s[i]] + SubBatchesFrom(p, s, i + 1)
  }

  function SubBatches(p: BatchPattern, s: string): string
  {
    SubBatchesFrom(p, s, 0)
  }

  /** The text from position i on with the given disjoint, ordered spans cut out. */
  function Outside(s: string, i: nat, ms: seq<BatchMatch>): string
    requires i <= |s|
    requires forall k :: 0 <= k < |ms| ==> i <= ms[k].start <= ms[k].end <= |s|
    requires forall j, k :: 0 <= j < k < |ms| ==> ms[j].end <= ms[k].start
    decreases |ms|
  {
    if ms == [] then s[i..]
    else s[i..ms[0].start] + Outside(s, ms[0].end, ms[1..])
  }

  /**
   * `sub` and `findall` agree: what `sub('')` leaves is exactly the text
   * outside the spans that `findall` reports, so no character of a batch
   * phrase, its quantity digits included, survives into the text that the
   * identifier patterns scan.
   */
  lemma {:induction false} SubRemovesExactlyTheMatches(p: BatchPattern, s: string, i: nat)
    requires i <= |s|
    ensures SubBatchesFrom(p, s, i) == Outside(s, i, FindBatchesFrom(p, s, i))
    decreases |s| - i
  {
    if i < |s| {
      var ms := FindBatchesFrom(p, s, i);
      var r := BatchMatchAt(p, s, i);
      if r.Some? {
        var m := r.value;
        SubRemovesExactlyTheMatches(p, s, m.end);
        SubAfterMatch(p, s, i, m, ms);
      } else {
        SubRemovesExactlyTheMatches(p, s, i + 1);
        assert ms == FindBatchesFrom(p, s, i + 1);
        assert SubBatchesFrom(p, s, i) == [s[i]] + SubBatchesFrom(p, s, i + 1);
        OutsideStep(s, i, ms);
      }
    }
  }

  lemma SubAfterMatch(p: BatchPattern, s: string, i: nat, m: BatchMatch, ms: seq<BatchMatch>)
    requires i < |s| && BatchMatchAt(p, s, i) == Some(m) && ms == FindBatchesFrom(p, s, i)
    ensures SubBatchesFrom(p, s, i) == SubBatchesFrom(p, s, m.end)
    ensures Outside(s, i, ms) == Outside(s, m.end, FindBatchesFrom(p, s, m.end))
  {
    var rest := FindBatchesFrom(p, s, m.end);
    assert ms == [m] + rest;
    assert ms[0] == m && ms[1..] == rest;
    assert s[i..m.start] == [];
    assert Outside(s, i, ms) == s[i..m.start] + Outside(s, m.end, rest);
  }

  lemma OutsideStep(s: string, i: nat, ms: seq<BatchMatch>)
    requires i < |s|
    requires forall k :: 0 <= k < |ms| ==> i + 1 <= ms[k].start <= ms[k].end <= |s|
    requires forall j, k :: 0 <= j < k < |ms| ==> ms[j].end <= ms[k].start
    ensures Outside(s, i, ms) == [s[i]] + Outside(s, i + 1, ms)
  {
    if ms != [] {
      var head := s[i + 1..ms[0].start];
      var rest := Outside(s, ms[0].end, ms[1..]);
      assert Outside(s, i, ms) == s[i..ms[0].start] + rest;
      assert Outside(s, i + 1, ms) == head + rest;
      assert s[i..ms[0].start] == [s[i]] + head;
      StringAssoc([s[i]], head, rest);
    } else {
      assert s[i..] == [s[i]] + s[i + 1..];
    }
  }

  lemma StringAssoc(a: string, b: string, c: string)
    ensures (a + b) + c == a + (b + c)
  {
  }

  /** Every alias that the current batch pattern matches, lower-cased, is a key of SERVICE_ALIASES. */
  lemma BatchAliasesResolve(s: string)
    ensures forall m :: m in FindBatches(CurrentBatch, s) ==> LowerStr(m.alias) in Config.ServiceAliases
  {
    Config.BatchAlternativesResolve();
    FindBatchesFromAreMatches(CurrentBatch, s, 0);
    forall m | m in FindBatches(CurrentBatch, s) ensures LowerStr(m.alias) in Config.ServiceAliases {
      assert LowerStr(m.alias) in Config.BatchAlternatives;
    }
  }

  /** Every alias that the earlier batch pattern matches, lower-cased, is a key of its service map. */
  lemma LegacyBatchAliasesResolve(s: string)
    ensures forall m :: m in FindBatches(LegacyBatch, s) ==> LowerStr(m.alias) in Config.ServiceMap
  {
    FindBatchesFromAreMatches(LegacyBatch, s, 0);
    forall m | m in FindBatches(LegacyBatch, s) ensures LowerStr(m.alias) in Config.ServiceMap {
      assert LowerStr(m.alias) in LegacyBatchAlternatives;
    }
  }
}
