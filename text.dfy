/**
 * Characters and strings as the bot's Python code treats them.
 *
 * The character classes cover ASCII and the basic Cyrillic block only:
 * `\d` is an ASCII digit, `\w` a Latin or Cyrillic letter, a digit or `_`,
 * and case mapping pairs A-Z with a-z, А-Я with а-я and Ё with ё. The
 * class `\s` is complete: every character Python counts as whitespace.
 */
module Text {
  import opened Wrappers

  predicate IsDigit(c: char) { '0' <= c <= '9' }
  predicate IsLatinUpper(c: char) { 'A' <= c <= 'Z' }
  predicate IsLatinLower(c: char) { 'a' <= c <= 'z' }
  predicate IsCyrillicUpper(c: char) { 'А' <= c <= 'Я' }
  predicate IsCyrillicLower(c: char) { 'а' <= c <= 'я' }

  predicate IsLetter(c: char)
  {
    IsLatinUpper(c) || IsLatinLower(c) || IsCyrillicUpper(c) || IsCyrillicLower(c) || c == 'Ё' || c == 'ё'
  }

  /** The class `\w`, which decides where `\b` holds. */
  predicate IsWordChar(c: char) { IsLetter(c) || IsDigit(c) || c == '_' }

  /**
   * The class `\s`, and what `str.strip()`, `str.split()` and `int()`
   * treat as blank: the characters of `str.isspace()`.
   */
  predicate IsSpace(c: char)
  {
    || ('\t' <= c <= '\r') || ('\U{1C}' <= c <= ' ')
    || c == '\U{85}' || c == '\U{A0}' || c == '\U{1680}'
    || ('\U{2000}' <= c <= '\U{200A}') || c == '\U{2028}' || c == '\U{2029}'
    || c == '\U{202F}' || c == '\U{205F}' || c == '\U{3000}'
  }

  function Lower(c: char): char
  {
    if IsLatinUpper(c) || IsCyrillicUpper(c) then (c as int + 32) as char
    else if c == 'Ё' then 'ё'
    else c
  }

  function Upper(c: char): char
  {
    if IsLatinLower(c) || IsCyrillicLower(c) then (c as int - 32) as char
    else if c == 'ё' then 'Ё'
    else c
  }

  function LowerStr(s: string): string
  {
    seq(|s|, i requires 0 <= i < |s| => Lower(s[i]))
  }

  function UpperStr(s: string): string
  {
    seq(|s|, i requires 0 <= i < |s| => Upper(s[i]))
  }

  predicate AllDigits(s: string)
  {
    forall i :: 0 <= i < |s| ==> IsDigit(s[i])
  }

  /** `s.replace(x, '')` for a one-character `x`. */
  function RemoveChar(s: string, x: char): string
  {
    if s == [] then []
    else (if s[0] == x then [] else [s[0]]) + RemoveChar(s[1..], x)
  }

  /** The identifier normalisation `num.replace('-', '').upper()`. */
  function Normalize(s: string): string
  {
    UpperStr(RemoveChar(s, '-'))
  }

  lemma {:induction false} RemoveCharRemoves(s: string, x: char)
    ensures x !in RemoveChar(s, x)
    ensures |RemoveChar(s, x)| <= |s|
    ensures forall c :: c in RemoveChar(s, x) ==> c in s
  {
    if s != [] {
      RemoveCharRemoves(s[1..], x);
    }
  }

  lemma {:induction false} UpperCommutesWithDashRemoval(s: string)
    ensures UpperStr(RemoveChar(s, '-')) == RemoveChar(UpperStr(s), '-')
  {
    if s != [] {
      UpperCommutesWithDashRemoval(s[1..]);
      assert UpperStr(s)[1..] == UpperStr(s[1..]);
      assert UpperStr([s[0]] + RemoveChar(s[1..], '-')) == [Upper(s[0])] + UpperStr(RemoveChar(s[1..], '-'));
    }
  }

  /**
   * Normalising an identifier twice changes nothing, and removing dashes
   * before or after upper-casing gives the same result, so the lookup key
   * built by `/find_scooter` and `/delete_scooter` (upper-case, then strip
   * dashes) equals the key that extraction stores (strip dashes, then
   * upper-case).
   */
  lemma NormalizeIdempotent(s: string)
    ensures Normalize(Normalize(s)) == Normalize(s)
    ensures Normalize(s) == RemoveChar(UpperStr(s), '-')
    ensures '-' !in Normalize(s)
  {
    var d := RemoveChar(s, '-');
    var n := UpperStr(d);
    UpperCommutesWithDashRemoval(s);
    RemoveCharRemoves(UpperStr(s), '-');
    assert '-' !in n;
    RemoveCharAbsent(n, '-');
    assert Normalize(n) == UpperStr(n);
    UpperStrIdempotent(d);
  }

  lemma UpperStrIdempotent(s: string)
    ensures UpperStr(UpperStr(s)) == UpperStr(s)
  {
    forall i | 0 <= i < |s| ensures Upper(Upper(s[i])) == Upper(s[i]) {
    }
  }

  lemma {:induction false} RemoveCharAbsent(s: string, x: char)
    requires x !in s
    ensures RemoveChar(s, x) == s
  {
    if s != [] {
      RemoveCharAbsent(s[1..], x);
    }
  }

  // ---------------------------------------------------------------------
  // Python str.strip() and str.lstrip(chars)
  // ---------------------------------------------------------------------

  function LStrip(s: string): (r: string)
    ensures |r| <= |s| && r == s[|s| - |r|..]
    ensures r == [] || !IsSpace(r[0])
  {
    if s != [] && IsSpace(s[0]) then LStrip(s[1..]) else s
  }

  function RStrip(s: string): string
  {
    if s != [] && IsSpace(s[|s| - 1]) then RStrip(s[..|s| - 1]) else s
  }

  function Strip(s: string): string
  {
    RStrip(LStrip(s))
  }

  /** `s.lstrip(x)` for a one-character `x`. */
  function LStripChar(s: string, x: char): string
  {
    if s != [] && s[0] == x then LStripChar(s[1..], x) else s
  }

  lemma {:induction false} StripOfBlank(s: string)
    requires forall i :: 0 <= i < |s| ==> IsSpace(s[i])
    ensures Strip(s) == ""
  {
    if s != [] {
      StripOfBlank(s[1..]);
    }
  }

  // ---------------------------------------------------------------------
  // Separators: "\n".join(...) and str.split(',')
  // ---------------------------------------------------------------------

  /** `sep.join(parts)` */
  function JoinWith(parts: seq<string>, sep: string): string
  {
    if |parts| == 0 then ""
    else if |parts| == 1 then parts[0]
    else parts[0] + sep + JoinWith(parts[1..], sep)
  }

  lemma {:induction false} JoinWithAppend(parts: seq<string>, sep: string, x: string)
    requires parts != []
    ensures JoinWith(parts + [x], sep) == JoinWith(parts, sep) + sep + x
  {
    if |parts| > 1 {
      JoinWithAppend(parts[1..], sep, x);
      assert (parts + [x])[1..] == parts[1..] + [x];
    }
  }

  /** `s.split(x)` for a one-character separator `x`. */
  function SplitOn(s: string, x: char): (r: seq<string>)
    ensures |r| >= 1
  {
    if |s| == 0 then [""]
    else if s[0] == x then [""] + SplitOn(s[1..], x)
    else
      var rest := SplitOn(s[1..], x);
      [[s[0]] + rest[0]] + rest[1..]
  }

  /** Splitting on a character and joining the pieces back with it is the identity. */
  lemma {:induction false} SplitJoinRoundTrip(s: string, x: char)
    ensures JoinWith(SplitOn(s, x), [x]) == s
    ensures forall k :: 0 <= k < |SplitOn(s, x)| ==> x !in SplitOn(s, x)[k]
  {
    if |s| > 0 {
      var rest := SplitOn(s[1..], x);
      SplitJoinRoundTrip(s[1..], x);
      if s[0] == x {
        assert SplitOn(s, x) == [""] + rest;
        assert (([""] + rest)[1..]) == rest;
      } else {
        var r := SplitOn(s, x);
        assert r == [[s[0]] + rest[0]] + rest[1..];
        assert r[1..] == rest[1..];
        if |rest| > 1 {
          assert JoinWith(rest, [x]) == rest[0] + [x] + JoinWith(rest[1..], [x]);
        }
        forall k | 0 <= k < |r| ensures x !in r[k] {
          if k > 0 { assert r[k] == rest[k]; }
        }
      }
    }
  }

  // ---------------------------------------------------------------------
  // str.split() with no argument
  // ---------------------------------------------------------------------

  /** A word of `str.split()`: non-empty, without whitespace. */
  predicate IsWord(w: string)
  {
    w != [] && forall i :: 0 <= i < |w| ==> !IsSpace(w[i])
  }

  /** The end of the run of non-space characters that starts at i. */
  function WordEnd(s: string, i: nat): (j: nat)
    requires i <= |s|
    ensures i <= j <= |s|
    ensures forall k :: i <= k < j ==> !IsSpace(s[k])
    ensures j == |s| || IsSpace(s[j])
    decreases |s| - i
  {
    if i < |s| && !IsSpace(s[i]) then WordEnd(s, i + 1) else i
  }

  /** `s.split()`: the maximal runs of non-space characters, in order. */
  function Words(s: string): seq<string>
    decreases |s|, 1
  {
    WordsFrom(LStrip(s))
  }

  /** The words of a text that does not start with whitespace: the first run, then the words after it. */
  function WordsFrom(t: string): seq<string>
    requires t == [] || !IsSpace(t[0])
    decreases |t|, 0
  {
    if t == [] then []
    else
      var j := WordEnd(t, 0);
      assert 0 < j by { assert WordEnd(t, 0) == WordEnd(t, 1); }
      [t[..j]] + Words(t[j..])
  }

  /** `split()` yields only words: non-empty and without whitespace. */
  lemma {:induction false} WordsAreWords(s: string)
    ensures AllWords(Words(s))
    decreases |s|, 1
  {
    WordsFromAreWords(LStrip(s));
  }

  lemma {:induction false} WordsFromAreWords(t: string)
    requires t == [] || !IsSpace(t[0])
    ensures AllWords(WordsFrom(t))
    decreases |t|, 0
  {
    if t != [] {
      var j := WordEnd(t, 0);
      assert 0 < j by { assert WordEnd(t, 0) == WordEnd(t, 1); }
      WordsAreWords(t[j..]);
      PrefixIsWord(t, j);
      AllWordsCons(t[..j], Words(t[j..]));
    }
  }

  lemma AllWordsCons(w: string, rest: seq<string>)
    requires IsWord(w) && AllWords(rest)
    ensures AllWords([w] + rest)
  {
    assert ([w] + rest)[1..] == rest;
  }

  lemma PrefixIsWord(t: string, j: nat)
    requires 0 < j <= |t| && forall k :: 0 <= k < j ==> !IsSpace(t[k])
    ensures IsWord(t[..j])
  {
    forall k | 0 <= k < j ensures !IsSpace(t[..j][k]) {
      assert t[..j][k] == t[k];
    }
  }

  lemma {:induction false} WordEndOfWord(w: string, rest: string, i: nat)
    requires IsWord(w) && i <= |w|
    requires rest == [] || IsSpace(rest[0])
    ensures WordEnd(w + rest, i) == |w|
    decreases |w| - i
  {
    if i < |w| {
      assert (w + rest)[i] == w[i];
      WordEndOfWord(w, rest, i + 1);
    } else if rest != [] {
      assert (w + rest)[i] == rest[0];
    }
  }

  lemma WordsCons(w: string, rest: string)
    requires IsWord(w)
    requires rest == [] || IsSpace(rest[0])
    ensures Words(w + rest) == [w] + Words(rest)
  {
    var s := w + rest;
    assert s[0] == w[0];
    assert LStrip(s) == s;
    WordEndOfWord(w, rest, 0);
    assert s[..|w|] == w;
    assert s[|w|..] == rest;
  }

  lemma WordsSkipSpace(c: char, x: string)
    requires IsSpace(c)
    ensures Words([c] + x) == Words(x)
  {
    assert ([c] + x)[1..] == x;
    assert LStrip([c] + x) == LStrip(x);
  }

  /** Every element of ws is a word. */
  predicate AllWords(ws: seq<string>)
  {
    ws == [] || (IsWord(ws[0]) && AllWords(ws[1..]))
  }

  lemma WordsOfJoinStep(ws: seq<string>)
    requires |ws| > 1 && IsWord(ws[0])
    ensures Words(JoinWith(ws, " ")) == [ws[0]] + Words(JoinWith(ws[1..], " "))
  {
    var w := ws[0];
    var tail := JoinWith(ws[1..], " ");
    assert JoinWith(ws, " ") == w + " " + tail;
    assert w + " " + tail == w + (" " + tail);
    WordsCons(w, " " + tail);
    WordsSkipSpace(' ', tail);
  }

  lemma WordsOfOne(w: string)
    requires IsWord(w)
    ensures Words(w) == [w]
  {
    WordsCons(w, []);
    assert w + [] == w;
    assert Words([]) == [];
  }

  /**
   * Splitting words joined by single spaces gives the words back, so a
   * command's arguments are exactly the words typed after it.
   */
  lemma {:induction false} WordsOfJoin(ws: seq<string>)
    requires AllWords(ws)
    ensures Words(JoinWith(ws, " ")) == ws
  {
    if |ws| == 0 {
      WordsOfNothing();
    } else if |ws| == 1 {
      WordsOfJoinOne(ws);
    } else {
      WordsOfJoinStep(ws);
      WordsOfJoin(ws[1..]);
      assert [ws[0]] + ws[1..] == ws;
    }
  }

  lemma WordsOfJoinOne(ws: seq<string>)
    requires |ws| == 1 && AllWords(ws)
    ensures Words(JoinWith(ws, " ")) == ws
  {
    WordsOfOne(ws[0]);
    assert JoinWith(ws, " ") == ws[0];
    assert [ws[0]] == ws;
  }

  lemma WordsOfNothing()
    ensures Words([]) == []
  {
    assert LStrip([]) == [];
  }




  // ---------------------------------------------------------------------
  // Decimal numbers: str(n) and int(s)
  // ---------------------------------------------------------------------

  function DigitChar(d: nat): char
    requires d < 10
  {
    ('0' as int + d) as char
  }

  function DigitValue(c: char): nat
    requires IsDigit(c)
  {
    c as int - '0' as int
  }

  /** The value of a run of decimal digits; `int("007") == 7`. */
  function DecimalValue(s: string): nat
    requires AllDigits(s)
  {
    if s == [] then 0 else DecimalValue(s[..|s| - 1]) * 10 + DigitValue(s[|s| - 1])
  }

  /** `str(n)` for a natural number. */
  function NatToString(n: nat): string
  {
    if n < 10 then [DigitChar(n)] else NatToString(n / 10) + [DigitChar(n % 10)]
  }

  /** `str(i)` for any integer. */
  function IntToString(i: int): string
  {
    if i < 0 then "-" + NatToString(-i) else NatToString(i)
  }

  /** Reading back the decimal text of a number gives the number. */
  lemma {:induction false} NatToStringRoundTrip(n: nat)
    ensures |NatToString(n)| > 0 && AllDigits(NatToString(n))
    ensures DecimalValue(NatToString(n)) == n
  {
    if n >= 10 {
      NatToStringRoundTrip(n / 10);
      var s := NatToString(n);
      assert s[..|s| - 1] == NatToString(n / 10);
    }
  }

  /**
   * The digit text accepted by Python's `int()`: ASCII digits, with single
   * underscores allowed between two digits (`int("1_0") == 10`).
   */
  predicate IsDecimalLiteral(s: string)
  {
    && |s| > 0
    && IsDigit(s[0])
    && IsDigit(s[|s| - 1])
    && (forall i :: 0 <= i < |s| ==> IsDigit(s[i]) || s[i] == '_')
    && (forall i :: 0 <= i < |s| - 1 ==> s[i] == '_' ==> s[i + 1] != '_')
  }

  lemma {:induction false} RemoveUnderscoresOfLiteral(s: string)
    requires forall i :: 0 <= i < |s| ==> IsDigit(s[i]) || s[i] == '_'
    ensures AllDigits(RemoveChar(s, '_'))
  {
    if s != [] {
      RemoveUnderscoresOfLiteral(s[1..]);
    }
  }

  function LiteralValue(s: string): nat
    requires IsDecimalLiteral(s)
  {
    RemoveUnderscoresOfLiteral(s);
    DecimalValue(RemoveChar(s, '_'))
  }

  /**
   * Python's `int(s)` on a string: surrounding whitespace is ignored, one
   * optional sign, then a decimal literal; anything else is a ValueError,
   * modelled as None.
   */
  function ParseInt(s: string): Option<int>
  {
    var t := Strip(s);
    if |t| > 0 && (t[0] == '+' || t[0] == '-') then
      if IsDecimalLiteral(t[1..]) then
        var v: int := LiteralValue(t[1..]);
        Some(if t[0] == '-' then -v else v)
      else None
    else if IsDecimalLiteral(t) then Some(LiteralValue(t))
    else None
  }

  /** `int(str(i)) == i`: the decimal text of every integer parses back to it. */
  lemma ParseIntOfIntToString(i: int)
    ensures ParseInt(IntToString(i)) == Some(i)
  {
    if i < 0 {
      ParseIntOfNegative(i);
    } else {
      ParseIntOfNatToString(i);
    }
  }

  lemma ParseIntOfNatToString(n: nat)
    ensures ParseInt(NatToString(n)) == Some(n)
  {
    var d := NatToString(n);
    LiteralOfDigits(n);
    NumeralUnstripped(d);
    assert !(d[0] == '+' || d[0] == '-');
  }

  lemma ParseIntOfNegative(i: int)
    requires i < 0
    ensures ParseInt(IntToString(i)) == Some(i)
  {
    var d := NatToString(-i);
    LiteralOfDigits(-i);
    var s := IntToString(i);
    assert s == "-" + d;
    NumeralUnstripped(s);
    assert s[1..] == d;
    ParseIntOfMinus(s);
  }

  /** A minus sign before a decimal literal, with nothing to strip, reads as the negated literal. */
  lemma ParseIntOfMinus(s: string)
    requires |s| > 1 && s[0] == '-' && Strip(s) == s && IsDecimalLiteral(s[1..])
    ensures ParseInt(s) == Some(-(LiteralValue(s[1..]) as int))
  {
    var t := Strip(s);
    assert t[0] == '-' && t[1..] == s[1..];
  }

  lemma LiteralOfDigits(n: nat)
    ensures IsDecimalLiteral(NatToString(n)) && LiteralValue(NatToString(n)) == n
    ensures IsDigit(NatToString(n)[0]) && IsDigit(NatToString(n)[|NatToString(n)| - 1])
  {
    var d := NatToString(n);
    NatToStringRoundTrip(n);
    assert forall k :: 0 <= k < |d| ==> d[k] != '_';
    RemoveCharAbsent(d, '_');
  }

  /** A numeral, signed or not, has nothing for `strip()` to remove. */
  lemma NumeralUnstripped(s: string)
    requires s != [] && (IsDigit(s[0]) || s[0] == '-') && IsDigit(s[|s| - 1])
    ensures Strip(s) == s
  {
    NoSpaceToStrip(s);
  }

  lemma NoSpaceToStrip(s: string)
    requires s != [] && !IsSpace(s[0]) && !IsSpace(s[|s| - 1])
    ensures Strip(s) == s
  {
  }
}
