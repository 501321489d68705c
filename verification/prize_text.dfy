/**
 * Reading the roulette prize list configured as text, as
 * `[int(p.strip()) for p in prizes.split(',')]` does in `spin_roulette`
 * (core/views.py): Python's `str.split` with an explicit separator,
 * `str.strip()` with no argument, and `int()` on a string.
 */
module PrizeText {
  import opened Wrappers

  const SEPARATOR: char := ','

  /** Characters for which Python's `str.isspace()` holds. */
  predicate IsSpace(c: char) {
    ('\t' <= c <= '\r') || ('\U{1c}' <= c <= '\U{1f}') || c == ' '
    || c == '\U{85}' || c == '\U{a0}' || c == '\U{1680}'
    || ('\U{2000}' <= c <= '\U{200a}') || c == '\U{2028}' || c == '\U{2029}'
    || c == '\U{202f}' || c == '\U{205f}' || c == '\U{3000}'
  }

  /** Removes the longest whitespace prefix. */
  function TrimStart(s: string): (t: string)
    ensures |t| <= |s| && t == s[|s| - |t|..]
    ensures t == [] || !IsSpace(t[0])
    ensures forall i :: 0 <= i < |s| - |t| ==> IsSpace(s[i])
  {
    if s != [] && IsSpace(s[0]) then
      var t := TrimStart(s[1..]);
      assert forall i :: 1 <= i < |s| ==> s[i] == s[1..][i - 1];
      t
    else s
  }

  /** Removes the longest whitespace suffix. */
  function TrimEnd(s: string): (t: string)
    ensures |t| <= |s| && t == s[..|t|]
    ensures t == [] || !IsSpace(t[|t| - 1])
    ensures forall i :: |t| <= i < |s| ==> IsSpace(s[i])
  {
    if s != [] && IsSpace(s[|s| - 1]) then
      var t := TrimEnd(s[..|s| - 1]);
      assert forall i :: 0 <= i < |s| - 1 ==> s[i] == s[..|s| - 1][i];
      t
    else s
  }

  /** `str.strip()` */
  function Strip(s: string): string {
    TrimEnd(TrimStart(s))
  }

  /** Joins pieces with the separator between consecutive ones. */
  function Join(parts: seq<string>, sep: char): string
    requires |parts| >= 1
  {
    if |parts| == 1 then parts[0] else parts[0] + [sep] + Join(parts[1..], sep)
  }

  /** `str.split(sep)`: the pieces between separators, empty pieces included. */
  function Split(s: string, sep: char): (parts: seq<string>)
    ensures |parts| >= 1
    ensures forall i :: 0 <= i < |parts| ==> sep !in parts[i]
    ensures Join(parts, sep) == s
  {
    if s == [] then [[]]
    else
      var rest := Split(s[1..], sep);
      if s[0] == sep then [[]] + rest
      else
        assert |rest| > 1 ==> rest == [rest[0]] + rest[1..];
        [[s[0]] + rest[0]] + rest[1..]
  }

  predicate IsDigit(c: char) {
    '0' <= c <= '9'
  }

  function DigitValue(c: char): nat {
    if IsDigit(c) then (c as int) - ('0' as int) else 0
  }

  function DigitChar(d: nat): (c: char)
    requires d < 10
    ensures IsDigit(c) && DigitValue(c) == d
  {
    ('0' as int + d) as char
  }

  /** The digits accepted by `int()`: at least one digit, and an underscore
      only between two digits. */
  predicate IsDigitRun(s: string) {
    |s| > 0 && IsDigit(s[0])
    && forall i :: 0 <= i < |s| ==> IsDigit(s[i]) || (s[i] == '_' && i + 1 < |s| && IsDigit(s[i + 1]))
  }

  /** The base-10 value of a run of digits, underscores skipped. */
  function DigitsValue(s: string): nat {
    if s == [] then 0
    else if s[|s| - 1] == '_' then DigitsValue(s[..|s| - 1])
    else DigitsValue(s[..|s| - 1]) * 10 + DigitValue(s[|s| - 1])
  }

  /** `int(s)` on a string: surrounding whitespace, an optional sign, then digits. */
  function ParseInt(s: string): Option<int> {
    var t := Strip(s);
    if |t| > 0 && (t[0] == '+' || t[0] == '-') then
      if IsDigitRun(t[1..]) then
        var magnitude: int := DigitsValue(t[1..]);
        Some(if t[0] == '-' then -magnitude else magnitude)
      else None
    else if IsDigitRun(t) then Some(DigitsValue(t))
    else None
  }

  /**
   * The integers of a list of per-piece results, or `None` as soon as one
   * piece failed (the first `ValueError` ends the comprehension).
   */
  function Collect(results: seq<Option<int>>): (r: Option<seq<int>>)
    ensures r.Some? ==> |r.value| == |results|
  {
    if results == [] then Some([])
    else
      match results[0]
      case None => None
      case Some(n) =>
        match Collect(results[1..])
        case None => None
        case Some(ns) => Some([n] + ns)
  }

  /** `int(p.strip())` for each piece, in order. */
  function ParsePieces(pieces: seq<string>): (r: seq<Option<int>>)
    ensures |r| == |pieces|
  {
    if pieces == [] then [] else [ParseInt(Strip(pieces[0]))] + ParsePieces(pieces[1..])
  }

  /** Parses every piece; one piece that is not an integer makes the whole list fail. */
  function ParseAll(pieces: seq<string>): (r: Option<seq<int>>)
    ensures r.Some? ==> |r.value| == |pieces|
  {
    Collect(ParsePieces(pieces))
  }

  /** `[int(p.strip()) for p in text.split(',')]`, or `None` where Python raises `ValueError`. */
  function ParsePrizes(text: string): (r: Option<seq<int>>)
    ensures r.Some? ==> |r.value| >= 1
  {
    ParseAll(Split(text, SEPARATOR))
  }

  lemma {:induction false} ParsePiecesAt(pieces: seq<string>, i: int)
    requires 0 <= i < |pieces|
    ensures ParsePieces(pieces)[i] == ParseInt(Strip(pieces[i]))
  {
    if i > 0 {
      ParsePiecesAt(pieces[1..], i - 1);
    }
  }

  lemma {:induction false} CollectAt(results: seq<Option<int>>, i: int)
    requires Collect(results).Some? && 0 <= i < |results|
    ensures results[i] == Some(Collect(results).value[i])
  {
    if i > 0 {
      CollectAt(results[1..], i - 1);
    }
  }

  lemma {:induction false} CollectFails(results: seq<Option<int>>)
    ensures Collect(results).None? <==> exists i :: 0 <= i < |results| && results[i].None?
  {
    if results != [] {
      CollectFails(results[1..]);
      if results[0].Some? && Collect(results[1..]).None? {
        var j :| 0 <= j < |results[1..]| && results[1..][j].None?;
        assert results[j + 1] == results[1..][j];
      }
      if Collect(results).Some? {
        forall i | 0 <= i < |results| ensures results[i].Some? {
          CollectAt(results, i);
        }
      }
    }
  }

  lemma {:induction false} CollectOf(results: seq<Option<int>>, values: seq<int>)
    requires |results| == |values|
    requires forall i :: 0 <= i < |results| ==> results[i] == Some(values[i])
    ensures Collect(results) == Some(values)
  {
    if results != [] {
      CollectOf(results[1..], values[1..]);
      assert [values[0]] + values[1..] == values;
    }
  }

  /** Entry `i` of a parsed list is `int(pieces[i].strip())`. */
  lemma ParseAllAt(pieces: seq<string>, i: int)
    requires ParseAll(pieces).Some? && 0 <= i < |pieces|
    ensures ParseInt(Strip(pieces[i])) == Some(ParseAll(pieces).value[i])
  {
    CollectAt(ParsePieces(pieces), i);
    ParsePiecesAt(pieces, i);
  }

  /** Parsing fails iff some piece is not an integer once stripped. */
  lemma ParseAllFails(pieces: seq<string>)
    ensures ParseAll(pieces).None? <==> exists i :: 0 <= i < |pieces| && ParseInt(Strip(pieces[i])).None?
  {
    var results := ParsePieces(pieces);
    CollectFails(results);
    forall i | 0 <= i < |pieces| ensures results[i] == ParseInt(Strip(pieces[i])) {
      ParsePiecesAt(pieces, i);
    }
  }

  /** When every stripped piece is an integer, the parse is exactly those integers. */
  lemma ParseAllOf(pieces: seq<string>, values: seq<int>)
    requires |pieces| == |values|
    requires forall i :: 0 <= i < |pieces| ==> ParseInt(Strip(pieces[i])) == Some(values[i])
    ensures ParseAll(pieces) == Some(values)
  {
    var results := ParsePieces(pieces);
    forall i | 0 <= i < |pieces| ensures results[i] == Some(values[i]) {
      ParsePiecesAt(pieces, i);
    }
    CollectOf(results, values);
  }

  /** Some piece is not an integer once stripped. */
  predicate SomePieceFails(pieces: seq<string>) {
    exists j :: 0 <= j < |pieces| && ParseInt(Strip(pieces[j])).None?
  }

  /** A prize text fails to parse iff some comma-separated piece is not an integer once stripped. */
  lemma ParsePrizesFails(text: string)
    ensures ParsePrizes(text).None? <==> SomePieceFails(Split(text, SEPARATOR))
  {
    var pieces := Split(text, SEPARATOR);
    assert ParsePrizes(text) == ParseAll(pieces);
    ParseAllFails(pieces);
  }

  /** In a prize text that parses, prize i is the value of piece i. */
  lemma ParsePrizesAt(text: string, i: int)
    requires 0 <= i < |Split(text, SEPARATOR)|
    ensures ParsePrizes(text).Some? ==> ParseInt(Strip(Split(text, SEPARATOR)[i])) == Some(ParsePrizes(text).value[i])
  {
    var pieces := Split(text, SEPARATOR);
    if ParseAll(pieces).Some? {
      ParseAllAt(pieces, i);
    }
  }

  lemma {:induction false} TrimStartPadded(left: string, s: string)
    requires forall i :: 0 <= i < |left| ==> IsSpace(left[i])
    requires s == [] || !IsSpace(s[0])
    ensures TrimStart(left + s) == s
  {
    if left != [] {
      assert (left + s)[1..] == left[1..] + s;
      TrimStartPadded(left[1..], s);
    } else {
      assert left + s == s;
    }
  }

  lemma {:induction false} TrimEndPadded(s: string, right: string)
    requires forall i :: 0 <= i < |right| ==> IsSpace(right[i])
    requires s == [] || !IsSpace(s[|s| - 1])
    ensures TrimEnd(s + right) == s
  {
    if right != [] {
      assert (s + right)[..|s + right| - 1] == s + right[..|right| - 1];
      TrimEndPadded(s, right[..|right| - 1]);
    } else {
      assert s + right == s;
    }
  }

  /** `str.strip()` removes whitespace padding around a word whose ends are not whitespace. */
  lemma StripPadded(left: string, s: string, right: string)
    requires forall i :: 0 <= i < |left| ==> IsSpace(left[i])
    requires forall i :: 0 <= i < |right| ==> IsSpace(right[i])
    requires s != [] && !IsSpace(s[0]) && !IsSpace(s[|s| - 1])
    ensures Strip(left + s + right) == s
  {
    assert left + s + right == left + (s + right);
    TrimStartPadded(left, s + right);
    TrimEndPadded(s, right);
  }

  // ----- Writing a prize list, and reading it back -----

  /** `str(n)` for a natural number. */
  function NatToDecimal(n: nat): (s: string)
    ensures IsDigitRun(s)
    ensures forall i :: 0 <= i < |s| ==> IsDigit(s[i])
  {
    if n < 10 then [DigitChar(n)] else NatToDecimal(n / 10) + [DigitChar(n % 10)]
  }

  /** `str(n)` */
  function IntToDecimal(n: int): string {
    if n < 0 then "-" + NatToDecimal(-n) else NatToDecimal(n)
  }

  /** `','.join(str(p) for p in prizes)` */
  function FormatPrizes(prizes: seq<int>): string
    requires |prizes| >= 1
  {
    Join(DecimalPieces(prizes), SEPARATOR)
  }

  function DecimalPieces(prizes: seq<int>): (pieces: seq<string>)
    ensures |pieces| == |prizes|
    ensures forall i :: 0 <= i < |prizes| ==> pieces[i] == IntToDecimal(prizes[i])
  {
    if prizes == [] then [] else [IntToDecimal(prizes[0])] + DecimalPieces(prizes[1..])
  }

  lemma {:induction false} NatToDecimalValue(n: nat)
    ensures DigitsValue(NatToDecimal(n)) == n
  {
    if n >= 10 {
      NatToDecimalValue(n / 10);
      var s := NatToDecimal(n / 10) + [DigitChar(n % 10)];
      assert s[..|s| - 1] == NatToDecimal(n / 10);
    }
  }

  lemma StripUnchanged(s: string)
    requires s == [] || (!IsSpace(s[0]) && !IsSpace(s[|s| - 1]))
    ensures Strip(s) == s
  {
  }

  /** `int(str(n).strip()) == n` */
  lemma ParseIntDecimal(n: int)
    ensures Strip(IntToDecimal(n)) == IntToDecimal(n)
    ensures ParseInt(IntToDecimal(n)) == Some(n)
  {
    var t := IntToDecimal(n);
    StripUnchanged(t);
    if n < 0 {
      var d := NatToDecimal(-n);
      assert t[0] == '-' && t[1..] == d;
      NatToDecimalValue(-n);
      var magnitude: int := DigitsValue(d);
      assert ParseInt(t) == Some(-magnitude);
    } else {
      assert IsDigit(t[0]);
      NatToDecimalValue(n);
      assert ParseInt(t) == Some(DigitsValue(t));
    }
  }

  lemma {:induction false} SplitPiece(p: string, sep: char, rest: string)
    requires sep !in p
    ensures Split(p + [sep] + rest, sep) == [p] + Split(rest, sep)
  {
    if p != [] {
      var whole := p + [sep] + rest;
      assert whole[0] == p[0] && whole[1..] == p[1..] + [sep] + rest;
      SplitPiece(p[1..], sep, rest);
      var tail := Split(whole[1..], sep);
      assert tail[0] == p[1..] && tail[1..] == Split(rest, sep);
      assert [p[0]] + p[1..] == p;
    } else {
      assert (p + [sep] + rest)[1..] == rest;
    }
  }

  lemma {:induction false} SplitWhole(p: string, sep: char)
    requires sep !in p
    ensures Split(p, sep) == [p]
  {
    if p != [] {
      SplitWhole(p[1..], sep);
    }
  }

  /** Splitting what was joined gives back the pieces, when no piece holds the separator. */
  lemma {:induction false} SplitJoin(parts: seq<string>, sep: char)
    requires |parts| >= 1
    requires forall i :: 0 <= i < |parts| ==> sep !in parts[i]
    ensures Split(Join(parts, sep), sep) == parts
  {
    if |parts| == 1 {
      SplitWhole(parts[0], sep);
    } else {
      SplitJoin(parts[1..], sep);
      SplitPiece(parts[0], sep, Join(parts[1..], sep));
    }
  }

  lemma ParseAllDecimal(prizes: seq<int>)
    ensures ParseAll(DecimalPieces(prizes)) == Some(prizes)
  {
    var pieces := DecimalPieces(prizes);
    forall i | 0 <= i < |pieces| ensures ParseInt(Strip(pieces[i])) == Some(prizes[i]) {
      ParseIntDecimal(prizes[i]);
    }
    ParseAllOf(pieces, prizes);
  }

  /**
   * Pieces that strip to decimal integers, comma-separated, read back as
   * those integers, whatever whitespace surrounds each of them.
   */
  lemma ParsePrizesPadded(pieces: seq<string>, prizes: seq<int>)
    requires |pieces| == |prizes| >= 1
    requires forall i :: 0 <= i < |pieces| ==> SEPARATOR !in pieces[i] && Strip(pieces[i]) == IntToDecimal(prizes[i])
    ensures ParsePrizes(Join(pieces, SEPARATOR)) == Some(prizes)
  {
    SplitJoin(pieces, SEPARATOR);
    forall i | 0 <= i < |pieces| ensures ParseInt(Strip(pieces[i])) == Some(prizes[i]) {
      ParseIntDecimal(prizes[i]);
    }
    ParseAllOf(pieces, prizes);
  }

  /** `str(n)` neither starts nor ends with whitespace. */
  lemma DecimalEnds(n: int)
    ensures |IntToDecimal(n)| > 0
    ensures !IsSpace(IntToDecimal(n)[0]) && !IsSpace(IntToDecimal(n)[|IntToDecimal(n)| - 1])
  {
    var t := IntToDecimal(n);
    if n < 0 {
      assert t[0] == '-' && t[|t| - 1] == NatToDecimal(-n)[|NatToDecimal(-n)| - 1];
    }
  }

  /** `str(n)` holds only a sign and digits, so never the separator. */
  lemma DecimalChars(n: int)
    ensures forall k :: 0 <= k < |IntToDecimal(n)| ==> IntToDecimal(n)[k] == '-' || IsDigit(IntToDecimal(n)[k])
    ensures SEPARATOR !in IntToDecimal(n)
  {
    var t := IntToDecimal(n);
    if n < 0 {
      var d := NatToDecimal(-n);
      assert forall k :: 1 <= k < |t| ==> t[k] == d[k - 1];
    }
  }

  /** `', '.join(str(p) for p in prizes)`: the pieces, each after the first preceded by a space. */
  function SpacedPieces(prizes: seq<int>): (pieces: seq<string>)
    ensures |pieces| == |prizes|
    ensures forall i :: 0 <= i < |prizes| ==> pieces[i] == (if i == 0 then [] else " ") + IntToDecimal(prizes[i])
  {
    seq(|prizes|, i requires 0 <= i < |prizes| => (if i == 0 then [] else " ") + IntToDecimal(prizes[i]))
  }

  /** A prize list written with a space after every comma reads back as the same list. */
  lemma ParsePrizesSpaced(prizes: seq<int>)
    requires |prizes| >= 1
    ensures ParsePrizes(Join(SpacedPieces(prizes), SEPARATOR)) == Some(prizes)
  {
    var pieces := SpacedPieces(prizes);
    forall i | 0 <= i < |pieces|
      ensures SEPARATOR !in pieces[i] && Strip(pieces[i]) == IntToDecimal(prizes[i])
    {
      var d := IntToDecimal(prizes[i]);
      var left: string := if i == 0 then [] else " ";
      DecimalEnds(prizes[i]);
      ParseIntDecimal(prizes[i]);
      DecimalChars(prizes[i]);
      StripPadded(left, d, []);
      assert left + d + [] == pieces[i];
    }
    ParsePrizesPadded(pieces, prizes);
  }

  /** Round trip: the configuration written from a list of integers reads back as that list. */
  lemma ParsePrizesFormat(prizes: seq<int>)
    requires |prizes| >= 1
    ensures ParsePrizes(FormatPrizes(prizes)) == Some(prizes)
  {
    var pieces := DecimalPieces(prizes);
    forall i | 0 <= i < |pieces| ensures SEPARATOR !in pieces[i] {
      assert pieces[i] == IntToDecimal(prizes[i]);
    }
    SplitJoin(pieces, SEPARATOR);
    ParseAllDecimal(prizes);
  }
}
