/** The lexemes of the grammar, spelled out: what a number is made of, and which text each character can be written as.
    Sections 6 and 7 of RFC 8259. */
module JsonSpelling {
  import opened Options
  import opened JsonGrammar

  // ----- Numbers -----

  /** One or more digits from `i` up to `j`. */
  ghost predicate Digits(s: string, i: nat, j: nat) {
    i < j <= |s| && forall k | i <= k < j :: '0' <= s[k] <= '9'
  }

  /** Sign, integer, fraction and exponent of a number: the integer ends at `w`, the fraction at `f`. */
  ghost predicate NumberParts(s: string, w: nat, f: nat) {
    && IntegerPart(s, w) && w <= f <= |s|
    && (f == w || (s[w] == '.' && Digits(s, w + 1, f)))
    && (f == |s| || ExponentPart(s, f))
  }

  ghost predicate IntegerPart(s: string, w: nat) {
    s != ""
    && var start := if s[0] == '-' then 1 else 0;
       Digits(s, start, w) && (s[start] == '0' ==> w == start + 1)
  }

  ghost predicate ExponentPart(s: string, f: nat)
    requires f < |s|
  {
    (s[f] == 'e' || s[f] == 'E')
    && (Digits(s, f + 1, |s|) || (f + 1 < |s| && (s[f + 1] == '+' || s[f + 1] == '-') && Digits(s, f + 2, |s|)))
  }

  lemma {:induction false} DigitsEndIs(s: string, i: nat, e: nat)
    requires i <= e <= |s| && (forall k | i <= k < e :: IsDigit(s[k])) && (e < |s| ==> !IsDigit(s[e]))
    ensures DigitsEnd(s, i) == e
    decreases e - i
  {
    if i < e { DigitsEndIs(s, i + 1, e); }
  }

  lemma IntegerEnds(s: string, w: nat)
    requires IntegerPart(s, w) && (w < |s| ==> !IsDigit(s[w]))
    ensures DigitsEnd(s, if s[0] == '-' then 1 else 0) == w
  {
    DigitsEndIs(s, if s[0] == '-' then 1 else 0, w);
  }

  lemma FractionEnds(s: string, w: nat, f: nat)
    requires w <= f <= |s| && (if f == w then w < |s| ==> s[w] != '.' else s[w] == '.' && Digits(s, w + 1, f))
    requires f < |s| ==> !IsDigit(s[f])
    ensures FractionEnd(s, w) == Some(f)
  {
    if w < f { DigitsEndIs(s, w + 1, f); }
  }

  lemma ExponentEnds(s: string, f: nat)
    requires f <= |s| && (f < |s| ==> ExponentPart(s, f))
    ensures ExponentEnd(s, f) == Some(|s|)
  {
    if f < |s| {
      DigitsEndIs(s, if s[f + 1] == '+' || s[f + 1] == '-' then f + 2 else f + 1, |s|);
    }
  }

  /** A number is exactly what has these parts. */
  lemma PartsMakeNumber(s: string, w: nat, f: nat)
    requires NumberParts(s, w, f)
    ensures IsNumber(s)
  {
    hide DigitsEnd, FractionEnd, ExponentEnd;
    IntegerEnds(s, w);
    FractionEnds(s, w, f);
    ExponentEnds(s, f);
  }

  lemma NumberHasParts(s: string) returns (w: nat, f: nat)
    requires IsNumber(s)
    ensures NumberParts(s, w, f)
  {
    w := DigitsEnd(s, if s[0] == '-' then 1 else 0);
    f := FractionEnd(s, w).value;
  }

  // ----- Characters -----

  const LOWER := "0123456789abcdef"
  const UPPER := "0123456789ABCDEF"

  function Hex(n: nat, upper: bool): char
    requires n < 16
  {
    if upper then UPPER[n] else LOWER[n]
  }

  function Hex4(n: nat, upper: bool): (r: string)
    requires n < 0x10000
    ensures |r| == 4
  {
    [Hex(n / 4096, upper), Hex(n / 256 % 16, upper), Hex(n / 16 % 16, upper), Hex(n % 16, upper)]
  }

  lemma HexReads(n: nat, upper: bool)
    requires n < 16
    ensures HexDigit(Hex(n, upper)) == Some(n)
  {
  }

  lemma HexSum(n: nat)
    requires n < 0x10000
    ensures n / 4096 < 16 && n == n / 4096 * 4096 + n / 256 % 16 * 256 + n / 16 % 16 * 16 + n % 16
  {
    assert n / 16 == n / 16 / 16 * 16 + n / 16 % 16 && n / 16 / 16 == n / 256;
    assert n / 256 == n / 256 / 16 * 16 + n / 256 % 16 && n / 256 / 16 == n / 4096;
  }

  lemma UnitReads(s: string, i: nat, n: nat, upper: bool)
    requires n < 0x10000 && i + 4 <= |s| && s[i..i + 4] == Hex4(n, upper)
    ensures HexUnit(s, i) == Some(n)
  {
    hide Hex, HexDigit;
    HexSum(n);
    HexReads(n / 4096, upper);
    HexReads(n / 256 % 16, upper);
    HexReads(n / 16 % 16, upper);
    HexReads(n % 16, upper);
    var four := s[i..i + 4];
    assert s[i] == four[0] && s[i + 1] == four[1] && s[i + 2] == four[2] && s[i + 3] == four[3];
  }

  /** A character as one or two UTF-16 code units in hexadecimal. */
  function UnicodeEscape(c: char, upper: bool): string {
    var n := c as int;
    if n < 0x10000 then "\\u" + Hex4(n, upper)
    else "\\u" + Hex4(0xD800 + (n - 0x10000) / 0x400, upper) + "\\u" + Hex4(0xDC00 + (n - 0x10000) % 0x400, upper)
  }

  lemma UnicodeEscapeReads(c: char, upper: bool, rest: string)
    ensures FirstCharacter(UnicodeEscape(c, upper) + rest) == Some((|UnicodeEscape(c, upper)|, c))
  {
    hide HexUnit, Hex4;
    var n := c as int;
    if n < 0x10000 {
      var raw := "\\u" + Hex4(n, upper) + rest;
      assert raw[2..6] == Hex4(n, upper) && raw[0] == '\\' && raw[1] == 'u';
      UnitReads(raw, 2, n, upper);
    } else {
      SurrogatesRead(c, upper, rest);
    }
  }

  lemma SurrogatesRead(c: char, upper: bool, rest: string)
    requires c as int >= 0x10000
    ensures FirstCharacter(UnicodeEscape(c, upper) + rest) == Some((12, c)) && |UnicodeEscape(c, upper)| == 12
  {
    hide HexUnit, Hex4;
    var m := c as int - 0x10000;
    var high, low := 0xD800 + m / 0x400, 0xDC00 + m % 0x400;
    assert m < 0x100000 && m / 0x400 < 0x400;
    var raw := UnicodeEscape(c, upper) + rest;
    var a, b := Hex4(high, upper), Hex4(low, upper);
    assert raw == "\\u" + a + "\\u" + b + rest;
    assert raw[2..6] == a && raw[8..12] == b;
    assert raw[0] == '\\' && raw[1] == 'u' && raw[6] == '\\' && raw[7] == 'u';
    UnitReads(raw, 2, high, upper);
    UnitReads(raw, 8, low, upper);
  }

  /** The short escape of a character, if it has one. */
  function ShortEscape(c: char): Option<string> {
    if c == '"' then Some("\\\"")
    else if c == '\\' then Some("\\\\")
    else if c == '/' then Some("\\/")
    else if c == 8 as char then Some("\\b")
    else if c == 12 as char then Some("\\f")
    else if c == '\n' then Some("\\n")
    else if c == '\r' then Some("\\r")
    else if c == '\t' then Some("\\t")
    else None
  }

  lemma ShortEscapeReads(c: char, rest: string)
    requires ShortEscape(c).Some?
    ensures FirstCharacter(ShortEscape(c).value + rest) == Some((2, c))
  {
    var e := ShortEscape(c).value;
    assert (e + rest)[0] == e[0] && (e + rest)[1] == e[1];
  }

  /** How a character may stand in a string: as it is, unless it is a quote, a backslash or a control character; by its
      short escape; or by its code units. */
  datatype Spelling = AsItIs | Short | Unicode(upper: bool)

  predicate MaySpell(c: char, how: Spelling) {
    match how
    case AsItIs => c != '"' && c != '\\' && c as int >= 32
    case Short => ShortEscape(c).Some?
    case Unicode(_) => true
  }

  function Spelled(c: char, how: Spelling): string
    requires MaySpell(c, how)
  {
    match how
    case AsItIs => [c]
    case Short => ShortEscape(c).value
    case Unicode(upper) => UnicodeEscape(c, upper)
  }

  function SpelledAll(s: string, how: seq<Spelling>): string
    requires |how| == |s| && forall i | 0 <= i < |s| :: MaySpell(s[i], how[i])
  {
    if s == "" then "" else Spelled(s[0], how[0]) + SpelledAll(s[1..], how[1..])
  }

  /** Whatever way the characters of a text are spelled, the string means that text. */
  lemma {:induction false} SpellingReads(s: string, how: seq<Spelling>)
    requires |how| == |s| && forall i | 0 <= i < |s| :: MaySpell(s[i], how[i])
    ensures Decode(SpelledAll(s, how)) == Some(s)
  {
    hide UnicodeEscape, ShortEscape, HexUnit, SimpleEscape;
    if s != "" {
      var first, rest := Spelled(s[0], how[0]), SpelledAll(s[1..], how[1..]);
      SpellingReads(s[1..], how[1..]);
      assert MaySpell(s[0], how[0]);
      if how[0].Short? { ShortEscapeReads(s[0], rest); ShortLength(s[0]); }
      if how[0].Unicode? { UnicodeEscapeReads(s[0], how[0].upper, rest); UnicodeLength(s[0], how[0].upper); }
      assert (first + rest)[|first|..] == rest;
      assert s == [s[0]] + s[1..];
    }
  }

  lemma ShortLength(c: char)
    requires ShortEscape(c).Some?
    ensures |ShortEscape(c).value| == 2
  {
  }

  lemma UnicodeLength(c: char, upper: bool)
    ensures |UnicodeEscape(c, upper)| > 0
  {
  }
}
