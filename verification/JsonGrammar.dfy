/** JSON texts as section 2 to 7 of RFC 8259 defines them.
    A `Value` is a concrete syntax tree: it keeps every blank and every lexeme, so that
    `Print` gives back the exact text. `ParseText` is a parser proved sound and complete
    against `Print`, which makes the grammar unambiguous. `Denote` forgets the spelling. */
module JsonGrammar {
  import opened Options

  // ----- Lexical classes -----

  predicate IsBlank(c: char) { c == ' ' || c == '\t' || c == '\n' || c == '\r' }

  predicate AllBlank(s: string) { forall k | 0 <= k < |s| :: IsBlank(s[k]) }

  predicate IsDigit(c: char) { '0' <= c <= '9' }

  /** A literal name or a number ends where one of these characters begins. */
  predicate IsDelimiter(c: char) {
    c <= ' ' || c in ",:[]{}\""
  }

  /** First position at or after `i` that does not hold a digit. */
  function DigitsEnd(s: string, i: nat): (e: nat)
    requires i <= |s|
    ensures i <= e <= |s|
    ensures forall k | i <= k < e :: IsDigit(s[k])
    decreases |s| - i
  {
    if i < |s| && IsDigit(s[i]) then DigitsEnd(s, i + 1) else i
  }

  /** End of an optional fraction that starts at `i`, or None when a '.' lacks its digits. */
  function FractionEnd(s: string, i: nat): (r: Option<nat>)
    requires i <= |s|
    ensures r.Some? ==> i <= r.value <= |s| && forall k | i <= k < r.value :: !IsDelimiter(s[k])
  {
    if i < |s| && s[i] == '.' then
      var e := DigitsEnd(s, i + 1);
      if e > i + 1 then Some(e) else None
    else Some(i)
  }

  /** End of an optional exponent that starts at `i`, or None when it lacks its digits. */
  function ExponentEnd(s: string, i: nat): (r: Option<nat>)
    requires i <= |s|
    ensures r.Some? ==> i <= r.value <= |s| && forall k | i <= k < r.value :: !IsDelimiter(s[k])
  {
    if i < |s| && (s[i] == 'e' || s[i] == 'E') then
      var j := if i + 1 < |s| && (s[i+1] == '+' || s[i+1] == '-') then i + 2 else i + 1;
      var e := DigitsEnd(s, j);
      if e > j then Some(e) else None
    else Some(i)
  }

  /** number = [ minus ] int [ frac ] [ exp ] */
  predicate IsNumber(s: string) {
    var start := if |s| > 0 && s[0] == '-' then 1 else 0;
    var whole := DigitsEnd(s, start);
    whole > start
    && (s[start] == '0' ==> whole == start + 1)
    && var frac := FractionEnd(s, whole);
       frac.Some? && ExponentEnd(s, frac.value) == Some(|s|)
  }

  predicate IsLiteral(s: string) {
    s == "true" || s == "false" || s == "null" || IsNumber(s)
  }

  lemma LiteralHasNoDelimiter(s: string)
    requires IsLiteral(s)
    ensures |s| > 0 && forall k | 0 <= k < |s| :: !IsDelimiter(s[k])
  {
  }

  // ----- Strings -----

  function HexDigit(c: char): (r: Option<nat>)
    ensures r.Some? ==> r.value < 16 && c != '\\' && c != '"'
  {
    if '0' <= c <= '9' then Some((c as int) - ('0' as int))
    else if 'a' <= c <= 'f' then Some((c as int) - ('a' as int) + 10)
    else if 'A' <= c <= 'F' then Some((c as int) - ('A' as int) + 10)
    else None
  }

  /** The code unit of the four hexadecimal digits at `i`. */
  function HexUnit(s: string, i: nat): (r: Option<nat>)
    ensures r.Some? ==> r.value < 0x10000 && i + 4 <= |s|
                        && forall k | i <= k < i + 4 :: HexDigit(s[k]).Some?
  {
    if i + 4 > |s| then None
    else
      var a, b, c, d := HexDigit(s[i]), HexDigit(s[i+1]), HexDigit(s[i+2]), HexDigit(s[i+3]);
      if a.Some? && b.Some? && c.Some? && d.Some?
      then Some(a.value * 4096 + b.value * 256 + c.value * 16 + d.value)
      else None
  }

  function SimpleEscape(c: char): (r: Option<char>) {
    match c
    case '"' => Some('"')
    case '\\' => Some('\\')
    case '/' => Some('/')
    case 'b' => Some(8 as char)
    case 'f' => Some(12 as char)
    case 'n' => Some('\n')
    case 'r' => Some('\r')
    case 't' => Some('\t')
    case _ => None
  }

  /** Length and meaning of the escape or plain character that `raw` starts with. */
  function FirstCharacter(raw: string): (r: Option<(nat, char)>)
    requires raw != ""
    ensures r.Some? ==> 1 <= r.value.0 <= |raw|
  {
    if raw[0] != '\\' then
      if raw[0] == '"' || raw[0] < ' ' then None else Some((1, raw[0]))
    else if |raw| < 2 then None
    else if raw[1] != 'u' then
      var e := SimpleEscape(raw[1]);
      if e.Some? then Some((2, e.value)) else None
    else
      var unit := HexUnit(raw, 2);
      if unit.None? || 0xDC00 <= unit.value < 0xE000 then None
      else if unit.value < 0xD800 || 0xE000 <= unit.value then Some((6, unit.value as char))
      else if |raw| < 12 || raw[6] != '\\' || raw[7] != 'u' then None
      else
        var low := HexUnit(raw, 8);
        if low.None? || low.value < 0xDC00 || 0xE000 <= low.value then None
        else Some((12, (0x10000 + (unit.value - 0xD800) * 0x400 + (low.value - 0xDC00)) as char))
  }

  /** Meaning of the characters between the quotes, or None when they are not a JSON string. */
  function Decode(raw: string): (r: Option<string>) {
    if raw == "" then Some("")
    else
      var first := FirstCharacter(raw);
      if first.None? then None
      else
        var rest := Decode(raw[first.value.0..]);
        if rest.None? then None else Some([first.value.1] + rest.value)
  }

  /** Position of the first quote at or after `i` that no backslash escapes. */
  function ClosingQuote(s: string, i: nat): (r: Option<nat>)
    ensures r.Some? ==> i <= r.value < |s| && s[r.value] == '"'
    decreases |s| - i
  {
    if i >= |s| then None
    else if s[i] == '"' then Some(i)
    else if s[i] == '\\' then ClosingQuote(s, i + 2)
    else ClosingQuote(s, i + 1)
  }

  // ----- Syntax trees -----

  datatype Value =
    | Literal(lexeme: string)
    | Text(raw: string)
    | Array(blank: string, items: Items)
    | Object(blank: string, members: Members)

  datatype Items =
    | NoItems
    | Item(before: string, value: Value, after: string, rest: Items)

  datatype Members =
    | NoMembers
    | Member(before: string, key: string, afterKey: string, beforeValue: string,
             value: Value, after: string, rest: Members)

  datatype Document = Document(before: string, value: Value, after: string)

  function Print(v: Value): string {
    match v
    case Literal(lexeme) => lexeme
    case Text(raw) => "\"" + raw + "\""
    case Array(blank, items) => "[" + blank + PrintItems(items) + "]"
    case Object(blank, members) => "{" + blank + PrintMembers(members) + "}"
  }

  function PrintItems(items: Items): string {
    match items
    case NoItems => ""
    case Item(before, value, after, rest) =>
      before + Print(value) + after + (if rest.NoItems? then "" else "," + PrintItems(rest))
  }

  /** Everything of a member up to its value. */
  function PrintName(m: Members): string
    requires m.Member?
  {
    m.before + "\"" + m.key + "\"" + m.afterKey + ":" + m.beforeValue
  }

  function PrintMembers(ms: Members): string {
    match ms
    case NoMembers => ""
    case Member(_, _, _, _, value, after, rest) =>
      PrintName(ms) + Print(value) + after + (if rest.NoMembers? then "" else "," + PrintMembers(rest))
  }

  function PrintText(d: Document): string { d.before + Print(d.value) + d.after }

  predicate WellFormed(v: Value) {
    match v
    case Literal(lexeme) => IsLiteral(lexeme)
    case Text(raw) => Decode(raw).Some?
    case Array(blank, items) =>
      AllBlank(blank) && (items.Item? ==> blank == "") && WellFormedItems(items)
    case Object(blank, members) =>
      AllBlank(blank) && (members.Member? ==> blank == "") && WellFormedMembers(members)
  }

  predicate WellFormedItems(items: Items) {
    match items
    case NoItems => true
    case Item(before, value, after, rest) =>
      AllBlank(before) && WellFormed(value) && AllBlank(after) && WellFormedItems(rest)
  }

  predicate WellFormedMembers(ms: Members) {
    match ms
    case NoMembers => true
    case Member(before, key, afterKey, beforeValue, value, after, rest) =>
      AllBlank(before) && Decode(key).Some? && AllBlank(afterKey) && AllBlank(beforeValue)
      && WellFormed(value) && AllBlank(after) && WellFormedMembers(rest)
  }

  predicate WellFormedText(d: Document) {
    AllBlank(d.before) && WellFormed(d.value) && AllBlank(d.after)
  }

  // ----- Occurrences of one text inside another -----

  /** `p` stands in `s` at position `i`. */
  predicate At(s: string, i: nat, p: string) {
    i + |p| <= |s| && s[i..i+|p|] == p
  }

  lemma AtConcat(s: string, i: nat, p: string, q: string)
    ensures At(s, i, p + q) <==> At(s, i, p) && At(s, i + |p|, q)
  {
    if i + |p| + |q| <= |s| {
      assert s[i..i+|p|+|q|] == s[i..i+|p|] + s[i+|p|..i+|p|+|q|];
      if At(s, i, p + q) {
        assert s[i..i+|p|] == (p + q)[..|p|];
        assert s[i+|p|..i+|p|+|q|] == (p + q)[|p|..];
      }
    }
  }

  lemma AtIndex(s: string, i: nat, p: string, k: nat)
    requires At(s, i, p) && k < |p|
    ensures s[i+k] == p[k]
  {
    assert s[i..i+|p|][k] == p[k];
  }

  lemma AtBegin(s: string, i: nat, c: char)
    ensures At(s, i, [c]) <==> i < |s| && s[i] == c
  {
    if i < |s| { assert s[i..i+1] == [s[i]]; }
  }

  // ----- Parser -----

  /** First position at or after `i` that does not hold a blank. */
  function SkipBlank(s: string, i: nat): (e: nat)
    requires i <= |s|
    ensures i <= e <= |s| && AllBlank(s[i..e]) && (e < |s| ==> !IsBlank(s[e]))
    decreases |s| - i
  {
    if i < |s| && IsBlank(s[i]) then
      var e := SkipBlank(s, i + 1);
      assert s[i..e] == [s[i]] + s[i+1..e];
      e
    else i
  }

  function LiteralEnd(s: string, i: nat): (e: nat)
    requires i <= |s|
    ensures i <= e <= |s|
    decreases |s| - i
  {
    if i < |s| && !IsDelimiter(s[i]) then LiteralEnd(s, i + 1) else i
  }

  function ParseValue(s: string, i: nat): (r: Option<(Value, nat)>)
    requires i <= |s|
    ensures r.Some? ==> i < r.value.1 <= |s|
    decreases |s| - i, 0
  {
    hide Decode, IsLiteral;
    if i == |s| then None
    else if s[i] == '"' then
      var e := ClosingQuote(s, i + 1);
      if e.Some? && Decode(s[i+1..e.value]).Some? then Some((Text(s[i+1..e.value]), e.value + 1)) else None
    else if s[i] == '[' then
      var j := SkipBlank(s, i + 1);
      if j < |s| && s[j] == ']' then Some((Array(s[i+1..j], NoItems), j + 1))
      else
        var items := ParseItems(s, i + 1);
        if items.Some? && items.value.1 < |s| && s[items.value.1] == ']'
        then Some((Array("", items.value.0), items.value.1 + 1)) else None
    else if s[i] == '{' then
      var j := SkipBlank(s, i + 1);
      if j < |s| && s[j] == '}' then Some((Object(s[i+1..j], NoMembers), j + 1))
      else
        var ms := ParseMembers(s, i + 1);
        if ms.Some? && ms.value.1 < |s| && s[ms.value.1] == '}'
        then Some((Object("", ms.value.0), ms.value.1 + 1)) else None
    else
      var e := LiteralEnd(s, i);
      if e > i && IsLiteral(s[i..e]) then Some((Literal(s[i..e]), e)) else None
  }

  function ParseItems(s: string, i: nat): (r: Option<(Items, nat)>)
    requires i <= |s|
    ensures r.Some? ==> i < r.value.1 <= |s| && r.value.0.Item?
    decreases |s| - i, 1
  {
    var j := SkipBlank(s, i);
    var v := ParseValue(s, j);
    if v.None? then None
    else
      var k := SkipBlank(s, v.value.1);
      if k < |s| && s[k] == ',' then
        var rest := ParseItems(s, k + 1);
        if rest.None? then None
        else Some((Item(s[i..j], v.value.0, s[v.value.1..k], rest.value.0), rest.value.1))
      else Some((Item(s[i..j], v.value.0, s[v.value.1..k], NoItems), k))
  }

  /** Position after the colon of the member that starts at `i`, with the pieces passed on the way. */
  function ParseName(s: string, i: nat): (r: Option<(Members, nat)>)
    requires i <= |s|
    ensures r.Some? ==> i < r.value.1 <= |s| && r.value.0.Member?
  {
    hide Decode;
    var j := SkipBlank(s, i);
    if j == |s| || s[j] != '"' then None
    else
      var e := ClosingQuote(s, j + 1);
      if e.None? || Decode(s[j+1..e.value]).None? then None
      else
        var c := SkipBlank(s, e.value + 1);
        if c == |s| || s[c] != ':' then None
        else
          var b := SkipBlank(s, c + 1);
          Some((Member(s[i..j], s[j+1..e.value], s[e.value+1..c], s[c+1..b], Literal("null"), "", NoMembers), b))
  }

  function ParseMembers(s: string, i: nat): (r: Option<(Members, nat)>)
    requires i <= |s|
    ensures r.Some? ==> i < r.value.1 <= |s| && r.value.0.Member?
    decreases |s| - i, 1
  {
    var name := ParseName(s, i);
    if name.None? then None
    else
      var v := ParseValue(s, name.value.1);
      if v.None? then None
      else
        var k := SkipBlank(s, v.value.1);
        var m := name.value.0.(value := v.value.0, after := s[v.value.1..k]);
        if k < |s| && s[k] == ',' then
          var rest := ParseMembers(s, k + 1);
          if rest.None? then None else Some((m.(rest := rest.value.0), rest.value.1))
        else Some((m, k))
  }

  function ParseText(s: string): (r: Option<Document>) {
    var i := SkipBlank(s, 0);
    var v := ParseValue(s, i);
    if v.None? then None
    else
      var e := SkipBlank(s, v.value.1);
      if e == |s| then Some(Document(s[..i], v.value.0, s[v.value.1..])) else None
  }
}
