/** The lexical layer of the restricted workflow recognizer: comments, flow sequences, scalars and `key: value`
    pairs. */
module YamlText {
  import opened Options

  // ----- Characters and trimming -----

  predicate Blank(c: char) { c == ' ' || c == '\t' }

  /** What `str.strip` removes. */
  predicate Space(c: char) {
    var n := c as int;
    9 <= n <= 13 || 28 <= n <= 32 || n == 0x85 || n == 0xA0 || n == 0x1680 || 0x2000 <= n <= 0x200A
    || n == 0x2028 || n == 0x2029 || n == 0x202F || n == 0x205F || n == 0x3000
  }

  predicate IsQuote(c: char) { c == '\'' || c == '"' }

  predicate Opens(c: char) { c == '[' || c == '{' }

  predicate Closes(c: char) { c == ']' || c == '}' }

  function TrimEnd(s: string): (r: string)
    ensures |r| <= |s| && r == s[..|r|] && (r != [] ==> !Space(r[|r| - 1]))
    ensures forall i | |r| <= i < |s| :: Space(s[i])
  {
    if s != [] && Space(s[|s| - 1]) then TrimEnd(s[..|s| - 1]) else s
  }

  function TrimStart(s: string): (r: string)
    ensures |r| <= |s| && r == s[|s| - |r|..] && (r != [] ==> !Space(r[0]))
    ensures forall i | 0 <= i < |s| - |r| :: Space(s[i])
  {
    if s != [] && Space(s[0]) then TrimStart(s[1..]) else s
  }

  /** `str.strip` */
  function Strip(s: string): (r: string)
    ensures |r| <= |s|
  {
    TrimStart(TrimEnd(s))
  }

  /** Nothing to strip at either end. */
  predicate Tight(s: string) { s == [] || (!Space(s[0]) && !Space(s[|s| - 1])) }

  lemma StripTight(s: string)
    requires Tight(s)
    ensures Strip(s) == s && TrimEnd(s) == s
  {
  }

  lemma StripLead(s: string)
    requires Tight(s)
    ensures Strip(" " + s) == s
  {
    hide TrimEnd, TrimStart, Space;
    BlankIsSpace();
    var t := " " + s;
    assert t[0] == ' ' && t[1..] == s;
    if s == "" {
      assert TrimEnd(t) == "";
      assert TrimStart("") == "";
    } else {
      assert t[|t| - 1] == s[|s| - 1] && t[1] == s[0];
      assert TrimEnd(t) == t;
      var r := TrimStart(t);
      assert !Space(t[1]) && |r| > 0;
      assert r[0] == t[|t| - |r|];
    }
  }

  lemma BlankIsSpace()
    ensures Space(' ')
  {
  }

  // ----- Comments -----

  /** Where the comment of a line starts: an unquoted `#` at its start or after a blank. */
  function CommentAt(line: string, i: nat, quote: Option<char>): (r: nat)
    requires i <= |line|
    ensures i <= r <= |line|
    decreases |line| - i
  {
    if i == |line| then i
    else if quote.Some? then CommentAt(line, i + 1, if line[i] == quote.value then None else quote)
    else if IsQuote(line[i]) then CommentAt(line, i + 1, Some(line[i]))
    else if line[i] == '#' && (i == 0 || Blank(line[i - 1])) then i
    else CommentAt(line, i + 1, None)
  }

  function StripComment(line: string): string { TrimEnd(line[..CommentAt(line, 0, None)]) }

  /** `_strip_comment` */
  method StripCommentLoop(line: string) returns (r: string)
    ensures r == StripComment(line)
  {
    var out: string, quote: Option<char>, i := [], None, 0;
    while i < |line|
      invariant 0 <= i <= |line| && out == line[..i]
      invariant CommentAt(line, 0, None) == CommentAt(line, i, quote)
    {
      var ch := line[i];
      if quote.Some? {
        if ch == quote.value { quote := None; }
      } else if IsQuote(ch) {
        quote := Some(ch);
      } else if ch == '#' && (i == 0 || Blank(line[i - 1])) {
        break;
      }
      out, i := out + [ch], i + 1;
    }
    r := TrimEnd(out);
  }

  // ----- Flow sequences -----

  /** The first comma outside quotes and brackets, or the end. */
  function NextCut(body: string, i: nat, depth: int, quote: Option<char>): (r: nat)
    requires i <= |body|
    ensures i <= r <= |body| && (r < |body| ==> body[r] == ',')
    decreases |body| - i
  {
    if i == |body| then i
    else if quote.Some? then NextCut(body, i + 1, depth, if body[i] == quote.value then None else quote)
    else if IsQuote(body[i]) then NextCut(body, i + 1, depth, Some(body[i]))
    else if Opens(body[i]) then NextCut(body, i + 1, depth + 1, None)
    else if Closes(body[i]) then NextCut(body, i + 1, depth - 1, None)
    else if body[i] == ',' && depth == 0 then i
    else NextCut(body, i + 1, depth, None)
  }

  /** The pieces between top-level commas, stripped; an empty last piece does not count. */
  function SplitFlow(body: string): (items: seq<string>)
    ensures forall i | 0 <= i < |items| :: |items[i]| <= |body|
  {
    var c := NextCut(body, 0, 0, None);
    if c == |body| then (if Strip(body) == [] then [] else [Strip(body)])
    else [Strip(body[..c])] + SplitFlow(body[c + 1..])
  }

  /** Where the scan of a piece stands does not depend on what came before the piece. */
  lemma {:induction false} CutShifts(body: string, from: nat, i: nat, depth: int, quote: Option<char>)
    requires from <= i <= |body|
    ensures NextCut(body, i, depth, quote) == from + NextCut(body[from..], i - from, depth, quote)
    decreases |body| - i
  {
    if i < |body| {
      var d := if quote.Some? || IsQuote(body[i]) then depth
               else if Opens(body[i]) then depth + 1 else if Closes(body[i]) then depth - 1 else depth;
      var q := if quote.Some? then (if body[i] == quote.value then None else quote)
               else if IsQuote(body[i]) then Some(body[i]) else None;
      CutShifts(body, from, i + 1, d, q);
    }
  }

  lemma SplitStep(body: string, c: nat)
    requires c < |body| && NextCut(body, 0, 0, None) == c
    ensures SplitFlow(body) == [Strip(body[..c])] + SplitFlow(body[c + 1..])
  {
    hide NextCut, Strip;
  }

  lemma SplitAtCut(body: string, start: nat, c: nat)
    requires start <= c < |body| && NextCut(body, start, 0, None) == c
    ensures SplitFlow(body[start..]) == [Strip(body[start..c])] + SplitFlow(body[c + 1..])
  {
    hide Strip, NextCut, SplitFlow;
    CutShifts(body, start, start, 0, None);
    var piece := body[start..];
    SplitStep(piece, c - start);
    assert piece[..c - start] == body[start..c];
    assert piece[c - start + 1..] == body[c + 1..];
  }

  lemma SplitAtEnd(body: string, start: nat)
    requires start <= |body| && NextCut(body, start, 0, None) == |body|
    ensures var tail := Strip(body[start..]); SplitFlow(body[start..]) == if tail == [] then [] else [tail]
  {
    hide Strip, NextCut;
    CutShifts(body, start, start, 0, None);
  }

  /** `_split_flow_seq` */
  method SplitFlowLoop(body: string) returns (items: seq<string>)
    ensures items == SplitFlow(body)
  {
    hide Strip, SplitFlow;
    items := [];
    var depth, cur: string, quote: Option<char>, i := 0, [], None, 0;
    ghost var start := 0;
    assert body[0..] == body;
    while i < |body|
      invariant 0 <= start <= i <= |body| && cur == body[start..i]
      invariant SplitFlow(body) == items + SplitFlow(body[start..])
      invariant NextCut(body, start, 0, None) == NextCut(body, i, depth, quote)
    {
      var ch := body[i];
      if quote.Some? {
        if ch == quote.value { quote := None; }
      } else if IsQuote(ch) {
        quote := Some(ch);
      } else {
        if Opens(ch) { depth := depth + 1; } else if Closes(ch) { depth := depth - 1; }
        if ch == ',' && depth == 0 {
          SplitAtCut(body, start, i);
          items, cur, i := items + [Strip(cur)], [], i + 1;
          start := i;
          continue;
        }
      }
      cur, i := cur + [ch], i + 1;
    }
    SplitAtEnd(body, start);
    assert cur == body[start..];
    var tail := Strip(cur);
    if tail != [] { items := items + [tail]; }
  }

  // ----- Values -----

  datatype Tree =
    | Null
    | Text(text: string)
    | List(items: seq<Tree>)
    | Mapping(entries: seq<(string, Tree)>)

  predicate Bracketed(t: string) { |t| >= 2 && t[0] == '[' && t[|t| - 1] == ']' }

  predicate Quoted(t: string) { |t| >= 2 && t[0] == t[|t| - 1] && IsQuote(t[0]) }

  /** `_scalar` */
  function Scalar(text: string): Tree
    decreases |text|, 1, 0
  {
    var t := Strip(text);
    if Bracketed(t) then List(Scalars(SplitFlow(t[1..|t| - 1]), |text|))
    else if Quoted(t) then Text(t[1..|t| - 1])
    else Text(t)
  }

  function Scalars(items: seq<string>, bound: nat): (r: seq<Tree>)
    requires forall i | 0 <= i < |items| :: |items[i]| < bound
    decreases bound, 0, |items|
  {
    if items == [] then [] else [Scalar(items[0])] + Scalars(items[1..], bound)
  }

  // ----- Key and value -----

  /** Quote and bracket depth before position `i`. */
  function QuoteAt(text: string, i: nat): Option<char>
    requires i <= |text|
  {
    if i == 0 then None
    else
      var q, c := QuoteAt(text, i - 1), text[i - 1];
      if q.Some? then (if c == q.value then None else q) else if IsQuote(c) then Some(c) else None
  }

  function DepthAt(text: string, i: nat): int
    requires i <= |text|
  {
    if i == 0 then 0
    else
      var d, c := DepthAt(text, i - 1), text[i - 1];
      if QuoteAt(text, i - 1).Some? then d else if Opens(c) then d + 1 else if Closes(c) then d - 1 else d
  }

  /** A colon that separates key and value: outside quotes and brackets, before a blank or the end. */
  predicate SplitsAt(text: string, i: nat)
    requires i < |text|
  {
    && text[i] == ':' && QuoteAt(text, i).None? && DepthAt(text, i) == 0
    && (i + 1 == |text| || Blank(text[i + 1]))
  }

  /** Brackets shield what is inside: between a bracket and the one that closes it no colon separates, and the depth
      outside is as before. */
  lemma {:induction false} BracketsShield(text: string, a: nat, i: nat)
    requires a < i < |text| && text[a] in "[{" && QuoteAt(text, a).None?
    requires forall j | a < j < i :: text[j] !in "[]{}'\""
    ensures QuoteAt(text, i).None? && DepthAt(text, i) == DepthAt(text, a) + 1
    ensures text[i] in "]}" ==> QuoteAt(text, i + 1).None? && DepthAt(text, i + 1) == DepthAt(text, a)
    ensures DepthAt(text, a) >= 0 ==> !SplitsAt(text, i)
  {
    if a + 1 < i { BracketsShield(text, a, i - 1); }
  }

  /** Quotes shield what is inside, other quotes and brackets included. */
  lemma {:induction false} QuotesShield(text: string, a: nat, i: nat)
    requires a < i < |text| && text[a] in "'\"" && QuoteAt(text, a).None?
    requires forall j | a < j < i :: text[j] != text[a]
    ensures QuoteAt(text, i) == Some(text[a]) && DepthAt(text, i) == DepthAt(text, a)
    ensures text[i] == text[a] ==> QuoteAt(text, i + 1).None? && DepthAt(text, i + 1) == DepthAt(text, a)
    ensures !SplitsAt(text, i)
  {
    if a + 1 < i { QuotesShield(text, a, i - 1); }
  }

  /** The comment of a line starts at its first `#` that is not in quotes and stands at the start or after a blank. */
  lemma {:induction false} CommentExactly(line: string, i: nat)
    requires i <= |line|
    ensures var p := CommentAt(line, i, QuoteAt(line, i));
            (p < |line| ==> StartsComment(line, p)) && forall j | i <= j < p :: !StartsComment(line, j)
    decreases |line| - i
  {
    if i < |line| { CommentExactly(line, i + 1); }
  }

  predicate StartsComment(line: string, i: nat)
    requires i < |line|
  {
    line[i] == '#' && QuoteAt(line, i).None? && (i == 0 || line[i - 1] in " \t")
  }

  /** The first separating colon from `i` on. */
  function ColonFrom(text: string, i: nat): (r: Option<nat>)
    requires i <= |text|
    ensures r.Some? ==> i <= r.value < |text| && SplitsAt(text, r.value)
                        && forall j | i <= j < r.value :: !SplitsAt(text, j)
    ensures r.None? ==> forall j | i <= j < |text| :: !SplitsAt(text, j)
    decreases |text| - i
  {
    if i == |text| then None else if SplitsAt(text, i) then Some(i) else ColonFrom(text, i + 1)
  }

  /** Key and value around the first separating colon. */
  function KeyValue(text: string): Option<(string, string)> {
    var c := ColonFrom(text, 0);
    if c.None? then None else Some((Strip(text[..c.value]), Strip(text[c.value + 1..])))
  }

  lemma {:induction false} ColonFromSkips(text: string, i: nat)
    requires i <= |text| && forall j | 0 <= j < i :: !SplitsAt(text, j)
    ensures ColonFrom(text, 0) == ColonFrom(text, i)
  {
    if i > 0 { ColonFromSkips(text, i - 1); }
  }

  /** `_has_top_level_colon` */
  method HasTopLevelColon(text: string) returns (found: bool)
    ensures found <==> exists i | 0 <= i < |text| :: SplitsAt(text, i)
  {
    var quote: Option<char>, depth, i := None, 0, 0;
    while i < |text|
      invariant 0 <= i <= |text| && quote == QuoteAt(text, i) && depth == DepthAt(text, i)
      invariant forall j | 0 <= j < i :: !SplitsAt(text, j)
    {
      var ch := text[i];
      if quote.Some? {
        if ch == quote.value { quote := None; }
      } else if IsQuote(ch) {
        quote := Some(ch);
      } else if Opens(ch) {
        depth := depth + 1;
      } else if Closes(ch) {
        depth := depth - 1;
      } else if ch == ':' && depth == 0 {
        if i + 1 == |text| || Blank(text[i + 1]) {
          assert SplitsAt(text, i);
          return true;
        }
      }
      i := i + 1;
    }
    return false;
  }

  /** `_split_key`: key, separator and rest; it raises exactly when there is no separating colon. */
  method SplitKey(text: string) returns (r: Result<(string, string, string), string>)
    ensures r.Ok? <==> exists i | 0 <= i < |text| :: SplitsAt(text, i)
    ensures r.Ok? ==> KeyValue(text) == Some((r.value.0, r.value.2)) && r.value.1 == ":"
    ensures r.Err? <==> KeyValue(text).None?
  {
    hide Strip;
    var quote: Option<char>, depth, i := None, 0, 0;
    while i < |text|
      invariant 0 <= i <= |text| && quote == QuoteAt(text, i) && depth == DepthAt(text, i)
      invariant forall j | 0 <= j < i :: !SplitsAt(text, j)
    {
      var ch := text[i];
      if quote.Some? {
        if ch == quote.value { quote := None; }
      } else if IsQuote(ch) {
        quote := Some(ch);
      } else if Opens(ch) {
        depth := depth + 1;
      } else if Closes(ch) {
        depth := depth - 1;
      } else if ch == ':' && depth == 0 {
        if i + 1 == |text| || Blank(text[i + 1]) {
          assert SplitsAt(text, i);
          ColonFromSkips(text, i);
          var end := if i + 2 <= |text| then i + 2 else |text|;
          SeparatorStrips(text[i..end]);
          return Ok((Strip(text[..i]), Strip(text[i..end]), Strip(text[i + 1..])));
        }
      }
      i := i + 1;
    }
    ColonFromSkips(text, |text|);
    return Err("expected 'key: value' pair");
  }

  lemma SeparatorStrips(s: string)
    requires s == ":" || (|s| == 2 && s[0] == ':' && Blank(s[1]))
    ensures Strip(s) == ":"
  {
    StripTight(":");
    if |s| == 2 { assert s[..1] == ":"; }
  }
}
