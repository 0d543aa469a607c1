/** The lexical scanner that finds a top-level member of a JSON object in its source text,
    without building a tree. Positions count characters of the source. */
module TtlScanner {
  import opened Options
  import opened JsonGrammar

  datatype Range = Range(start: nat, end: nat)

  /** `u8::is_ascii_whitespace`: unlike a JSON blank it includes the form feed. */
  predicate IsAsciiWhitespace(c: char) {
    c == ' ' || c == '\t' || c == '\n' || c == 12 as char || c == '\r'
  }

  function SkipWhitespace(s: string, i: nat): (e: nat)
    requires i <= |s|
    ensures i <= e <= |s|
    decreases |s| - i
  {
    if i < |s| && IsAsciiWhitespace(s[i]) then SkipWhitespace(s, i + 1) else i
  }

  /** Position after the string token that starts at `start`. */
  function StringEnd(s: string, start: nat): (r: Option<nat>)
    ensures r.Some? ==> start + 1 < r.value <= |s|
  {
    if start < |s| && s[start] == '"' then
      var quote := ClosingQuote(s, start + 1);
      if quote.Some? then Some(quote.value + 1) else None
    else None
  }

  /** Position after the closer that empties the stack of open brackets. */
  function Balanced(s: string, cursor: nat, stack: seq<char>): (r: Option<nat>)
    requires stack != []
    ensures r.Some? ==> cursor < r.value <= |s|
    decreases |s| - cursor
  {
    if cursor >= |s| then None
    else if s[cursor] == '"' then
      var e := StringEnd(s, cursor);
      if e.None? then None else Balanced(s, e.value, stack)
    else if s[cursor] == '{' || s[cursor] == '[' then Balanced(s, cursor + 1, stack + [s[cursor]])
    else if Closes(s[cursor], stack[|stack| - 1]) then
      if |stack| == 1 then Some(cursor + 1) else Balanced(s, cursor + 1, stack[..|stack| - 1])
    else Balanced(s, cursor + 1, stack)
  }

  predicate Closes(c: char, open: char) {
    (c == '}' && open == '{') || (c == ']' && open == '[')
  }

  function ScalarStop(s: string, i: nat): (e: nat)
    requires i <= |s|
    ensures i <= e <= |s|
    decreases |s| - i
  {
    if i < |s| && s[i] != ',' && s[i] != '}' then ScalarStop(s, i + 1) else i
  }

  function TrimBack(s: string, start: nat, end: nat): (e: nat)
    requires start <= end <= |s|
    ensures start <= e <= end
  {
    if start < end && IsAsciiWhitespace(s[end - 1]) then TrimBack(s, start, end - 1) else end
  }

  function ValueEnd(s: string, start: nat): (r: Option<nat>)
    requires start <= |s|
    ensures r.Some? ==> start < r.value <= |s|
  {
    if start < |s| && s[start] == '"' then StringEnd(s, start)
    else if start < |s| && (s[start] == '{' || s[start] == '[') then Balanced(s, start + 1, [s[start]])
    else
      var e := TrimBack(s, start, ScalarStop(s, start));
      if e > start then Some(e) else None
  }

  /** Outcome of reading the name of one member: its decoded form and where its value starts. */
  function NameScan(s: string, cursor: nat): (r: Option<(string, nat)>)
    requires cursor <= |s|
    ensures r.Some? ==> cursor < r.value.1 <= |s|
  {
    var keyEnd := StringEnd(s, cursor);
    if keyEnd.None? then None
    else
      var key := Decode(s[cursor + 1..keyEnd.value - 1]);
      var colon := SkipWhitespace(s, keyEnd.value);
      if key.None? || colon == |s| || s[colon] != ':' then None
      else Some((key.value, SkipWhitespace(s, colon + 1)))
  }

  function MemberScan(s: string, from: nat, name: string): (r: Option<Range>)
    requires from <= |s|
    ensures r.Some? ==> from < r.value.start < r.value.end <= |s|
    decreases |s| - from
  {
    var cursor := SkipWhitespace(s, from);
    if cursor < |s| && s[cursor] == '}' then None
    else
      var key := NameScan(s, cursor);
      if key.None? then None
      else
        var end := ValueEnd(s, key.value.1);
        if end.None? then None
        else if key.value.0 == name then Some(Range(key.value.1, end.value))
        else
          var next := SkipWhitespace(s, end.value);
          if next < |s| && s[next] == ',' then MemberScan(s, next + 1, name) else None
  }

  function MemberRange(s: string, name: string): (r: Option<Range>)
    ensures r.Some? ==> r.value.start < r.value.end <= |s|
  {
    var cursor := SkipWhitespace(s, 0);
    if cursor == |s| || s[cursor] != '{' then None else MemberScan(s, cursor + 1, name)
  }

  // ----- The loops -----

  method SkipAsciiWhitespace(source: string, from: nat) returns (cursor: nat)
    requires from <= |source|
    ensures cursor == SkipWhitespace(source, from) && from <= cursor <= |source|
    ensures forall k | from <= k < cursor :: source[k] in " \t\n\r" || source[k] == 12 as char
    ensures cursor < |source| ==> source[cursor] !in " \t\n\r" && source[cursor] != 12 as char
  {
    cursor := from;
    while cursor < |source| && IsAsciiWhitespace(source[cursor])
      invariant from <= cursor <= |source| && SkipWhitespace(source, cursor) == SkipWhitespace(source, from)
      invariant forall k | from <= k < cursor :: source[k] in " \t\n\r" || source[k] == 12 as char
    {
      cursor := cursor + 1;
    }
  }

  method JsonStringEnd(source: string, start: nat) returns (end: Option<nat>)
    ensures end == StringEnd(source, start)
  {
    if start >= |source| || source[start] != '"' { return None; }
    var cursor := start + 1;
    while cursor < |source|
      invariant ClosingQuote(source, cursor) == ClosingQuote(source, start + 1)
    {
      if source[cursor] == '"' { return Some(cursor + 1); }
      cursor := if source[cursor] == '\\' then cursor + 2 else cursor + 1;
    }
    return None;
  }

  method BalancedEnd(source: string, start: nat) returns (end: Option<nat>)
    requires start < |source| && source[start] in "{["
    ensures end == Balanced(source, start + 1, [source[start]])
  {
    var stack := [source[start]];
    var cursor := start + 1;
    while cursor < |source|
      invariant start < cursor <= |source| && stack != []
      invariant Balanced(source, cursor, stack) == Balanced(source, start + 1, [source[start]])
      decreases |source| - cursor
    {
      var c := source[cursor];
      if c == '"' {
        var e := JsonStringEnd(source, cursor);
        if e.None? { return None; }
        cursor := e.value;
      } else if c == '{' || c == '[' {
        stack := stack + [c];
        cursor := cursor + 1;
      } else if Closes(c, stack[|stack| - 1]) {
        if |stack| == 1 { return Some(cursor + 1); }
        stack := stack[..|stack| - 1];
        cursor := cursor + 1;
      } else {
        cursor := cursor + 1;
      }
    }
    return None;
  }

  method JsonValueEnd(source: string, start: nat) returns (end: Option<nat>)
    requires start <= |source|
    ensures end == ValueEnd(source, start)
  {
    if start < |source| && source[start] == '"' {
      end := JsonStringEnd(source, start);
      return;
    }
    if start < |source| && (source[start] == '{' || source[start] == '[') {
      end := BalancedEnd(source, start);
      return;
    }
    var cursor := start;
    while cursor < |source| && source[cursor] != ',' && source[cursor] != '}'
      invariant start <= cursor <= |source| && ScalarStop(source, cursor) == ScalarStop(source, start)
    {
      cursor := cursor + 1;
    }
    var e := cursor;
    while e > start && IsAsciiWhitespace(source[e - 1])
      invariant start <= e <= |source| && TrimBack(source, start, e) == TrimBack(source, start, cursor)
    {
      e := e - 1;
    }
    end := if e > start then Some(e) else None;
  }

  /** The name of one member, up to the start of its value. */
  method ScanName(source: string, cursor: nat) returns (name: Option<(string, nat)>)
    requires cursor <= |source|
    ensures name == NameScan(source, cursor)
  {
    hide Decode, ClosingQuote, StringEnd, SkipWhitespace;
    var keyEnd := JsonStringEnd(source, cursor);
    if keyEnd.None? { return None; }
    var key := Decode(source[cursor + 1..keyEnd.value - 1]);
    if key.None? { return None; }
    var colon := SkipAsciiWhitespace(source, keyEnd.value);
    if colon == |source| || source[colon] != ':' { return None; }
    var valueStart := SkipAsciiWhitespace(source, colon + 1);
    return Some((key.value, valueStart));
  }

  /** `top_level_json_member_value_range`: total on every text, and in bounds when it answers. */
  method TopLevelMemberValueRange(source: string, name: string) returns (range: Option<Range>)
    ensures range == MemberRange(source, name)
    ensures range.Some? ==> range.value.start < range.value.end <= |source|
  {
    hide NameScan, ValueEnd, SkipWhitespace;
    var cursor := SkipAsciiWhitespace(source, 0);
    if cursor == |source| || source[cursor] != '{' { return None; }
    cursor := cursor + 1;
    while true
      invariant cursor <= |source| && MemberScan(source, cursor, name) == MemberRange(source, name)
      decreases |source| - cursor
    {
      cursor := SkipAsciiWhitespace(source, cursor);
      if cursor < |source| && source[cursor] == '}' { return None; }
      var key := ScanName(source, cursor);
      if key.None? { return None; }
      var valueStart := key.value.1;
      var valueEnd := JsonValueEnd(source, valueStart);
      if valueEnd.None? { return None; }
      if key.value.0 == name { return Some(Range(valueStart, valueEnd.value)); }
      var next := SkipAsciiWhitespace(source, valueEnd.value);
      if next == |source| || source[next] != ',' { return None; }
      cursor := next + 1;
    }
  }
}
