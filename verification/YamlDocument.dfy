/** From the lines of a workflow file to rows and back: comments, blank lines and document markers disappear. */
module YamlDocument {
  import opened Options
  import opened YamlText
  import opened YamlParser
  import opened YamlRoundTrip

  // ----- From lines to rows -----

  /** `raw.replace("\t", "    ")` */
  function ExpandTabs(s: string): string {
    if s == "" then "" else ExpandTab(s[0]) + ExpandTabs(s[1..])
  }

  function ExpandTab(c: char): string { if c == '\t' then "    " else [c] }

  function LeadSpaces(s: string): (n: nat)
    ensures n <= |s| && (forall i | 0 <= i < n :: s[i] == ' ') && (n < |s| ==> s[n] != ' ')
  {
    if s != "" && s[0] == ' ' then 1 + LeadSpaces(s[1..]) else 0
  }

  predicate IsMarker(s: string) { s == "---" || s == "..." }

  function RowOf(raw: string): Option<Row> {
    var stripped := StripComment(ExpandTabs(raw));
    if Strip(stripped) == "" || IsMarker(Strip(stripped)) then None
    else
      var indent := LeadSpaces(stripped);
      Some((indent, if stripped[indent..] == "-" then "- " else stripped[indent..]))
  }

  function RowsOf(lines: seq<string>): seq<Row> {
    if lines == [] then []
    else
      var row := RowOf(lines[|lines| - 1]);
      RowsOf(lines[..|lines| - 1]) + (if row.Some? then [row.value] else [])
  }

  /** `parse_workflow_text` on the lines of the text: it accepts exactly when its rows parse to one mapping with nothing
      left over. */
  method ParseWorkflowText(lines: seq<string>) returns (r: Result<Tree, string>)
    ensures r.Ok? <==> ParseRows(RowsOf(lines)).Ok?
    ensures r.Ok? ==> r == ParseRows(RowsOf(lines))
  {
    hide Strip, StripComment, ExpandTabs, IsMarker, ParseBlock;
    var rows: seq<Row> := [];
    for k := 0 to |lines|
      invariant rows == RowsOf(lines[..k])
    {
      assert lines[..k + 1][..k] == lines[..k];
      var stripped := StripCommentLoop(ExpandTabs(lines[k]));
      if Strip(stripped) == "" || IsMarker(Strip(stripped)) { continue; }
      var indent := LeadSpaces(stripped);
      if stripped[indent..] == "-" {
        rows := rows + [(indent, "- ")];
        continue;
      }
      rows := rows + [(indent, stripped[indent..])];
    }
    assert lines[..|lines|] == lines;
    if rows == [] { return Err("empty document"); }
    var parsed := ParseBlockRows(rows, 0, rows[0].0);
    assert rows[0..] == rows;
    if parsed.Err? { return Err(parsed.error); }
    LeftOver(rows, parsed.value.1);
    if parsed.value.1 != |rows| { return Err("unrecognized structure"); }
    if !parsed.value.0.Mapping? { return Err("top level must be a mapping"); }
    return Ok(parsed.value.0);
  }

  // ----- Lines with comments, blank lines and markers -----

  /** One line of a file: a row, perhaps with a comment after it, or a line that carries nothing. */
  datatype Line =
    | RowLine(row: Row, comment: Option<(nat, string)>)
    | BlankLine(width: nat)
    | CommentLine(indent: nat, text: string)
    | MarkerLine(marker: string)

  function CommentText(comment: Option<(nat, string)>): string {
    if comment.None? then "" else Spaces(1 + comment.value.0) + "#" + comment.value.1
  }

  /** A bare dash is written without its space. */
  function ContentText(content: string): string { if content == "- " then "-" else content }

  function Render(line: Line): string {
    match line
    case RowLine((indent, content), comment) => Spaces(indent) + ContentText(content) + CommentText(comment)
    case BlankLine(width) => Spaces(width)
    case CommentLine(indent, text) => Spaces(indent) + "#" + text
    case MarkerLine(marker) => marker
  }

  function Rendered(lines: seq<Line>): seq<string> {
    if lines == [] then [] else Rendered(lines[..|lines| - 1]) + [Render(lines[|lines| - 1])]
  }

  /** The rows among the lines. */
  function Carried(lines: seq<Line>): seq<Row> {
    if lines == [] then []
    else
      var last := lines[|lines| - 1];
      Carried(lines[..|lines| - 1]) + (if last.RowLine? then [last.row] else [])
  }

  /** Content that survives on a line of its own: no tab, nothing to trim, no comment inside, all quotes closed. */
  predicate CleanContent(content: string) {
    && content != "" && content != "-" && content != "---" && content != "..."
    && Tight(ContentText(content)) && '\t' !in content
    && CommentAt(content, 0, None) == |content| && QuoteAt(content, |content|).None?
  }

  predicate LineOk(line: Line) {
    match line
    case RowLine((_, content), _) => CleanContent(content)
    case MarkerLine(marker) => marker == "---" || marker == "..."
    case _ => true
  }

  // ----- Reading a rendered line -----

  lemma {:induction false} SpacesAre(n: nat)
    ensures |Spaces(n)| == n && forall i | 0 <= i < n :: Spaces(n)[i] == ' '
  {
    if n > 0 { SpacesAre(n - 1); }
  }

  lemma {:induction false} ExpandsTo(a: string, b: string)
    ensures ExpandTabs(a + b) == ExpandTabs(a) + ExpandTabs(b)
  {
    hide ExpandTab;
    if a == "" { assert a + b == b; }
    else {
      ExpandsTo(a[1..], b);
      assert (a + b)[0] == a[0] && (a + b)[1..] == a[1..] + b;
    }
  }

  lemma {:induction false} NoTabs(s: string)
    requires '\t' !in s
    ensures ExpandTabs(s) == s
  {
    if s != "" {
      assert s[0] in s;
      NoTabs(s[1..]);
    }
  }

  /** Four spaces for each tab, and everything else as it was. */
  lemma TabsExpand(a: string, b: string)
    requires '\t' !in a
    ensures ExpandTabs(a) == a && ExpandTabs(a + "\t" + b) == a + "    " + ExpandTabs(b)
  {
    NoTabs(a);
    ExpandsTo(a, "\t");
    ExpandsTo(a + "\t", b);
    assert ExpandTabs("\t") == "    " + ExpandTabs("");
  }

  /** Blanks are no comment. */
  lemma {:induction false} CommentSkips(line: string, i: nat, j: nat)
    requires i <= j <= |line| && forall k | i <= k < j :: line[k] == ' '
    ensures CommentAt(line, i, None) == CommentAt(line, j, None)
    decreases j - i
  {
    if i < j { CommentSkips(line, i + 1, j); }
  }

  /** Clean content between blanks and whatever follows is passed over. */
  lemma {:induction false} CommentPasses(a: string, content: string, tail: string, i: nat)
    requires i <= |content| && (a == "" || Blank(a[|a| - 1]))
    requires CommentAt(content, i, QuoteAt(content, i)) == |content|
    ensures CommentAt(a + content + tail, |a| + i, QuoteAt(content, i))
            == CommentAt(a + content + tail, |a| + |content|, QuoteAt(content, |content|))
    decreases |content| - i
  {
    if i < |content| {
      var line := a + content + tail;
      assert line[|a| + i] == content[i] && (i > 0 ==> line[|a| + i - 1] == content[i - 1]);
      assert i == 0 && a != "" ==> line[|a| + i - 1] == a[|a| - 1];
      CommentPasses(a, content, tail, i + 1);
    }
  }

  /** Where the comment of a rendered row starts. */
  lemma RenderedComment(n: nat, content: string, comment: Option<(nat, string)>)
    requires CommentAt(content, 0, None) == |content| && QuoteAt(content, |content|).None?
    ensures var line := Spaces(n) + content + CommentText(comment);
            CommentAt(line, 0, None) == n + |content| + (if comment.Some? then 1 + comment.value.0 else 0)
  {
    hide QuoteAt, CommentAt, Spaces, CommentText;
    SpacesAre(n);
    var line, body := Spaces(n) + content + CommentText(comment), Spaces(n) + content;
    assert forall i | 0 <= i < n :: line[i] == Spaces(n)[i];
    CommentSkips(line, 0, n);
    StartUnquoted(content);
    CommentPasses(Spaces(n), content, CommentText(comment), 0);
    CommentInTail(body, comment);
  }

  lemma SpacesThen(body: string, k: nat, text: string)
    ensures var line, end := body + (Spaces(k) + "#" + text), |body|;
            end + k < |line| && line[end + k] == '#' && forall i | end <= i < end + k :: line[i] == ' '
  {
    hide Spaces;
    SpacesAre(k);
    var tail := Spaces(k) + "#" + text;
    forall i | |body| <= i < |body| + k ensures (body + tail)[i] == ' ' { assert (body + tail)[i] == tail[i - |body|]; }
    assert (body + tail)[|body| + k] == tail[k];
  }

  lemma CommentInTail(body: string, comment: Option<(nat, string)>)
    ensures CommentAt(body + CommentText(comment), |body|, None)
            == |body| + (if comment.Some? then 1 + comment.value.0 else 0)
  {
    hide CommentAt, Spaces;
    var tail := CommentText(comment);
    var line, end := body + tail, |body|;
    if comment.Some? {
      var k := 1 + comment.value.0;
      SpacesThen(body, k, comment.value.1);
      CommentSkips(line, end, end + k);
      CommentStarts(line, end + k);
    } else {
      EndsThere(line);
    }
  }

  lemma CommentStarts(line: string, i: nat)
    requires 0 < i < |line| && line[i] == '#' && Blank(line[i - 1])
    ensures CommentAt(line, i, None) == i
  {
  }

  lemma StartUnquoted(s: string)
    ensures QuoteAt(s, 0).None?
  {
  }

  lemma {:induction false} TrimsSpaces(s: string, k: nat)
    requires s == "" || !Space(s[|s| - 1])
    ensures TrimEnd(s + Spaces(k)) == s
  {
    SpacesAre(k);
    var t := s + Spaces(k);
    if k == 0 { assert t == s; }
    else {
      SpacesAre(k - 1);
      assert t[..|t| - 1] == s + Spaces(k - 1);
      TrimsSpaces(s, k - 1);
    }
  }

  lemma {:induction false} LeadSpacesOf(n: nat, content: string)
    requires content == "" || content[0] != ' '
    ensures LeadSpaces(Spaces(n) + content) == n
  {
    SpacesAre(n);
    var s := Spaces(n) + content;
    assert n < |s| ==> s[n] == content[0];
  }

  lemma SpacesHaveNoTab(n: nat)
    ensures '\t' !in Spaces(n)
  {
    SpacesAre(n);
  }

  /** After the comment is stripped, a rendered row is its indentation and its content. */
  lemma RenderedStrips(n: nat, content: string, comment: Option<(nat, string)>)
    requires content != "" && Tight(content) && '\t' !in content
    requires CommentAt(content, 0, None) == |content| && QuoteAt(content, |content|).None?
    ensures StripComment(ExpandTabs(Spaces(n) + content + CommentText(comment))) == Spaces(n) + content
  {
    hide CommentAt, QuoteAt, ExpandTabs, TrimEnd, Spaces, CommentText;
    var body := Spaces(n) + content;
    var k := if comment.Some? then 1 + comment.value.0 else 0;
    var expanded := ExpandComment(comment);
    SpacesHaveNoTab(n);
    NoTabs(body);
    ExpandsTo(body, CommentText(comment));
    RenderedComment(n, content, expanded);
    SpacesAre(n);
    CommentBegins(body, expanded);
    TrimsSpaces(body, k);
  }

  /** Tabs in a comment only change its text. */
  lemma ExpandComment(comment: Option<(nat, string)>) returns (expanded: Option<(nat, string)>)
    ensures ExpandTabs(CommentText(comment)) == CommentText(expanded)
    ensures expanded.Some? == comment.Some? && (comment.Some? ==> expanded.value.0 == comment.value.0)
  {
    hide ExpandTabs, Spaces;
    expanded := comment;
    if comment.Some? {
      var k := 1 + comment.value.0;
      SpacesHaveNoTab(k);
      NoTabs(Spaces(k) + "#");
      ExpandsTo(Spaces(k) + "#", comment.value.1);
      expanded := Some((comment.value.0, ExpandTabs(comment.value.1)));
    } else {
      NoTabs("");
    }
  }

  lemma CommentBegins(body: string, comment: Option<(nat, string)>)
    ensures var k := if comment.Some? then 1 + comment.value.0 else 0;
            |body| + k <= |body + CommentText(comment)|
            && (body + CommentText(comment))[..|body| + k] == body + Spaces(k)
  {
    hide Spaces;
    var k := if comment.Some? then 1 + comment.value.0 else 0;
    SpacesAre(k);
    assert CommentText(comment)[..k] == Spaces(k);
  }

  lemma StripsToContent(n: nat, content: string)
    requires content != "" && Tight(content)
    ensures Strip(Spaces(n) + content) == content
  {
    hide TrimEnd, TrimStart, Spaces, Space;
    SpacesAre(n);
    BlankIsSpace();
    var s := Spaces(n) + content;
    assert s[|s| - 1] == content[|content| - 1] && s[n] == content[0];
    assert TrimEnd(s) == s;
    var r := TrimStart(s);
    assert !Space(s[n]) && |r| > 0;
    assert r[0] == s[|s| - |r|];
    assert s[n..] == content;
  }

  /** A row is read back from its line, with or without a comment. */
  lemma RowReadsBack(n: nat, content: string, comment: Option<(nat, string)>)
    requires CleanContent(content)
    ensures RowOf(Render(RowLine((n, content), comment))) == Some((n, content))
  {
    hide CommentAt, QuoteAt, ExpandTabs, Strip, StripComment, Spaces;
    var text := ContentText(content);
    DashIsClean(content);
    RenderedStrips(n, text, comment);
    StripsToContent(n, text);
    LeadSpacesOf(n, text);
    SpacesAre(n);
    assert (Spaces(n) + text)[n..] == text;
  }

  lemma DashIsClean(content: string)
    requires CleanContent(content)
    ensures var text := ContentText(content);
            text != "" && !IsMarker(text) && '\t' !in text && text[0] != ' '
            && CommentAt(text, 0, None) == |text| && QuoteAt(text, |text|).None?
  {
  }

  /** Blank lines, comment lines and document markers carry nothing. */
  lemma FillerReadsNothing(line: Line)
    requires LineOk(line) && !line.RowLine?
    ensures RowOf(Render(line)).None?
  {
    hide CommentAt, ExpandTabs, TrimEnd, Strip, Spaces;
    match line
    case BlankLine(width) =>
      SpacesHaveNoTab(width);
      NoTabs(Spaces(width));
      SpacesAre(width);
      CommentSkips(Spaces(width), 0, width);
      EndsThere(Spaces(width));
      TrimsSpaces("", width);
      assert "" + Spaces(width) == Spaces(width) && Spaces(width)[..width] == Spaces(width);
      StripTight("");
    case CommentLine(indent, text) =>
      SpacesHaveNoTab(indent);
      NoTabs(Spaces(indent) + "#");
      ExpandsTo(Spaces(indent) + "#", text);
      CommentWhole(indent, ExpandTabs(text));
      StripTight("");
    case MarkerLine(marker) => MarkerStrips(marker);
  }

  lemma EndsThere(line: string)
    ensures CommentAt(line, |line|, None) == |line|
  {
  }

  lemma CommentWhole(indent: nat, text: string)
    ensures StripComment(Spaces(indent) + "#" + text) == ""
  {
    hide TrimEnd;
    SpacesAre(indent);
    var line := Spaces(indent) + "#" + text;
    CommentSkips(line, 0, indent);
    assert line[..indent] == Spaces(indent) == "" + Spaces(indent);
    TrimsSpaces("", indent);
  }

  lemma MarkerStrips(marker: string)
    requires IsMarker(marker)
    ensures Strip(StripComment(ExpandTabs(marker))) == marker
  {
    hide CommentAt, ExpandTabs, TrimEnd, Strip;
    NoTabs(marker);
    PlainHasNoComment(marker, 0);
    assert marker[..|marker|] == marker;
    StripTight(marker);
  }

  lemma {:induction false} PlainHasNoComment(s: string, i: nat)
    requires i <= |s| && forall k | 0 <= k < |s| :: !IsQuote(s[k]) && s[k] != '#'
    ensures CommentAt(s, i, None) == |s|
    decreases |s| - i
  {
    if i < |s| { PlainHasNoComment(s, i + 1); }
  }

  lemma {:induction false} LinesReadBack(lines: seq<Line>)
    requires forall i | 0 <= i < |lines| :: LineOk(lines[i])
    ensures RowsOf(Rendered(lines)) == Carried(lines)
  {
    hide RowOf, LineOk, Render;
    if lines != [] {
      var n := |lines| - 1;
      LinesReadBack(lines[..n]);
      assert Rendered(lines)[..|Rendered(lines)| - 1] == Rendered(lines[..n]);
      ReadsBack(lines[n]);
    }
  }

  lemma ReadsBack(line: Line)
    requires LineOk(line)
    ensures RowOf(Render(line)) == if line.RowLine? then Some(line.row) else None
  {
    hide RowOf, Render, CleanContent;
    if line.RowLine? { RowReadsBack(line.row.0, line.row.1, line.comment); }
    else { FillerReadsNothing(line); }
  }

  /** Round trip on files: however comments, blank lines and markers are strewn over the printed rows of a tree, the
      file parses back to the tree. */
  lemma FileRoundTrip(fields: Fields, n: nat, lines: seq<Line>)
    requires fields.Field? && FieldsOk(fields)
    requires (forall i | 0 <= i < |lines| :: LineOk(lines[i])) && Carried(lines) == PrintFields(fields, n)
    ensures ParseRows(RowsOf(Rendered(lines))) == Ok(Mapping(FieldValues(fields, n)))
  {
    hide ParseRows, FieldsOk, LineOk, RowsOf, Rendered, Carried, PrintFields, FieldValues;
    LinesReadBack(lines);
    RowsRoundTrip(fields, n);
  }
}
