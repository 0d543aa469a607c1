/** The compatibility rule for a peer's cache TTL, once on the decoded value and once on the source
    text, and the proof that the two agree: a commuting square over the JSON grammar. */
module TtlRewrite {
  import opened Options
  import opened JsonGrammar
  import opened JsonRoundTrip
  import opened JsonMeaning
  import opened TtlScanner
  import opened TtlScannerCorrect

  datatype FinalRequest =
    | ToolsList | ResourcesList | ResourceTemplatesList | ResourcesRead | PromptsList | OtherFinal

  datatype CoreRequest = Legacy | Final(request: FinalRequest)

  datatype Diagnostic = Missing | Negative

  datatype RewriteError = SourceNotAnObject | NoObject | MemberNotLocated

  const TTL := "ttlMs"

  predicate HasCacheTtl(request: CoreRequest) {
    request.Final? && !request.request.OtherFinal?
  }

  /** `tolerant_final_cache_ttl`: the rewritten value and what was wrong with it. */
  function TolerantTtl(request: CoreRequest, result: Json): (Json, Option<Diagnostic>) {
    if !HasCacheTtl(request) || !result.Dict? then (result, None)
    else
      var members := result.members;
      if "resultType" in members && members["resultType"] != String("complete") then (result, None)
      else if TTL !in members then (Dict(members[TTL := Number("0")]), Some(Missing))
      else if members[TTL].Number? && members[TTL].lexeme != "" && members[TTL].lexeme[0] == '-' then
        (Dict(members[TTL := Number("0")]), Some(Negative))
      else (result, None)
  }

  /** The results that the rule is about: complete answers to a list or read request of the final era. */
  ghost predicate Cacheable(request: CoreRequest, result: Json) {
    && (request == Final(ToolsList) || request == Final(ResourcesList) || request == Final(ResourceTemplatesList)
        || request == Final(ResourcesRead) || request == Final(PromptsList))
    && result.Dict? && ("resultType" in result.members ==> result.members["resultType"] == String("complete"))
  }

  ghost predicate IsNegative(value: Json) { value.Number? && "-" <= value.lexeme }

  /** A cacheable result ends up with a TTL that is no negative number and with every other member as it was, and the
      diagnostic says what was wrong; every other result is left alone. A second pass changes nothing. */
  lemma TolerantTtlExactly(request: CoreRequest, result: Json)
    ensures var (value, diagnostic) := TolerantTtl(request, result);
            if Cacheable(request, result)
            then
              && value.Dict? && "ttlMs" in value.members && !IsNegative(value.members["ttlMs"])
              && value.members - {"ttlMs"} == result.members - {"ttlMs"}
              && (diagnostic == Some(Missing) <==> "ttlMs" !in result.members)
              && (diagnostic == Some(Negative) <==>
                    "ttlMs" in result.members && IsNegative(result.members["ttlMs"]))
              && (if diagnostic.None? then value == result else value.members["ttlMs"] == Number("0"))
            else value == result && diagnostic.None?
    ensures var (value, _) := TolerantTtl(request, result); TolerantTtl(request, value) == (value, None)
  {
    assert "-"[0] == '-' && "0"[0] == '0';
    assert !IsNegative(Number("0"));
    if result.Dict? && TTL in result.members && result.members[TTL].Number? {
      var lexeme := result.members[TTL].lexeme;
      assert "-" <= lexeme <==> lexeme != "" && lexeme[0] == "-"[0];
    }
  }

  // ----- The rule on the source text -----

  /** `char::is_whitespace`, the Unicode White_Space property. */
  predicate IsUnicodeWhitespace(c: char) {
    9 as char <= c <= 13 as char || c == ' ' || c == 0x85 as char || c == 0xA0 as char || c == 0x1680 as char
    || 0x2000 as char <= c <= 0x200A as char || c == 0x2028 as char || c == 0x2029 as char
    || c == 0x202F as char || c == 0x205F as char || c == 0x3000 as char
  }

  /** Length of the text before `e` without its trailing white space. */
  function TrimmedEnd(s: string, e: nat): (r: nat)
    requires e <= |s|
    ensures r <= e && (r > 0 ==> !IsUnicodeWhitespace(s[r - 1]))
    ensures forall k | r <= k < e :: IsUnicodeWhitespace(s[k])
  {
    if e > 0 && IsUnicodeWhitespace(s[e - 1]) then TrimmedEnd(s, e - 1) else e
  }

  function IndexOf(s: string, c: char, i: nat): (r: Option<nat>)
    requires i <= |s|
    ensures r.Some? ==> i <= r.value < |s| && s[r.value] == c && forall k | i <= k < r.value :: s[k] != c
    ensures r.None? ==> forall k | i <= k < |s| :: s[k] != c
    decreases |s| - i
  {
    if i == |s| then None else if s[i] == c then Some(i) else IndexOf(s, c, i + 1)
  }

  const TTL_MEMBER := "\"ttlMs\":0"

  /** `normalize_final_cache_ttl_source` */
  function NormalizeSource(source: string, diagnostic: Option<Diagnostic>): Result<string, RewriteError> {
    match diagnostic
    case None => Ok(source)
    case Some(Missing) =>
      var end := TrimmedEnd(source, |source|);
      if end == 0 || source[end - 1] != '}' then Err(SourceNotAnObject)
      else
        var open := IndexOf(source, '{', 0);
        if open.None? then Err(NoObject)
        else
          var interior := source[open.value + 1..end - 1];
          var separator := if TrimmedEnd(interior, |interior|) == 0 then "" else ",";
          Ok(source[..end - 1] + separator + TTL_MEMBER + source[end - 1..])
    case Some(Negative) =>
      var range := MemberRange(source, TTL);
      if range.None? then Err(MemberNotLocated)
      else Ok(source[..range.value.start] + "0" + source[range.value.end..])
  }

  // ----- The rule on syntax trees -----

  const ZERO_MEMBER := Member("", TTL, "", "", Literal("0"), "", NoMembers)

  function AppendMember(ms: Members): Members
    requires ms.Member?
  {
    ms.(rest := if ms.rest.NoMembers? then ZERO_MEMBER else AppendMember(ms.rest))
  }

  function ReplaceFirst(ms: Members, name: string): Members
    requires WellFormedMembers(ms)
  {
    if ms.NoMembers? then NoMembers
    else if Decode(ms.key).value == name then ms.(value := Literal("0"))
    else ms.(rest := ReplaceFirst(ms.rest, name))
  }

  function RewriteObject(v: Value, diagnostic: Diagnostic): Value
    requires v.Object? && WellFormed(v)
  {
    match diagnostic
    case Missing =>
      Object("", if v.members.NoMembers? then ZERO_MEMBER.(before := v.blank) else AppendMember(v.members))
    case Negative => v.(members := ReplaceFirst(v.members, TTL))
  }

  lemma ZeroIsLiteral()
    ensures IsLiteral("0") && Decode(TTL) == Some(TTL)
  {
    assert DigitsEnd("0", 0) == 1;
    assert IsNumber("0");
    PlainDecodes(TTL);
  }

  lemma {:induction false} PlainDecodes(raw: string)
    requires forall k | 0 <= k < |raw| :: raw[k] >= ' ' && raw[k] != '"' && raw[k] != '\\'
    ensures Decode(raw) == Some(raw)
  {
    if raw != "" {
      PlainDecodes(raw[1..]);
      assert FirstCharacter(raw) == Some((1, raw[0]));
      assert raw == [raw[0]] + raw[1..];
    }
  }

  // Appending a member

  lemma {:induction false} AppendPrints(ms: Members)
    requires ms.Member? && WellFormedMembers(ms)
    ensures WellFormedMembers(AppendMember(ms))
    ensures PrintMembers(AppendMember(ms)) == PrintMembers(ms) + ("," + TTL_MEMBER)
  {
    hide Decode, IsLiteral, WellFormed, PrintName;
    var head := PrintName(ms) + Print(ms.value) + ms.after;
    assert PrintName(AppendMember(ms)) == PrintName(ms) by { SameName(ms, AppendMember(ms)); }
    if ms.rest.NoMembers? {
      ZeroMemberPrints("");
      assert PrintMembers(AppendMember(ms)) == head + ("," + TTL_MEMBER);
    } else {
      AppendPrints(ms.rest);
      assert PrintMembers(AppendMember(ms)) == head + ("," + PrintMembers(AppendMember(ms.rest)));
    }
  }

  lemma SameName(m: Members, m': Members)
    requires m.Member? && m'.Member? && m' == m.(value := m'.value, after := m'.after, rest := m'.rest)
    ensures PrintName(m) == PrintName(m')
  {
  }

  lemma ZeroMemberPrints(blank: string)
    requires AllBlank(blank)
    ensures var m := ZERO_MEMBER.(before := blank); WellFormedMembers(m) && PrintMembers(m) == blank + TTL_MEMBER
  {
    hide Decode, IsLiteral;
    ZeroIsLiteral();
  }

  lemma {:induction false} AppendDenotes(ms: Members)
    requires ms.Member? && WellFormedMembers(ms) && WellFormedMembers(AppendMember(ms)) && Occurrences(ms, TTL) == 0
    ensures DenoteMembers(AppendMember(ms)) == DenoteMembers(ms)[TTL := Number("0")]
  {
    hide Decode, IsLiteral;
    ZeroIsLiteral();
    if ms.rest.Member? { AppendDenotes(ms.rest); }
  }

  // Replacing a value

  /** What stands after the value of a member. */
  function PrintTail(m: Members): string
    requires m.Member?
  {
    m.after + (if m.rest.NoMembers? then "" else "," + PrintMembers(m.rest))
  }

  lemma PrintParts(m: Members)
    requires m.Member?
    ensures PrintMembers(m) == PrintName(m) + (Print(m.value) + PrintTail(m))
  {
    hide Print, PrintName;
    var n, p, rest := PrintName(m), Print(m.value), if m.rest.NoMembers? then "" else "," + PrintMembers(m.rest);
    assert n + p + m.after + rest == n + (p + (m.after + rest));
  }

  lemma ReplaceHere(ms: Members, v: Value)
    requires ms.Member?
    ensures var a := |PrintName(ms)|; var b := a + |Print(ms.value)|; var p := PrintMembers(ms);
            PrintMembers(ms.(value := v)) == p[..a] + Print(v) + p[b..]
  {
    hide Print, PrintName, PrintTail, PrintMembers;
    PrintParts(ms);
    PrintParts(ms.(value := v));
    SameName(ms, ms.(value := v));
    assert PrintTail(ms.(value := v)) == PrintTail(ms) by { SameTail(ms, ms.(value := v)); }
  }

  lemma SameTail(m: Members, m': Members)
    requires m.Member? && m'.Member? && m.after == m'.after && m.rest == m'.rest
    ensures PrintTail(m) == PrintTail(m')
  {
  }

  /** A member that others follow, with its comma. */
  function PrintHead(m: Members): string
    requires m.Member?
  {
    PrintName(m) + Print(m.value) + m.after + ","
  }

  lemma PrintLater(m: Members, rest: Members)
    requires m.Member? && rest.Member?
    ensures PrintMembers(m.(rest := rest)) == PrintHead(m) + PrintMembers(rest)
  {
    SameName(m, m.(rest := rest));
  }

  lemma {:induction false} ReplacePrints(ms: Members, name: string)
    requires WellFormedMembers(ms) && Span(ms, name).Some?
    ensures WellFormedMembers(ReplaceFirst(ms, name))
    ensures var r := Span(ms, name).value; var p := PrintMembers(ms);
            PrintMembers(ReplaceFirst(ms, name)) == p[..r.start] + "0" + p[r.end..]
  {
    hide Decode, IsLiteral, WellFormed, PrintName, PrintMembers;
    if Decode(ms.key).value == name {
      ZeroWellFormed();
      ReplaceHere(ms, Literal("0"));
    } else {
      ReplacePrints(ms.rest, name);
      var head := PrintHead(ms);
      SpliceAfter(head, PrintMembers(ms.rest), Span(ms.rest, name).value);
      PrintLater(ms, ms.rest);
      PrintLater(ms, ReplaceFirst(ms.rest, name));
    }
  }

  lemma ZeroWellFormed()
    ensures WellFormed(Literal("0"))
  {
    ZeroIsLiteral();
  }

  lemma SpliceAfter(head: string, q: string, r: Range)
    requires r.start <= r.end <= |q|
    ensures var p := head + q; var h := |head|;
            head + (q[..r.start] + "0" + q[r.end..]) == p[..h + r.start] + "0" + p[h + r.end..]
  {
    var p, h := head + q, |head|;
    assert p[..h + r.start] == head + q[..r.start];
    assert p[h + r.end..] == q[r.end..];
  }

  lemma {:induction false} SpanIffOccurs(ms: Members, name: string)
    requires WellFormedMembers(ms)
    ensures Span(ms, name).Some? <==> Occurrences(ms, name) > 0
  {
    if ms.Member? { SpanIffOccurs(ms.rest, name); }
  }

  /** Replacing the first of several members with one name changes nothing that is denoted. */
  lemma {:induction false} ReplaceDenotes(ms: Members, name: string)
    requires WellFormedMembers(ms) && Occurrences(ms, name) > 0 && WellFormedMembers(ReplaceFirst(ms, name))
    ensures DenoteMembers(ReplaceFirst(ms, name)) ==
            if Occurrences(ms, name) == 1 then DenoteMembers(ms)[name := Number("0")] else DenoteMembers(ms)
  {
    hide Decode, IsLiteral;
    OccursIffDenoted(ms.rest, name);
    if Decode(ms.key).value != name { ReplaceDenotes(ms.rest, name); }
  }

  // ----- The two rules agree -----

  /** What `decode_core_result_from_source` asks of a source text before it decodes it. */
  predicate SourceAdmitted(result: Json, source: string) {
    var d := ParseText(source);
    d.Some? && (ParseInvertsPrint(source, d.value); Denote(d.value.value) == result)
  }

  /** The document that the rewritten source spells: only the TTL member differs. */
  function RewriteDocument(d: Document, diagnostic: Option<Diagnostic>): Document
    requires WellFormedText(d) && (diagnostic.Some? ==> d.value.Object?)
  {
    if diagnostic.None? then d else d.(value := RewriteObject(d.value, diagnostic.value))
  }

  lemma MissingRewrite(d: Document)
    requires WellFormedText(d) && d.value.Object?
    ensures var d' := RewriteDocument(d, Some(Missing));
            WellFormedText(d') && NormalizeSource(PrintText(d), Some(Missing)) == Ok(PrintText(d'))
  {
    hide WellFormedMembers, PrintMembers, TrimmedEnd, IndexOf;
    NothingPrinted();
    var s := PrintText(d);
    var v := d.value;
    var inner := v.blank + PrintMembers(v.members);
    var added := (if v.members.NoMembers? then "" else ",") + TTL_MEMBER;
    if v.members.NoMembers? { ZeroMemberPrints(v.blank); } else { AppendPrints(v.members); }
    assert PrintMembers(RewriteObject(v, Missing).members) == inner + added;
    assert s == d.before + "{" + inner + "}" + d.after;
    assert Print(RewriteObject(v, Missing)) == "{" + (inner + added) + "}";
    InteriorBlank(v);
    MissingSplice(d.before, inner, d.after);
  }

  /** The appended member lands before the last brace of any text shaped like an object. */
  lemma MissingSplice(before: string, inner: string, after: string)
    requires AllBlank(before) && AllBlank(after)
    ensures var added := (if TrimmedEnd(inner, |inner|) == 0 then "" else ",") + TTL_MEMBER;
            NormalizeSource(before + "{" + inner + "}" + after, Some(Missing))
            == Ok(before + ("{" + (inner + added) + "}") + after)
  {
    hide NormalizeSource, TrimmedEnd, IndexOf, AllBlank, IsEnclosed;
    var s, close := before + "{" + inner + "}" + after, |before| + 1 + |inner|;
    Enclosed(before, inner, after);
    MissingAt(s, before, inner, after);
    EnclosedText(s, before, inner, after);
    var separator := if TrimmedEnd(inner, |inner|) == 0 then "" else ",";
    Regroup(s[..close], s[close..], before, inner, separator, TTL_MEMBER, after);
  }

  /** `s` is the object whose text between the braces is `inner`. */
  ghost predicate IsEnclosed(s: string, before: string, inner: string, after: string) {
    var close := |before| + 1 + |inner|;
    close < |s| && s[close] == '}' && s[close + 1..] == after && before + "{" <= s
    && s[|before| + 1..close] == inner && s[..close] == before + "{" + inner && s[close..] == "}" + after
  }

  lemma MissingAt(s: string, before: string, inner: string, after: string)
    requires AllBlank(before) && AllBlank(after) && IsEnclosed(s, before, inner, after)
    ensures |before| + 1 + |inner| < |s|
    ensures var close := |before| + 1 + |inner|;
            NormalizeSource(s, Some(Missing))
            == Ok(s[..close] + (if TrimmedEnd(inner, |inner|) == 0 then "" else ",") + TTL_MEMBER + s[close..])
  {
    hide NormalizeSource, TrimmedEnd, IndexOf, AllBlank, IsEnclosed;
    var close := |before| + 1 + |inner|;
    EnclosedText(s, before, inner, after);
    LastCloser(s, close, after);
    FirstOpener(s, before);
    MissingParts(s, |before|, close);
  }

  lemma EnclosedText(s: string, before: string, inner: string, after: string)
    requires IsEnclosed(s, before, inner, after)
    ensures var close := |before| + 1 + |inner|;
            close < |s| && s[close] == '}' && s[close + 1..] == after && before + "{" <= s
            && s[|before| + 1..close] == inner && s[..close] == before + "{" + inner && s[close..] == "}" + after
  {
  }

  lemma Enclosed(before: string, inner: string, after: string)
    ensures IsEnclosed(before + "{" + inner + "}" + after, before, inner, after)
  {
    var head, tail := before + "{" + inner, "}" + after;
    var s := before + "{" + inner + "}" + after;
    assert s == head + tail;
    assert s[|head|..] == tail && tail[1..] == after && s[..|head|] == head;
    assert head[|before| + 1..] == inner;
  }

  lemma MissingParts(s: string, open: nat, close: nat)
    requires open < close < |s| && s[close] == '}'
    requires TrimmedEnd(s, |s|) == close + 1 && IndexOf(s, '{', 0) == Some(open)
    ensures var inner := s[open + 1..close];
            NormalizeSource(s, Some(Missing))
            == Ok(s[..close] + (if TrimmedEnd(inner, |inner|) == 0 then "" else ",") + TTL_MEMBER + s[close..])
  {
  }

  lemma Regroup(head: string, tail: string, before: string, inner: string, separator: string, member: string,
                after: string)
    requires head == before + "{" + inner && tail == "}" + after
    ensures head + separator + member + tail == before + ("{" + (inner + (separator + member)) + "}") + after
  {
    var middle := separator + member;
    assert head + separator + member == head + middle;
    assert head + middle == before + ("{" + (inner + middle));
    assert before + ("{" + (inner + middle)) + tail == before + ("{" + (inner + middle) + "}") + after;
  }

  lemma LastCloser(s: string, close: nat, after: string)
    requires close < |s| && s[close] == '}' && s[close + 1..] == after && AllBlank(after)
    ensures TrimmedEnd(s, |s|) == close + 1
  {
    forall k | close < k < |s| ensures IsUnicodeWhitespace(s[k]) {
      assert s[k] == after[k - close - 1];
    }
  }

  lemma FirstOpener(s: string, before: string)
    requires before + "{" <= s && AllBlank(before)
    ensures IndexOf(s, '{', 0) == Some(|before|)
  {
    assert s[|before|] == (before + "{")[|before|];
    forall k | 0 <= k < |before| ensures IsBlank(s[k]) { assert s[k] == (before + "{")[k]; }
  }

  /** The text between the outer braces is blank exactly when the object has no member. */
  lemma InteriorBlank(v: Value)
    requires v.Object? && WellFormed(v)
    ensures var inner := v.blank + PrintMembers(v.members);
            TrimmedEnd(inner, |inner|) == 0 <==> v.members.NoMembers?
  {
    hide TrimmedEnd;
    var inner := v.blank + PrintMembers(v.members);
    var r := TrimmedEnd(inner, |inner|);
    if v.members.NoMembers? {
      assert inner == v.blank;
      assert forall k | 0 <= k < |inner| :: IsUnicodeWhitespace(inner[k]);
    } else {
      QuoteInside(v.blank, v.members);
    }
  }

  lemma QuoteInside(blank: string, m: Members)
    requires m.Member?
    ensures var inner, i := blank + PrintMembers(m), |blank| + |m.before|; i < |inner| && inner[i] == '"'
  {
    hide Print, PrintMembers, PrintTail;
    PrintParts(m);
    QuoteOfName(m);
    assert PrintMembers(m)[|m.before|] == PrintName(m)[|m.before|];
  }

  lemma QuoteOfName(m: Members)
    requires m.Member?
    ensures |m.before| < |PrintName(m)| && PrintName(m)[|m.before|] == '"'
  {
    assert PrintName(m) == m.before + "\"" + (m.key + "\"" + m.afterKey + ":" + m.beforeValue);
  }

  lemma NegativeRewrite(d: Document)
    requires WellFormedText(d) && d.value.Object? && Occurrences(d.value.members, TTL) > 0
    ensures var d' := RewriteDocument(d, Some(Negative));
            WellFormedText(d') && NormalizeSource(PrintText(d), Some(Negative)) == Ok(PrintText(d'))
  {
    hide WellFormedMembers, PrintMembers, MemberRange, Span, Occurrences;
    var ms := d.value.members;
    ScannerFindsFirstMember(d, TTL);
    SpanIffOccurs(ms, TTL);
    ReplacePrints(ms, TTL);
    var head, tail := d.before + "{" + d.value.blank, "}" + d.after;
    SpliceInside(head, PrintMembers(ms), tail, Span(ms, TTL).value);
    ObjectSpelled(d);
    ObjectSpelled(RewriteDocument(d, Some(Negative)));
  }

  lemma ObjectSpelled(d: Document)
    requires d.value.Object?
    ensures PrintText(d) == (d.before + "{" + d.value.blank) + PrintMembers(d.value.members) + ("}" + d.after)
  {
    hide PrintMembers;
  }

  lemma SpliceInside(head: string, p: string, tail: string, r: Range)
    requires r.start <= r.end <= |p|
    ensures var s := head + p + tail; var h := |head|;
            s[..h + r.start] + "0" + s[h + r.end..] == head + (p[..r.start] + "0" + p[r.end..]) + tail
  {
    var s, h := head + p + tail, |head|;
    assert s[..h + r.start] == head + p[..r.start];
    assert s[h + r.end..] == p[r.end..] + tail;
  }

  /** The rewritten source is always found, is always a JSON text, and spells the input document with
      only the TTL member changed. */
  lemma RewriteIsLexical(request: CoreRequest, source: string, d: Document)
    requires ParseText(source) == Some(d)
    ensures WellFormedText(d)
    ensures var diagnostic := TolerantTtl(request, Denote(d.value)).1;
            (diagnostic.Some? ==> d.value.Object?)
            && NormalizeSource(source, diagnostic).Ok?
            && ParseText(NormalizeSource(source, diagnostic).value) == Some(RewriteDocument(d, diagnostic))
  {
    ParseInvertsPrint(source, d);
    var diagnostic := TolerantTtl(request, Denote(d.value)).1;
    var d' := RewriteDocument(d, diagnostic);
    if diagnostic == Some(Missing) {
      MissingRewrite(d);
    } else if diagnostic == Some(Negative) {
      OccursIffDenoted(d.value.members, TTL);
      NegativeRewrite(d);
    }
    ParseInvertsPrint(PrintText(d'), d');
  }

  /** The square commutes: the rewritten source is admitted against the rewritten value, except
      exactly when the negative TTL member is one of several with that name. */
  lemma RewriteCommutes(request: CoreRequest, source: string, d: Document)
    requires ParseText(source) == Some(d)
    ensures WellFormedText(d)
    ensures var (rewritten, diagnostic) := TolerantTtl(request, Denote(d.value));
            NormalizeSource(source, diagnostic).Ok?
            && (SourceAdmitted(rewritten, NormalizeSource(source, diagnostic).value)
                <==> !(diagnostic == Some(Negative) && Occurrences(d.value.members, TTL) > 1))
  {
    hide ParseText, NormalizeSource, RewriteObject, DenoteMembers, WellFormedMembers, Occurrences, PrintText;
    RewriteIsLexical(request, source, d);
    var (rewritten, diagnostic) := TolerantTtl(request, Denote(d.value));
    var d' := RewriteDocument(d, diagnostic);
    ParseInvertsPrint(NormalizeSource(source, diagnostic).value, d');
    if diagnostic.Some? {
      OccursIffDenoted(d.value.members, TTL);
      RewriteDenotes(d, diagnostic.value);
      var m := DenoteMembers(d.value.members);
      assert rewritten == Dict(m[TTL := Number("0")]);
      assert diagnostic == Some(Negative) ==> m[TTL] != Number("0");
      assert Occurrences(d.value.members, TTL) <= 1 ==> Denote(d'.value) == rewritten;
    }
  }

  /** What is decoded after the rewrite, in terms of the source alone: the text of a cacheable object, when its TTL
      occurs at most once, becomes the text of an object with an acceptable TTL and the other members as they were, and
      rewriting it again leaves every character in place. */
  lemma RewrittenSource(request: CoreRequest, source: string, d: Document) returns (text: string, d': Document)
    requires ParseText(source) == Some(d)
    ensures WellFormedText(d)
    ensures NormalizeSource(source, TolerantTtl(request, Denote(d.value)).1) == Ok(text)
    ensures ParseText(text) == Some(d') && WellFormedText(d')
    ensures !Cacheable(request, Denote(d.value)) ==> text == source
    ensures Cacheable(request, Denote(d.value)) && Occurrences(d.value.members, "ttlMs") <= 1 ==>
              && Denote(d'.value).Dict?
              && (var m, m' := Denote(d.value).members, Denote(d'.value).members;
                  "ttlMs" in m' && !IsNegative(m'["ttlMs"]) && m' - {"ttlMs"} == m - {"ttlMs"})
              && NormalizeSource(text, TolerantTtl(request, Denote(d'.value)).1) == Ok(text)
  {
    hide ParseText, NormalizeSource, TolerantTtl, IsNegative, DenoteMembers, PrintText, Occurrences;
    ParseInvertsPrint(source, d);
    CacheableIsObject(request, d);
    RewriteCommutes(request, source, d);
    RewriteIsLexical(request, source, d);
    TolerantTtlExactly(request, Denote(d.value));
    var (rewritten, diagnostic) := TolerantTtl(request, Denote(d.value));
    text, d' := NormalizeSource(source, diagnostic).value, RewriteDocument(d, diagnostic);
    ParseInvertsPrint(text, d');
    NothingToNormalize(source);
    NothingToNormalize(text);
    if Cacheable(request, Denote(d.value)) && Occurrences(d.value.members, "ttlMs") <= 1 {
      assert Denote(d'.value) == rewritten;
    }
  }

  lemma CacheableIsObject(request: CoreRequest, d: Document)
    requires WellFormedText(d)
    ensures Cacheable(request, Denote(d.value)) ==> d.value.Object?
  {
    hide DenoteMembers;
  }

  lemma NothingToNormalize(source: string)
    ensures NormalizeSource(source, None) == Ok(source)
  {
  }

  lemma RewriteDenotes(d: Document, diagnostic: Diagnostic)
    requires WellFormedText(d) && d.value.Object?
    requires (diagnostic == Missing) == (Occurrences(d.value.members, TTL) == 0)
    requires WellFormedText(RewriteDocument(d, Some(diagnostic)))
    ensures Denote(RewriteDocument(d, Some(diagnostic)).value)
            == Dict(if Occurrences(d.value.members, TTL) > 1 then DenoteMembers(d.value.members)
                    else DenoteMembers(d.value.members)[TTL := Number("0")])
  {
    hide Decode, IsLiteral;
    ZeroIsLiteral();
    var ms := d.value.members;
    if diagnostic == Negative {
      ReplaceDenotes(ms, TTL);
    } else if ms.Member? {
      AppendDenotes(ms);
    } else {
      var m := ZERO_MEMBER.(before := d.value.blank);
      assert DenoteMembers(m.rest) == map[] && Denote(m.value) == Number("0");
    }
  }

  /** The exception is real: `{"ttlMs":5,"ttlMs":-1}` is refused after its rewrite. */
  lemma DuplicateTtlIsRefused() returns (source: string, d: Document)
    ensures ParseText(source) == Some(d) && WellFormedText(d)
    ensures var (rewritten, diagnostic) := TolerantTtl(Final(ToolsList), Denote(d.value));
            diagnostic == Some(Negative)
            && NormalizeSource(source, diagnostic).Ok?
            && !SourceAdmitted(rewritten, NormalizeSource(source, diagnostic).value)
  {
    hide Decode, NormalizeSource, SourceAdmitted, ParseText;
    ZeroIsLiteral();
    assert DigitsEnd("5", 0) == 1 && IsNumber("5");
    assert DigitsEnd("-1", 1) == 2 && IsNumber("-1");
    var last := ZERO_MEMBER.(value := Literal("-1"));
    var ms := ZERO_MEMBER.(value := Literal("5"), rest := last);
    d := Document("", Object("", ms), "");
    source := PrintText(d);
    assert WellFormedMembers(last);
    assert DenoteMembers(last) == map[TTL := Number("-1")];
    assert DenoteMembers(ms) == map[TTL := Number("-1")];
    assert Occurrences(last, TTL) == 1;
    ParseInvertsPrint(source, d);
    RewriteCommutes(Final(ToolsList), source, d);
  }

  // ----- What the rewrite leaves alone -----

  /** The members as pairs of raw name and value, in the order of the text. */
  function Fields(ms: Members): seq<(string, Value)> {
    if ms.NoMembers? then [] else [(ms.key, ms.value)] + Fields(ms.rest)
  }

  lemma {:induction false} AppendKeepsFields(ms: Members)
    requires ms.Member?
    ensures Fields(AppendMember(ms)) == Fields(ms) + [(TTL, Literal("0"))]
  {
    if ms.rest.Member? { AppendKeepsFields(ms.rest); }
    else { assert Fields(ms) == [(ms.key, ms.value)]; }
  }

  /** One value changes, at the first position that holds the name; order and lexemes stay. */
  lemma {:induction false} ReplaceKeepsFields(ms: Members, name: string) returns (k: nat)
    requires WellFormedMembers(ms) && Occurrences(ms, name) > 0
    ensures k < |Fields(ms)| && Decode(Fields(ms)[k].0) == Some(name)
    ensures forall j | 0 <= j < k :: Decode(Fields(ms)[j].0) != Some(name)
    ensures Fields(ReplaceFirst(ms, name)) == Fields(ms)[k := (Fields(ms)[k].0, Literal("0"))]
  {
    hide Decode, WellFormed;
    if Decode(ms.key).value == name { k := 0; }
    else {
      var k' := ReplaceKeepsFields(ms.rest, name);
      k := k' + 1;
    }
  }
}
