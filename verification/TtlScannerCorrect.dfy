/** The scanner, run on the printed form of any object, finds exactly the span of the first
    member with the wanted name. */
module TtlScannerCorrect {
  import opened Options
  import opened JsonGrammar
  import opened JsonRoundTrip
  import opened TtlScanner

  // ----- Single steps of the scanner over printed pieces -----

  lemma {:induction false} SkipWhitespaceAt(s: string, i: nat, blank: string)
    requires At(s, i, blank) && AllBlank(blank)
    requires i + |blank| < |s| ==> s[i + |blank|] > ' '
    ensures SkipWhitespace(s, i) == i + |blank|
    decreases |blank|
  {
    if blank != "" {
      AtIndex(s, i, blank, 0);
      assert s[i+1..i+|blank|] == s[i..i+|blank|][1..];
      SkipWhitespaceAt(s, i + 1, blank[1..]);
    }
  }

  lemma StringEndAt(s: string, i: nat, raw: string)
    requires Decode(raw).Some? && i < |s| && s[i] == '"' && At(s, i + 1, raw)
    requires var e := i + 1 + |raw|; e < |s| && s[e] == '"'
    ensures StringEnd(s, i) == Some(i + |raw| + 2)
  {
    hide Decode, At, ClosingQuote;
    ClosingQuoteAt(s, i + 1, raw);
  }

  /** A character that opens, closes and quotes nothing. */
  predicate Plain(c: char) { c !in "{}[]\"" }

  /** Characters that open, close and quote nothing leave the stack as it is. */
  lemma {:induction false} BalancedSkips(s: string, i: nat, j: nat, stack: seq<char>)
    requires i <= j <= |s| && stack != [] && forall k | i <= k < j :: Plain(s[k])
    ensures Balanced(s, i, stack) == Balanced(s, j, stack)
    decreases j - i
  {
    if i < j {
      assert Plain(s[i]);
      BalancedSkips(s, i + 1, j, stack);
    }
  }

  lemma BalancedSkipsText(s: string, i: nat, p: string, stack: seq<char>)
    requires At(s, i, p) && stack != [] && forall k | 0 <= k < |p| :: Plain(p[k])
    ensures Balanced(s, i, stack) == Balanced(s, i + |p|, stack)
  {
    forall k | i <= k < i + |p| ensures Plain(s[k]) { AtIndex(s, i, p, k - i); }
    BalancedSkips(s, i, i + |p|, stack);
  }

  lemma BlankIsPlain(p: string)
    requires AllBlank(p)
    ensures forall k | 0 <= k < |p| :: Plain(p[k])
  {
  }

  lemma LiteralIsPlain(p: string)
    requires IsLiteral(p)
    ensures forall k | 0 <= k < |p| :: Plain(p[k])
  {
    hide IsLiteral;
    LiteralHasNoDelimiter(p);
  }

  // ----- A whole value inside an open bracket -----

  lemma {:induction false} BalancedValue(s: string, i: nat, v: Value, stack: seq<char>)
    requires WellFormed(v) && At(s, i, Print(v)) && stack != []
    ensures Balanced(s, i, stack) == Balanced(s, i + |Print(v)|, stack)
    decreases v, 1
  {
    hide StringEnd, IsLiteral, Decode, PrintItems, PrintMembers, WellFormedItems, WellFormedMembers, At;
    match v
    case Literal(lexeme) =>
      LiteralIsPlain(lexeme);
      BalancedSkipsText(s, i, lexeme, stack);
    case Text(raw) =>
      TextAt(s, i, v);
      BalancedString(s, i, raw, stack);
    case Array(_, _) =>
      ArrayAt(s, i, v);
      BalancedInterior(s, i, v, stack + ['[']);
      assert (stack + ['['])[..|stack|] == stack;
    case Object(_, _) =>
      ObjectAt(s, i, v);
      BalancedInterior(s, i, v, stack + ['{']);
      assert (stack + ['{'])[..|stack|] == stack;
  }

  lemma TextAt(s: string, i: nat, v: Value)
    requires v.Text? && At(s, i, Print(v))
    ensures i < |s| && s[i] == '"' && At(s, i + 1, v.raw)
    ensures var e := i + 1 + |v.raw|; e < |s| && s[e] == '"' && e + 1 == i + |Print(v)|
  {
    hide At, PrintItems, PrintMembers;
    AtConcat(s, i, "\"" + v.raw, "\"");
    AtConcat(s, i, "\"", v.raw);
    AtBegin(s, i, '"');
    AtBegin(s, i + 1 + |v.raw|, '"');
  }

  lemma ArrayAt(s: string, i: nat, v: Value)
    requires v.Array? && At(s, i, Print(v))
    ensures i < |s| && s[i] == '[' && At(s, i + 1, v.blank) && At(s, i + 1 + |v.blank|, PrintItems(v.items))
    ensures var e := i + 1 + |v.blank| + |PrintItems(v.items)|; e < |s| && s[e] == ']' && e + 1 == i + |Print(v)|
  {
    hide At, PrintItems, PrintMembers;
    AtConcat(s, i, "[" + v.blank + PrintItems(v.items), "]");
    AtConcat(s, i, "[" + v.blank, PrintItems(v.items));
    AtConcat(s, i, "[", v.blank);
    AtBegin(s, i, '[');
    AtBegin(s, i + |Print(v)| - 1, ']');
  }

  lemma ObjectAt(s: string, i: nat, v: Value)
    requires v.Object? && At(s, i, Print(v))
    ensures i < |s| && s[i] == '{' && At(s, i + 1, v.blank) && At(s, i + 1 + |v.blank|, PrintMembers(v.members))
    ensures var e := i + 1 + |v.blank| + |PrintMembers(v.members)|; e < |s| && s[e] == '}' && e + 1 == i + |Print(v)|
  {
    hide At, PrintItems, PrintMembers;
    AtConcat(s, i, "{" + v.blank + PrintMembers(v.members), "}");
    AtConcat(s, i, "{" + v.blank, PrintMembers(v.members));
    AtConcat(s, i, "{", v.blank);
    AtBegin(s, i, '{');
    AtBegin(s, i + |Print(v)| - 1, '}');
  }

  /** Between the brackets of a container the stack returns to what it was after the opener. */
  lemma {:induction false} BalancedInterior(s: string, i: nat, v: Value, stack: seq<char>)
    requires (v.Array? || v.Object?) && WellFormed(v) && At(s, i, Print(v)) && stack != []
    ensures Balanced(s, i + 1, stack) == Balanced(s, i + |Print(v)| - 1, stack)
    decreases v, 0
  {
    hide Balanced, PrintItems, PrintMembers, WellFormedItems, WellFormedMembers;
    BlankIsPlain(v.blank);
    if v.Array? {
      ArrayAt(s, i, v);
      BalancedSkipsText(s, i + 1, v.blank, stack);
      BalancedItems(s, i + 1 + |v.blank|, v.items, stack);
    } else {
      ObjectAt(s, i, v);
      BalancedSkipsText(s, i + 1, v.blank, stack);
      BalancedMembers(s, i + 1 + |v.blank|, v.members, stack);
    }
  }

  lemma {:induction false} BalancedItems(s: string, i: nat, items: Items, stack: seq<char>)
    requires WellFormedItems(items) && At(s, i, PrintItems(items)) && stack != []
    ensures Balanced(s, i, stack) == Balanced(s, i + |PrintItems(items)|, stack)
    decreases items, 2
  {
    hide Balanced, WellFormed, Print, PrintItems, AllBlank, At;
    if items.NoItems? {
      NothingPrinted();
    } else {
      ItemAt(s, i, items);
      var j := i + |items.before|;
      var k := j + |Print(items.value)|;
      var m := k + |items.after|;
      BlankIsPlain(items.before);
      BlankIsPlain(items.after);
      BalancedSkipsText(s, i, items.before, stack);
      BalancedValue(s, j, items.value, stack);
      BalancedSkipsText(s, k, items.after, stack);
      if items.rest.Item? {
        BalancedSkips(s, m, m + 1, stack);
        BalancedItems(s, m + 1, items.rest, stack);
      }
    }
  }

  lemma BalancedName(s: string, i: nat, m: Members, stack: seq<char>)
    requires m.Member? && WellFormedMembers(m) && At(s, i, PrintName(m)) && stack != []
    ensures Balanced(s, i, stack) == Balanced(s, i + |PrintName(m)|, stack)
  {
    hide Balanced, StringEnd, WellFormed, PrintName, AllBlank, At, Decode;
    NameAt(s, i, m);
    var q := i + |m.before|;
    var e := q + 1 + |m.key|;
    var c := e + 1 + |m.afterKey|;
    BlankIsPlain(m.before);
    BlankIsPlain(m.afterKey);
    BlankIsPlain(m.beforeValue);
    BalancedSkipsText(s, i, m.before, stack);
    BalancedString(s, q, m.key, stack);
    BalancedSkipsText(s, e + 1, m.afterKey, stack);
    BalancedSkips(s, c, c + 1, stack);
    BalancedSkipsText(s, c + 1, m.beforeValue, stack);
  }

  lemma BalancedString(s: string, i: nat, raw: string, stack: seq<char>)
    requires Decode(raw).Some? && i < |s| && s[i] == '"' && At(s, i + 1, raw) && stack != []
    requires var e := i + 1 + |raw|; e < |s| && s[e] == '"'
    ensures Balanced(s, i, stack) == Balanced(s, i + |raw| + 2, stack)
  {
    hide StringEnd, Decode, At;
    StringEndAt(s, i, raw);
  }

  lemma {:induction false} BalancedMembers(s: string, i: nat, ms: Members, stack: seq<char>)
    requires WellFormedMembers(ms) && At(s, i, PrintMembers(ms)) && stack != []
    ensures Balanced(s, i, stack) == Balanced(s, i + |PrintMembers(ms)|, stack)
    decreases ms, 2
  {
    hide Balanced, WellFormed, Print, PrintName, PrintMembers, AllBlank, At;
    if ms.NoMembers? {
      NothingPrinted();
    } else {
      MemberAt(s, i, ms);
      var j := i + |PrintName(ms)|;
      var k := j + |Print(ms.value)|;
      var m := k + |ms.after|;
      BlankIsPlain(ms.after);
      BalancedName(s, i, ms, stack);
      BalancedValue(s, j, ms.value, stack);
      BalancedSkipsText(s, k, ms.after, stack);
      if ms.rest.Member? {
        BalancedSkips(s, m, m + 1, stack);
        BalancedMembers(s, m + 1, ms.rest, stack);
      }
    }
  }

  // ----- The value of a top-level member -----

  lemma {:induction false} ScalarStopAt(s: string, i: nat, j: nat)
    requires i <= j <= |s| && (forall k | i <= k < j :: s[k] != ',' && s[k] != '}')
    requires j < |s| ==> s[j] == ',' || s[j] == '}'
    ensures ScalarStop(s, i) == j
    decreases j - i
  {
    if i < j { ScalarStopAt(s, i + 1, j); }
  }

  lemma {:induction false} TrimBackAt(s: string, start: nat, end: nat, e: nat)
    requires start < e <= end <= |s| && s[e - 1] > ' ' && forall k | e <= k < end :: IsBlank(s[k])
    ensures TrimBack(s, start, end) == e
    decreases end
  {
    if e < end { TrimBackAt(s, start, end - 1, e); }
  }

  lemma ScalarEndAt(s: string, i: nat, lexeme: string, after: string)
    requires IsLiteral(lexeme) && At(s, i, lexeme) && AllBlank(after) && At(s, i + |lexeme|, after)
    requires var e := i + |lexeme| + |after|; e < |s| && (s[e] == ',' || s[e] == '}')
    ensures ValueEnd(s, i) == Some(i + |lexeme|)
  {
    hide IsLiteral, Balanced, ScalarStop, TrimBack, StringEnd, At;
    LiteralHasNoDelimiter(lexeme);
    var e := i + |lexeme|;
    forall k | i <= k < e ensures !IsDelimiter(s[k]) { AtIndex(s, i, lexeme, k - i); }
    forall k | e <= k < e + |after| ensures IsBlank(s[k]) { AtIndex(s, e, after, k - e); }
    ScalarStopAt(s, i, e + |after|);
    TrimBackAt(s, i, e + |after|, e);
    assert !IsDelimiter(s[i]);
  }

  lemma ValueEndAt(s: string, i: nat, v: Value, after: string)
    requires WellFormed(v) && At(s, i, Print(v)) && AllBlank(after) && At(s, i + |Print(v)|, after)
    requires var e := i + |Print(v)| + |after|; e < |s| && (s[e] == ',' || s[e] == '}')
    ensures ValueEnd(s, i) == Some(i + |Print(v)|)
  {
    hide Balanced, StringEnd, ScalarStop, TrimBack, IsLiteral, Decode, At, AllBlank, PrintItems, PrintMembers,
         WellFormedItems, WellFormedMembers;
    match v
    case Literal(lexeme) => ScalarEndAt(s, i, lexeme, after);
    case Text(raw) =>
      TextAt(s, i, v);
      StringEndAt(s, i, raw);
    case Array(_, _) =>
      ArrayAt(s, i, v);
      BalancedInterior(s, i, v, ['[']);
      BalancedCloses(s, i + |Print(v)| - 1, '[');
    case Object(_, _) =>
      ObjectAt(s, i, v);
      BalancedInterior(s, i, v, ['{']);
      BalancedCloses(s, i + |Print(v)| - 1, '{');
  }

  lemma BalancedCloses(s: string, i: nat, open: char)
    requires i < |s| && Closes(s[i], open)
    ensures Balanced(s, i, [open]) == Some(i + 1)
  {
  }

  // ----- The whole scan -----

  /** Span of the value of the first member with the wanted name, relative to the first member. */
  function Span(ms: Members, name: string): (r: Option<Range>)
    requires WellFormedMembers(ms)
    ensures r.Some? ==> r.value.start < r.value.end <= |PrintMembers(ms)|
  {
    if ms.NoMembers? then None
    else
      var start := |PrintName(ms)|;
      var end := start + |Print(ms.value)|;
      if Decode(ms.key).value == name then FirstOfPrint(ms.value); Some(Range(start, end))
      else
        var rest := Span(ms.rest, name);
        if rest.None? then None
        else
          var skip := end + |ms.after| + 1;
          Some(Range(skip + rest.value.start, skip + rest.value.end))
  }

  function Shift(r: Option<Range>, offset: nat): Option<Range> {
    if r.None? then None else Some(Range(offset + r.value.start, offset + r.value.end))
  }

  lemma NameScanAt(s: string, i: nat, m: Members)
    requires m.Member? && WellFormedMembers(m) && At(s, i, PrintName(m))
    requires var e := i + |PrintName(m)|; e < |s| && s[e] > ' '
    ensures SkipWhitespace(s, i) == i + |m.before| < |s| && s[i + |m.before|] == '"'
    ensures NameScan(s, i + |m.before|) == Some((Decode(m.key).value, i + |PrintName(m)|))
  {
    hide *;
    NameAt(s, i, m);
    WellFormedName(m);
    AboveSpace();
    var q := i + |m.before|;
    var e := q + 1 + |m.key|;
    var c := e + 1 + |m.afterKey|;
    SkipWhitespaceAt(s, i, m.before);
    StringEndAt(s, q, m.key);
    AtSlice(s, q + 1, m.key);
    SkipWhitespaceAt(s, e + 1, m.afterKey);
    SkipWhitespaceAt(s, c + 1, m.beforeValue);
    NameScanned(s, q, e, c);
  }

  lemma AboveSpace()
    ensures '"' > ' ' && ':' > ' '
  {
  }

  lemma NameScanned(s: string, q: nat, e: nat, c: nat)
    requires q < e < c < |s| && StringEnd(s, q) == Some(e + 1) && Decode(s[q + 1..e]).Some?
    requires SkipWhitespace(s, e + 1) == c && s[c] == ':'
    ensures NameScan(s, q) == Some((Decode(s[q + 1..e]).value, SkipWhitespace(s, c + 1)))
  {
    hide Decode, StringEnd, SkipWhitespace;
  }

  lemma {:induction false} MemberScanAt(s: string, i: nat, ms: Members, name: string)
    requires ms.Member? && WellFormedMembers(ms) && At(s, i, PrintMembers(ms))
    requires var e := i + |PrintMembers(ms)|; e < |s| && s[e] == '}'
    ensures MemberScan(s, i, name) == Shift(Span(ms, name), i)
    decreases ms
  {
    hide Decode, ValueEnd, NameScan, SkipWhitespace, PrintName, PrintMembers, Print, WellFormed, AllBlank, At;
    MemberAt(s, i, ms);
    var j := i + |PrintName(ms)|;
    var k := j + |Print(ms.value)|;
    var m := k + |ms.after|;
    FirstOfPrint(ms.value);
    AtIndex(s, j, Print(ms.value), 0);
    NameScanAt(s, i, ms);
    ValueEndAt(s, j, ms.value, ms.after);
    SkipWhitespaceAt(s, k, ms.after);
    if ms.rest.Member? { MemberScanAt(s, m + 1, ms.rest, name); }
  }

  /** Span of the first member with the wanted name in the text of a document that holds an object. */
  function DocumentSpan(d: Document, name: string): (r: Option<Range>)
    requires WellFormedText(d) && d.value.Object?
  {
    Shift(Span(d.value.members, name), |d.before| + 1 + |d.value.blank|)
  }

  /** Scanner correctness: any spelling of any object, and any wanted name. */
  lemma ScannerFindsFirstMember(d: Document, name: string)
    requires WellFormedText(d) && d.value.Object?
    ensures MemberRange(PrintText(d), name) == DocumentSpan(d, name)
  {
    hide SkipWhitespace, MemberScan, Span, NameScan, Print, PrintMembers, At, AllBlank;
    NothingPrinted();
    var s := PrintText(d);
    WholeIsAt(s);
    AtConcat(s, 0, d.before + Print(d.value), d.after);
    AtConcat(s, 0, d.before, Print(d.value));
    var i := |d.before|;
    ObjectAt(s, i, d.value);
    SkipWhitespaceAt(s, 0, d.before);
    if d.value.members.Member? {
      MemberScanAt(s, i + 1, d.value.members, name);
    } else {
      EmptyObjectScan(s, i + 1, d.value, name);
    }
  }

  lemma EmptyObjectScan(s: string, i: nat, v: Value, name: string)
    requires v.Object? && WellFormed(v) && v.members.NoMembers? && At(s, i, v.blank)
    requires var e := i + |v.blank|; e < |s| && s[e] == '}'
    ensures MemberScan(s, i, name) == None == Span(v.members, name)
  {
    SkipWhitespaceAt(s, i, v.blank);
  }

  /** The scanner answers on every text of a JSON object, exactly when the name occurs. */
  lemma ScannerOnParsedText(s: string, d: Document, name: string)
    requires ParseText(s) == Some(d) && d.value.Object?
    ensures WellFormedText(d) && MemberRange(s, name) == DocumentSpan(d, name)
  {
    ParseInvertsPrint(s, d);
    ScannerFindsFirstMember(d, name);
  }
}
