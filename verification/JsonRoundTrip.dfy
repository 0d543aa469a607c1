/** The parser of `JsonGrammar` accepts exactly the printed forms of well-formed trees,
    and gives back the tree that was printed. */
module JsonRoundTrip {
  import opened Options
  import opened JsonGrammar

  // ----- Soundness: whatever is accepted is the printed form of the answer -----

  lemma SliceThree(s: string, i: nat, j: nat, k: nat, l: nat)
    requires i <= j <= k <= l <= |s|
    ensures s[i..l] == s[i..j] + s[j..k] + s[k..l]
  {
  }

  lemma SliceFirst(s: string, i: nat, e: nat)
    requires i < e <= |s|
    ensures s[i..e] == [s[i]] + s[i+1..e]
  {
  }

  lemma SliceGrows(s: string, i: nat, j: nat, k: nat)
    requires i <= j <= k <= |s|
    ensures s[i..k] == s[i..j] + s[j..k] && (k == j + 1 ==> s[j..k] == [s[j]])
  {
  }

  lemma Brackets(s: string, i: nat, e: nat)
    requires i + 1 < e <= |s|
    ensures s[i..e] == [s[i]] + s[i+1..e-1] + [s[e-1]]
  {
  }

  lemma {:induction false} ParseValueSound(s: string, i: nat)
    requires i <= |s| && ParseValue(s, i).Some?
    ensures var (v, e) := ParseValue(s, i).value; WellFormed(v) && s[i..e] == Print(v)
    decreases |s| - i, 1
  {
    hide Decode, IsLiteral, ClosingQuote, SkipBlank, LiteralEnd, IsBlank;
    var (v, e) := ParseValue(s, i).value;
    match v
    case Literal(_) =>
    case Text(_) => Brackets(s, i, e);
    case Array(_, _) => ParseArraySound(s, i);
    case Object(_, _) => ParseObjectSound(s, i);
  }

  /** What the parser found between the brackets of an array. */
  lemma ArrayParts(s: string, i: nat)
    requires i < |s| && s[i] == '[' && ParseValue(s, i).Some?
    ensures var (v, e) := ParseValue(s, i).value;
            v.Array? && i + 1 < e <= |s| && s[e - 1] == ']'
            && (if v.items.Item? then ParseItems(s, i + 1) == Some((v.items, e - 1)) && v.blank == ""
                else v.blank == s[i+1..e-1] && AllBlank(v.blank))
  {
    hide ParseItems, SkipBlank, AllBlank;
  }

  lemma ArrayText(v: Value)
    requires v.Array?
    ensures Print(v) == "[" + (v.blank + PrintItems(v.items)) + "]"
    ensures WellFormed(v) <==> AllBlank(v.blank) && (v.items.Item? ==> v.blank == "") && WellFormedItems(v.items)
  {
    hide PrintItems, WellFormedItems;
  }

  lemma {:induction false} ParseArraySound(s: string, i: nat)
    requires i < |s| && s[i] == '[' && ParseValue(s, i).Some?
    ensures var (v, e) := ParseValue(s, i).value; WellFormed(v) && s[i..e] == Print(v)
    decreases |s| - i, 0
  {
    hide ParseValue, ParseItems, Print, PrintItems, WellFormed, WellFormedItems;
    var (v, e) := ParseValue(s, i).value;
    ArrayParts(s, i);
    ArrayText(v);
    NothingPrinted();
    Brackets(s, i, e);
    if v.items.Item? {
      ParseItemsSound(s, i + 1);
      assert "" + PrintItems(v.items) == PrintItems(v.items);
    } else {
      assert v.blank + "" == v.blank;
    }
  }

  lemma NothingPrinted()
    ensures WellFormedItems(NoItems) && PrintItems(NoItems) == ""
    ensures WellFormedMembers(NoMembers) && PrintMembers(NoMembers) == ""
  {
  }

  /** What the parser found between the braces of an object. */
  lemma ObjectParts(s: string, i: nat)
    requires i < |s| && s[i] == '{' && ParseValue(s, i).Some?
    ensures var (v, e) := ParseValue(s, i).value;
            v.Object? && i + 1 < e <= |s| && s[e - 1] == '}'
            && (if v.members.Member? then ParseMembers(s, i + 1) == Some((v.members, e - 1)) && v.blank == ""
                else v.blank == s[i+1..e-1] && AllBlank(v.blank))
  {
    hide ParseMembers, SkipBlank, AllBlank;
  }

  lemma ObjectText(v: Value)
    requires v.Object?
    ensures Print(v) == "{" + (v.blank + PrintMembers(v.members)) + "}"
    ensures WellFormed(v)
            <==> AllBlank(v.blank) && (v.members.Member? ==> v.blank == "") && WellFormedMembers(v.members)
  {
    hide PrintMembers, WellFormedMembers;
  }

  lemma {:induction false} ParseObjectSound(s: string, i: nat)
    requires i < |s| && s[i] == '{' && ParseValue(s, i).Some?
    ensures var (v, e) := ParseValue(s, i).value; WellFormed(v) && s[i..e] == Print(v)
    decreases |s| - i, 0
  {
    hide ParseValue, ParseMembers, Print, PrintMembers, WellFormed, WellFormedMembers;
    var (v, e) := ParseValue(s, i).value;
    ObjectParts(s, i);
    ObjectText(v);
    NothingPrinted();
    Brackets(s, i, e);
    if v.members.Member? {
      ParseMembersSound(s, i + 1);
      assert "" + PrintMembers(v.members) == PrintMembers(v.members);
    } else {
      assert v.blank + "" == v.blank;
    }
  }

  lemma {:induction false} ParseItemsSound(s: string, i: nat)
    requires i <= |s| && ParseItems(s, i).Some?
    ensures var (items, e) := ParseItems(s, i).value; WellFormedItems(items) && s[i..e] == PrintItems(items)
    decreases |s| - i, 2
  {
    hide ParseValue, WellFormed, Print, IsBlank, SkipBlank;
    var (items, e) := ParseItems(s, i).value;
    var j := SkipBlank(s, i);
    ParseValueSound(s, j);
    var v := ParseValue(s, j).value;
    var k := SkipBlank(s, v.1);
    SliceThree(s, i, j, v.1, k);
    if k < |s| && s[k] == ',' {
      ParseItemsSound(s, k + 1);
      SliceFirst(s, k, e);
      SliceThree(s, i, k, e, e);
    }
  }

  lemma NamePieces(s: string, i: nat, j: nat, e: nat, c: nat, b: nat)
    requires i <= j < e < c < b <= |s|
    requires s[j] == '"' && s[e] == '"' && s[c] == ':'
    ensures s[i..b] == s[i..j] + "\"" + s[j+1..e] + "\"" + s[e+1..c] + ":" + s[c+1..b]
  {
    SliceGrows(s, i, j, j + 1);
    SliceGrows(s, i, j + 1, e);
    SliceGrows(s, i, e, e + 1);
    SliceGrows(s, i, e + 1, c);
    SliceGrows(s, i, c, c + 1);
    SliceGrows(s, i, c + 1, b);
  }

  lemma ParseNameSound(s: string, i: nat)
    requires i <= |s| && ParseName(s, i).Some?
    ensures var (m, e) := ParseName(s, i).value;
            AllBlank(m.before) && Decode(m.key).Some? && AllBlank(m.afterKey) && AllBlank(m.beforeValue)
            && s[i..e] == PrintName(m) && m.rest.NoMembers?
  {
    hide Decode, SkipBlank, ClosingQuote, AllBlank;
    var (m, b) := ParseName(s, i).value;
    var j := SkipBlank(s, i);
    var e := ClosingQuote(s, j + 1).value;
    var c := SkipBlank(s, e + 1);
    NamePieces(s, i, j, e, c, b);
  }

  lemma {:induction false} ParseMembersSound(s: string, i: nat)
    requires i <= |s| && ParseMembers(s, i).Some?
    ensures var (ms, e) := ParseMembers(s, i).value; WellFormedMembers(ms) && s[i..e] == PrintMembers(ms)
    decreases |s| - i, 2
  {
    hide ParseValue, ParseName, WellFormed, WellFormedMembers, Print, PrintMembers, IsBlank, Decode, SkipBlank;
    var (ms, e) := ParseMembers(s, i).value;
    ParseNameSound(s, i);
    var n := ParseName(s, i).value;
    ParseValueSound(s, n.1);
    var v := ParseValue(s, n.1).value;
    var k := SkipBlank(s, v.1);
    if k < |s| && s[k] == ',' { ParseMembersSound(s, k + 1); }
    MemberPieces(s, i, n.0, n.1, v.1, k, ms, e);
  }

  /** A member spelled as its pieces, with what follows its comma. */
  lemma MemberPieces(s: string, i: nat, n: Members, j: nat, v: nat, k: nat, ms: Members, e: nat)
    requires i <= j <= v <= k <= e <= |s| && n.Member? && ms.Member?
    requires AllBlank(n.before) && Decode(n.key).Some? && AllBlank(n.afterKey) && AllBlank(n.beforeValue)
    requires s[i..j] == PrintName(n)
    requires WellFormed(ms.value) && s[j..v] == Print(ms.value) && AllBlank(s[v..k]) && ms.after == s[v..k]
    requires ms == n.(value := ms.value, after := ms.after, rest := ms.rest)
    requires if ms.rest.NoMembers? then e == k
             else k < e && s[k] == ',' && WellFormedMembers(ms.rest) && s[k + 1..e] == PrintMembers(ms.rest)
    ensures WellFormedMembers(ms) && s[i..e] == PrintMembers(ms)
  {
    hide WellFormed, Print, AllBlank, Decode;
    assert PrintName(ms) == PrintName(n);
    SliceThree(s, i, j, v, k);
    if !ms.rest.NoMembers? { SliceFirst(s, k, e); }
    SliceThree(s, i, k, e, e);
  }

  // ----- Completeness: every printed form is accepted, and gives back its tree -----

  /** What may stand after a value: the end of the text, a blank, or a structural closer. */
  predicate Follows(s: string, i: nat) {
    i <= |s| && (i < |s| ==> IsBlank(s[i]) || s[i] in ",]}")
  }

  lemma AtSlice(s: string, i: nat, p: string)
    requires At(s, i, p)
    ensures i + |p| <= |s| && s[i..i+|p|] == p
  {
  }

  lemma AfterValue(s: string, i: nat, after: string)
    requires At(s, i, after) && AllBlank(after)
    requires var e := i + |after|; e < |s| ==> s[e] in ",]}"
    ensures Follows(s, i)
  {
    if after != "" { AtIndex(s, i, after, 0); }
  }

  lemma {:induction false} SkipBlankAt(s: string, i: nat, blank: string)
    requires At(s, i, blank) && AllBlank(blank)
    requires i + |blank| < |s| ==> !IsBlank(s[i + |blank|])
    ensures SkipBlank(s, i) == i + |blank|
    decreases |blank|
  {
    if blank != "" {
      AtIndex(s, i, blank, 0);
      assert s[i+1..i+|blank|] == s[i..i+|blank|][1..];
      SkipBlankAt(s, i + 1, blank[1..]);
    }
  }

  lemma {:induction false} LiteralEndAt(s: string, i: nat, lexeme: string)
    requires At(s, i, lexeme) && (forall k | 0 <= k < |lexeme| :: !IsDelimiter(lexeme[k]))
    requires i + |lexeme| < |s| ==> IsDelimiter(s[i + |lexeme|])
    ensures LiteralEnd(s, i) == i + |lexeme|
    decreases |lexeme|
  {
    if lexeme != "" {
      AtIndex(s, i, lexeme, 0);
      assert s[i+1..i+|lexeme|] == s[i..i+|lexeme|][1..];
      LiteralEndAt(s, i + 1, lexeme[1..]);
    }
  }

  /** The first character of a decodable string is a plain one, or an escape whose code units are hexadecimal. */
  lemma EscapeShape(raw: string)
    requires raw != "" && FirstCharacter(raw).Some?
    ensures var n := FirstCharacter(raw).value.0;
            if raw[0] != '\\' then n == 1 && raw[0] != '"'
            else (n == 2 || n == 6 || (n == 12 && raw[6] == '\\'))
                 && forall k | 2 <= k < n && k != 6 && k != 7 :: raw[k] != '"' && raw[k] != '\\'
  {
    hide SimpleEscape;
  }

  /** No prefix of a decodable string holds a quote that would close it early. */
  lemma {:induction false} ClosingQuoteAt(s: string, i: nat, raw: string)
    requires At(s, i, raw) && Decode(raw).Some?
    requires i + |raw| < |s| && s[i + |raw|] == '"'
    ensures ClosingQuote(s, i) == Some(i + |raw|)
    decreases |raw|
  {
    hide FirstCharacter, At;
    if raw != "" {
      var n := FirstCharacter(raw).value.0;
      EscapeShape(raw);
      assert raw == raw[..n] + raw[n..];
      AtConcat(s, i, raw[..n], raw[n..]);
      AtSlice(s, i, raw);
      ClosingQuoteAt(s, i + n, raw[n..]);
      forall k | i <= k < i + n ensures s[k] == raw[k - i] { AtIndex(s, i, raw, k - i); }
      if n > 2 {
        forall k | i + 2 <= k < i + 6 ensures s[k] != '"' && s[k] != '\\' { assert s[k] == raw[k - i]; }
        ClosingQuoteSkips(s, i + 2, i + 6);
      }
      if n > 6 {
        forall k | i + 8 <= k < i + 12 ensures s[k] != '"' && s[k] != '\\' { assert s[k] == raw[k - i]; }
        ClosingQuoteSkips(s, i + 8, i + 12);
      }
    }
  }

  lemma {:induction false} ClosingQuoteSkips(s: string, i: nat, j: nat)
    requires i <= j <= |s| && forall k | i <= k < j :: s[k] != '"' && s[k] != '\\'
    ensures ClosingQuote(s, i) == ClosingQuote(s, j)
    decreases j - i
  {
    if i < j { ClosingQuoteSkips(s, i + 1, j); }
  }

  lemma FirstOfPrint(v: Value)
    requires WellFormed(v)
    ensures Print(v) != "" && Print(v)[0] > ' ' && Print(v)[0] !in ",]}:"
  {
    if v.Literal? { LiteralHasNoDelimiter(v.lexeme); assert v.lexeme[0] !in ",]}:"; }
  }

  lemma {:induction false} ParseValueComplete(s: string, i: nat, v: Value)
    requires WellFormed(v) && At(s, i, Print(v)) && Follows(s, i + |Print(v)|)
    ensures ParseValue(s, i) == Some((v, i + |Print(v)|))
    decreases v, 1
  {
    match v
    case Literal(_) => ParseLiteralComplete(s, i, v);
    case Text(_) => ParseStringComplete(s, i, v);
    case Array(_, _) => ParseArrayComplete(s, i, v);
    case Object(_, _) => ParseObjectComplete(s, i, v);
  }

  lemma ParseLiteralComplete(s: string, i: nat, v: Value)
    requires v.Literal? && WellFormed(v) && At(s, i, Print(v)) && Follows(s, i + |Print(v)|)
    ensures ParseValue(s, i) == Some((v, i + |Print(v)|))
  {
    hide IsLiteral, Decode, ClosingQuote, SkipBlank, LiteralEnd;
    LiteralHasNoDelimiter(v.lexeme);
    AtIndex(s, i, v.lexeme, 0);
    LiteralEndAt(s, i, v.lexeme);
  }

  lemma ParseStringComplete(s: string, i: nat, v: Value)
    requires v.Text? && WellFormed(v) && At(s, i, Print(v))
    ensures ParseValue(s, i) == Some((v, i + |Print(v)|))
  {
    hide IsLiteral, Decode, ClosingQuote, SkipBlank, LiteralEnd;
    AtConcat(s, i, "\"" + v.raw, "\"");
    AtConcat(s, i, "\"", v.raw);
    AtBegin(s, i, '"');
    AtBegin(s, i + 1 + |v.raw|, '"');
    ClosingQuoteAt(s, i + 1, v.raw);
  }

  lemma {:induction false} ParseArrayComplete(s: string, i: nat, v: Value)
    requires v.Array? && WellFormed(v) && At(s, i, Print(v))
    ensures ParseValue(s, i) == Some((v, i + |Print(v)|))
    decreases v, 0
  {
    hide IsLiteral, Decode, ClosingQuote, SkipBlank, LiteralEnd, ParseItems, PrintItems;
    AtConcat(s, i, "[" + v.blank + PrintItems(v.items), "]");
    AtConcat(s, i, "[" + v.blank, PrintItems(v.items));
    AtConcat(s, i, "[", v.blank);
    AtBegin(s, i, '[');
    AtBegin(s, i + |Print(v)| - 1, ']');
    if v.items.Item? {
      ParseItemsComplete(s, i + 1, v.items);
      ItemsStart(s, i + 1, v.items);
    } else {
      NothingPrinted();
      SkipBlankAt(s, i + 1, v.blank);
    }
  }

  lemma {:induction false} ParseObjectComplete(s: string, i: nat, v: Value)
    requires v.Object? && WellFormed(v) && At(s, i, Print(v))
    ensures ParseValue(s, i) == Some((v, i + |Print(v)|))
    decreases v, 0
  {
    hide IsLiteral, Decode, ClosingQuote, SkipBlank, LiteralEnd, ParseMembers, PrintMembers;
    AtConcat(s, i, "{" + v.blank + PrintMembers(v.members), "}");
    AtConcat(s, i, "{" + v.blank, PrintMembers(v.members));
    AtConcat(s, i, "{", v.blank);
    AtBegin(s, i, '{');
    AtBegin(s, i + |Print(v)| - 1, '}');
    if v.members.Member? {
      ParseMembersComplete(s, i + 1, v.members);
      MembersStart(s, i + 1, v.members);
    } else {
      NothingPrinted();
      SkipBlankAt(s, i + 1, v.blank);
    }
  }

  lemma ItemsStart(s: string, i: nat, items: Items)
    requires items.Item? && WellFormedItems(items) && At(s, i, PrintItems(items))
    ensures var j := SkipBlank(s, i); j < |s| && s[j] != ']'
  {
    hide Print, WellFormed, SkipBlank;
    ItemAt(s, i, items);
    FirstOfPrint(items.value);
    AtIndex(s, i + |items.before|, Print(items.value), 0);
    SkipBlankAt(s, i, items.before);
  }

  lemma MembersStart(s: string, i: nat, ms: Members)
    requires ms.Member? && WellFormedMembers(ms) && At(s, i, PrintMembers(ms))
    ensures var j := SkipBlank(s, i); j < |s| && s[j] != '}'
  {
    hide Print, WellFormed, SkipBlank;
    MemberAt(s, i, ms);
    NameAt(s, i, ms);
    SkipBlankAt(s, i, ms.before);
  }

  /** Where the parts of an item stand. */
  lemma ItemAt(s: string, i: nat, items: Items)
    requires items.Item? && At(s, i, PrintItems(items))
    ensures var j := i + |items.before|;
            var k := j + |Print(items.value)|;
            var m := k + |items.after|;
            At(s, i, items.before) && At(s, j, Print(items.value)) && At(s, k, items.after)
            && (if items.rest.NoItems? then m == i + |PrintItems(items)|
                else m < |s| && s[m] == ',' && At(s, m + 1, PrintItems(items.rest))
                     && i + |PrintItems(items)| == m + 1 + |PrintItems(items.rest)|)
  {
    hide At, Print;
    var p, q := Print(items.value), PrintItems(items.rest);
    var tail := if items.rest.NoItems? then "" else "," + q;
    AtConcat(s, i, items.before + p + items.after, tail);
    AtConcat(s, i, items.before + p, items.after);
    AtConcat(s, i, items.before, p);
    var m := i + |items.before| + |p| + |items.after|;
    AtConcat(s, m, ",", q);
    AtBegin(s, m, ',');
  }

  /** Where the parts of a member stand. */
  lemma MemberAt(s: string, i: nat, ms: Members)
    requires ms.Member? && At(s, i, PrintMembers(ms))
    ensures var j := i + |PrintName(ms)|;
            var k := j + |Print(ms.value)|;
            var m := k + |ms.after|;
            At(s, i, PrintName(ms)) && At(s, j, Print(ms.value)) && At(s, k, ms.after)
            && (if ms.rest.NoMembers? then m == i + |PrintMembers(ms)|
                else m < |s| && s[m] == ',' && At(s, m + 1, PrintMembers(ms.rest))
                     && i + |PrintMembers(ms)| == m + 1 + |PrintMembers(ms.rest)|)
  {
    hide At, Print, PrintName;
    var n, p, q := PrintName(ms), Print(ms.value), PrintMembers(ms.rest);
    var tail := if ms.rest.NoMembers? then "" else "," + q;
    AtConcat(s, i, n + p + ms.after, tail);
    AtConcat(s, i, n + p, ms.after);
    AtConcat(s, i, n, p);
    var m := i + |n| + |p| + |ms.after|;
    AtConcat(s, m, ",", q);
    AtBegin(s, m, ',');
  }

  /** Where the parts of a member's name stand. */
  lemma NameAt(s: string, i: nat, m: Members)
    requires m.Member? && At(s, i, PrintName(m))
    ensures var q := i + |m.before|;
            var e := q + 1 + |m.key|;
            var c := e + 1 + |m.afterKey|;
            At(s, i, m.before) && q < |s| && s[q] == '"' && At(s, q + 1, m.key) && e < |s| && s[e] == '"'
            && At(s, e + 1, m.afterKey) && c < |s| && s[c] == ':' && At(s, c + 1, m.beforeValue)
            && i + |PrintName(m)| == c + 1 + |m.beforeValue|
  {
    hide At;
    AtConcat(s, i, m.before + "\"" + m.key + "\"" + m.afterKey + ":", m.beforeValue);
    AtConcat(s, i, m.before + "\"" + m.key + "\"" + m.afterKey, ":");
    AtConcat(s, i, m.before + "\"" + m.key + "\"", m.afterKey);
    AtConcat(s, i, m.before + "\"" + m.key, "\"");
    AtConcat(s, i, m.before + "\"", m.key);
    AtConcat(s, i, m.before, "\"");
    var q := i + |m.before|;
    var e := q + 1 + |m.key|;
    AtBegin(s, q, '"');
    AtBegin(s, e, '"');
    AtBegin(s, e + 1 + |m.afterKey|, ':');
  }

  lemma {:induction false} ParseItemsComplete(s: string, i: nat, items: Items)
    requires items.Item? && WellFormedItems(items) && At(s, i, PrintItems(items))
    requires var e := i + |PrintItems(items)|; e < |s| && s[e] == ']'
    ensures ParseItems(s, i) == Some((items, i + |PrintItems(items)|))
    decreases items, 2
  {
    hide ParseValue, ParseItems, WellFormed, WellFormedItems, Print, PrintItems, SkipBlank, Follows, AllBlank, At;
    ItemAt(s, i, items);
    WellFormedItem(items);
    var j := i + |items.before|;
    var k := j + |Print(items.value)|;
    var l := k + |items.after|;
    FirstOfPrint(items.value);
    AtIndex(s, j, Print(items.value), 0);
    SkipBlankAt(s, i, items.before);
    AfterValue(s, k, items.after);
    ParseValueComplete(s, j, items.value);
    SkipBlankAt(s, k, items.after);
    AtSlice(s, i, items.before);
    AtSlice(s, k, items.after);
    if items.rest.Item? { ParseItemsComplete(s, l + 1, items.rest); }
    ItemsParsed(s, i, j, items.value, k, l);
  }

  lemma WellFormedItem(items: Items)
    requires items.Item? && WellFormedItems(items)
    ensures AllBlank(items.before) && WellFormed(items.value) && AllBlank(items.after) && WellFormedItems(items.rest)
  {
    hide AllBlank, WellFormed;
  }

  /** An item is read piece by piece, and a comma asks for more. */
  lemma ItemsParsed(s: string, i: nat, j: nat, v: Value, k: nat, l: nat)
    requires i <= j <= k <= l < |s| && SkipBlank(s, i) == j && ParseValue(s, j) == Some((v, k)) && SkipBlank(s, k) == l
    ensures s[l] != ',' ==> ParseItems(s, i) == Some((Item(s[i..j], v, s[k..l], NoItems), l))
    ensures s[l] == ',' && ParseItems(s, l + 1).Some? ==>
              var rest := ParseItems(s, l + 1).value;
              ParseItems(s, i) == Some((Item(s[i..j], v, s[k..l], rest.0), rest.1))
  {
    hide ParseValue, SkipBlank;
  }

  lemma ParseNameComplete(s: string, i: nat, m: Members)
    requires m.Member? && WellFormedMembers(m) && At(s, i, PrintName(m))
    requires var e := i + |PrintName(m)|; e < |s| && !IsBlank(s[e])
    ensures ParseName(s, i) == Some((Member(m.before, m.key, m.afterKey, m.beforeValue, Literal("null"), "", NoMembers),
                                     i + |PrintName(m)|))
  {
    hide *;
    NameAt(s, i, m);
    WellFormedName(m);
    var q := i + |m.before|;
    var e := q + 1 + |m.key|;
    var c := e + 1 + |m.afterKey|;
    NotBlank();
    SkipBlankAt(s, i, m.before);
    ClosingQuoteAt(s, q + 1, m.key);
    SkipBlankAt(s, e + 1, m.afterKey);
    SkipBlankAt(s, c + 1, m.beforeValue);
    AtSlice(s, i, m.before);
    AtSlice(s, q + 1, m.key);
    AtSlice(s, e + 1, m.afterKey);
    AtSlice(s, c + 1, m.beforeValue);
    NameParsed(s, i, q, e, c);
  }

  lemma WellFormedName(m: Members)
    requires m.Member? && WellFormedMembers(m)
    ensures AllBlank(m.before) && Decode(m.key).Some? && AllBlank(m.afterKey) && AllBlank(m.beforeValue)
  {
    hide AllBlank, Decode, WellFormed;
  }

  /** A name is read piece by piece. */
  lemma NameParsed(s: string, i: nat, q: nat, e: nat, c: nat)
    requires i <= q < e < c < |s| && SkipBlank(s, i) == q && s[q] == '"'
    requires ClosingQuote(s, q + 1) == Some(e) && Decode(s[q + 1..e]).Some?
    requires SkipBlank(s, e + 1) == c && s[c] == ':'
    ensures var b := SkipBlank(s, c + 1);
            ParseName(s, i)
            == Some((Member(s[i..q], s[q + 1..e], s[e + 1..c], s[c + 1..b], Literal("null"), "", NoMembers), b))
  {
    hide Decode, SkipBlank, ClosingQuote;
  }

  lemma NotBlank()
    ensures !IsBlank('"') && !IsBlank(':')
  {
  }

  lemma {:induction false} ParseMembersComplete(s: string, i: nat, ms: Members)
    requires ms.Member? && WellFormedMembers(ms) && At(s, i, PrintMembers(ms))
    requires var e := i + |PrintMembers(ms)|; e < |s| && s[e] == '}'
    ensures ParseMembers(s, i) == Some((ms, i + |PrintMembers(ms)|))
    decreases ms, 2
  {
    hide ParseValue, ParseName, WellFormed, Print, PrintName, PrintMembers, Decode, SkipBlank, Follows, AllBlank, At;
    MemberAt(s, i, ms);
    var j := i + |PrintName(ms)|;
    var k := j + |Print(ms.value)|;
    FirstOfPrint(ms.value);
    AtIndex(s, j, Print(ms.value), 0);
    ParseNameComplete(s, i, ms);
    AfterValue(s, k, ms.after);
    ParseValueComplete(s, j, ms.value);
    SkipBlankAt(s, k, ms.after);
    AtSlice(s, k, ms.after);
    if ms.rest.Member? { ParseMembersComplete(s, k + |ms.after| + 1, ms.rest); }
  }

  // ----- The two directions together -----

  lemma ParsedIsPrinted(s: string, d: Document)
    requires ParseText(s) == Some(d)
    ensures WellFormedText(d) && s == PrintText(d)
  {
    hide ParseValue, WellFormed, Print, SkipBlank, AllBlank;
    var i := SkipBlank(s, 0);
    ParseValueSound(s, i);
    var (v, e) := ParseValue(s, i).value;
    assert s[0..i] == s[..i] && s[e..|s|] == s[e..];
    SliceGrows(s, 0, i, e);
    SliceGrows(s, 0, e, |s|);
    assert s[0..|s|] == s;
  }

  lemma PrintedIsParsed(s: string, d: Document)
    requires WellFormedText(d) && s == PrintText(d)
    ensures ParseText(s) == Some(d)
  {
    hide ParseValue, WellFormed, Print, SkipBlank, AllBlank, At, Follows;
    var i, e := |d.before|, |d.before| + |Print(d.value)|;
    WholeIsAt(s);
    AtConcat(s, 0, d.before + Print(d.value), d.after);
    AtConcat(s, 0, d.before, Print(d.value));
    FirstOfPrint(d.value);
    AtIndex(s, i, Print(d.value), 0);
    SkipBlankAt(s, 0, d.before);
    AfterValue(s, e, d.after);
    ParseValueComplete(s, i, d.value);
    SkipBlankAt(s, e, d.after);
    AtSlice(s, 0, d.before);
    AtSlice(s, e, d.after);
    assert s[..i] == s[0..i] && s[e..] == s[e..|s|];
  }

  lemma WholeIsAt(s: string)
    ensures At(s, 0, s)
  {
    assert s[0..|s|] == s;
  }

  /** A text parses to `d` exactly when it is the printed form of `d` and `d` is well formed. */
  lemma ParseInvertsPrint(s: string, d: Document)
    ensures ParseText(s) == Some(d) <==> WellFormedText(d) && s == PrintText(d)
  {
    hide ParseText, WellFormedText, PrintText;
    if ParseText(s) == Some(d) { ParsedIsPrinted(s, d); }
    if WellFormedText(d) && s == PrintText(d) { PrintedIsParsed(s, d); }
  }

  /** No text is the printed form of two documents. */
  lemma PrintIsInjective(d: Document, d': Document)
    requires WellFormedText(d) && WellFormedText(d') && PrintText(d) == PrintText(d')
    ensures d == d'
  {
    ParseInvertsPrint(PrintText(d), d);
    ParseInvertsPrint(PrintText(d), d');
  }
}
