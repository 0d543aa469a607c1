/** Printing a workflow tree to indented rows and parsing it back. */
module YamlRoundTrip {
  import opened Options
  import opened YamlText
  import opened YamlFlow
  import opened YamlParser

  // ----- Trees and how they are printed -----

  /** A tree as it is laid out. Block scalars keep their rows, each with its extra indentation. A sequence under a key
      may sit flush with the key or two columns deeper. */
  datatype Node =
    | NullNode
    | PlainNode(text: string)
    | QuotedNode(quote: char, text: string)
    | FlowNode(atoms: Atoms)
    | BlockNode(marker: string, lines: seq<Row>)
    | ItemsNode(flush: bool, items: Items)
    | FieldsNode(fields: Fields)
  datatype Items = NoItems | Item(head: Node, tail: Items)
  datatype Fields = NoFields | Field(key: string, value: Node, tail: Fields)

  /** What stands after the colon in the row of the key. */
  function Rest(node: Node): string {
    match node
    case PlainNode(text) => text
    case QuotedNode(quote, text) => [quote] + text + [quote]
    case FlowNode(atoms) => FlowText(atoms)
    case BlockNode(marker, _) => marker
    case _ => ""
  }

  function Head(key: string, rest: string): string { if rest == "" then key + ":" else key + ": " + rest }

  function Indented(lines: seq<Row>, n: nat): (r: seq<Row>)
    ensures |r| == |lines| && forall i | 0 <= i < |r| :: r[i] == (n + lines[i].0, lines[i].1)
  {
    if lines == [] then [] else [(n + lines[0].0, lines[0].1)] + Indented(lines[1..], n)
  }

  /** The rows below the row of the key. */
  function Below(node: Node, n: nat): seq<Row>
    decreases node, 0
  {
    match node
    case BlockNode(_, lines) => Indented(lines, n + 1)
    case ItemsNode(flush, items) => PrintItems(items, if flush then n else n + 2)
    case FieldsNode(fields) => PrintFields(fields, n + 2)
    case _ => []
  }

  function PrintFields(fields: Fields, n: nat): seq<Row>
    decreases fields, 0
  {
    match fields
    case NoFields => []
    case Field(key, value, tail) => [(n, Head(key, Rest(value)))] + Below(value, n) + PrintFields(tail, n)
  }

  /** A mapping starts on the row of its dash, everything else nested below. */
  function PrintItem(node: Node, n: nat): seq<Row>
    decreases node, 1
  {
    match node
    case FieldsNode(Field(key, value, tail)) =>
      [(n, "- " + Head(key, Rest(value)))] + Below(value, n + 2) + PrintFields(tail, n + 2)
    case ItemsNode(_, items) => [(n, "- ")] + PrintItems(items, n + 2)
    case _ => [(n, "- " + Rest(node))]
  }

  function PrintItems(items: Items, n: nat): seq<Row>
    decreases items, 0
  {
    match items
    case NoItems => []
    case Item(head, tail) => PrintItem(head, n) + PrintItems(tail, n)
  }

  // ----- What the trees mean -----

  /** The lines of a block scalar: each row behind as many spaces as it is indented, with its newline. */
  function BlockLines(rows: seq<Row>): (lines: seq<string>)
    ensures |lines| == |rows|
    ensures forall i | 0 <= i < |rows| :: lines[i] == seq(rows[i].0, _ => ' ') + rows[i].1 + "\n"
  {
    if rows == [] then [] else [seq(rows[0].0, _ => ' ') + rows[0].1 + "\n"] + BlockLines(rows[1..])
  }

  function Glued(lines: seq<string>): string { if lines == [] then "" else lines[0] + Glued(lines[1..]) }

  /** A text cut after each newline. */
  function Cut(text: string): seq<string>
    decreases |text|
  {
    if text == "" then []
    else var n := LineLength(text); [text[..n]] + Cut(text[n..])
  }

  function LineLength(text: string): (n: nat)
    requires text != ""
    ensures 0 < n <= |text| && '\n' !in text[..n - 1] && (n < |text| ==> text[n - 1] == '\n')
  {
    if text[0] == '\n' || |text| == 1 then 1 else 1 + LineLength(text[1..])
  }

  function FieldValue(node: Node, n: nat): Tree
    decreases node, 0
  {
    match node
    case NullNode => Null
    case PlainNode(text) => Text(text)
    case QuotedNode(_, text) => Text(text)
    case FlowNode(atoms) => List(AtomValues(atoms))
    case BlockNode(_, lines) => Text(Glued(BlockLines(Indented(lines, n + 1))))
    case ItemsNode(flush, items) => List(ItemValues(items, if flush then n else n + 2))
    case FieldsNode(fields) => Mapping(FieldValues(fields, n + 2))
  }

  function ItemValue(node: Node, n: nat): Tree
    decreases node, 1
  {
    if node.ItemsNode? then List(ItemValues(node.items, n + 2)) else FieldValue(node, n)
  }

  function ItemValues(items: Items, n: nat): seq<Tree>
    decreases items, 0
  {
    match items
    case NoItems => []
    case Item(head, tail) => [ItemValue(head, n)] + ItemValues(tail, n)
  }

  function FieldValues(fields: Fields, n: nat): seq<(string, Tree)>
    decreases fields, 0
  {
    match fields
    case NoFields => []
    case Field(key, value, tail) => [(key, FieldValue(value, n))] + FieldValues(tail, n)
  }

  // ----- Which trees can be printed -----

  /** Every colon before the last character is in quotes or brackets, or without a blank after it. */
  predicate OnlyInnerColons(text: string) {
    forall i | 0 <= i < |text| - 1 :: text[i] == ':' && text[i + 1] in " \t" ==>
                                        QuoteAt(text, i).Some? || DepthAt(text, i) != 0
  }

  /** Quotes and brackets are closed and no colon inside separates. */
  predicate KeyOk(key: string) {
    && Tight(key) && QuoteAt(key, |key|).None? && DepthAt(key, |key|) == 0 && !("- " <= key)
    && OnlyInnerColons(key)
  }

  /** Not the spelling of a flow sequence or of a quoted text. */
  predicate PlainOk(text: string) {
    && text != "" && Tight(text) && !(text[0] == '[' && text[|text| - 1] == ']')
    && !(|text| > 1 && text[0] == text[|text| - 1] && text[0] in "'\"")
  }

  /** No colon separates a key from a value. */
  predicate NoKey(text: string) {
    OnlyInnerColons(text)
    && (text != "" && text[|text| - 1] == ':' ==> QuoteAt(text, |text| - 1).Some? || DepthAt(text, |text| - 1) != 0)
  }

  lemma NoKeyNoSplit(text: string)
    requires NoKey(text)
    ensures KeyValue(text).None?
  {
    hide QuoteAt, DepthAt, Strip;
    forall i | 0 <= i < |text| ensures !SplitsAt(text, i) { }
  }

  predicate BlockStart(text: string) { text == "|" || text == "|-" || text == ">" || text == ">-" }

  predicate FieldOk(node: Node)
    decreases node, 0
  {
    match node
    case NullNode => true
    case PlainNode(text) => PlainOk(text) && !BlockStart(text)
    case QuotedNode(quote, text) => quote in "'\"" && quote !in text
    case FlowNode(atoms) => AtomsOk(atoms)
    case BlockNode(marker, _) => BlockStart(marker)
    case ItemsNode(_, items) => items.Item? && ItemsOk(items)
    case FieldsNode(fields) => fields.Field? && FieldsOk(fields)
  }

  predicate ItemOk(node: Node)
    decreases node, 1
  {
    if node.PlainNode? then PlainOk(node.text) && NoKey(node.text)
    else if node.FlowNode? then AtomsOk(node.atoms) && NoKey(FlowText(node.atoms))
    else !node.BlockNode? && FieldOk(node)
  }

  predicate ItemsOk(items: Items)
    decreases items, 0
  {
    items.Item? ==> ItemOk(items.head) && ItemsOk(items.tail)
  }

  predicate FieldsOk(fields: Fields)
    decreases fields, 0
  {
    fields.Field? ==>
      KeyOk(fields.key) && FieldOk(fields.value) && FieldsOk(fields.tail) && fields.key !in KeysOf(fields.tail)
  }

  function KeysOf(fields: Fields): set<string> {
    if fields.NoFields? then {} else {fields.key} + KeysOf(fields.tail)
  }

  // ----- The row of a key -----

  lemma {:induction false} StatePrefix(a: string, b: string, i: nat)
    requires i <= |a|
    ensures QuoteAt(a + b, i) == QuoteAt(a, i) && DepthAt(a + b, i) == DepthAt(a, i)
  {
    if i > 0 { StatePrefix(a, b, i - 1); }
  }

  lemma HeadColon(key: string, rest: string)
    requires KeyOk(key)
    ensures ColonFrom(Head(key, rest), 0) == Some(|key|)
  {
    var text := Head(key, rest);
    var tail := if rest == "" then ":" else ": " + rest;
    assert text == key + tail;
    forall i | 0 <= i <= |key| ensures QuoteAt(text, i) == QuoteAt(key, i) && DepthAt(text, i) == DepthAt(key, i) {
      StatePrefix(key, tail, i);
    }
    assert SplitsAt(text, |key|);
    forall i | 0 <= i < |key| ensures !SplitsAt(text, i) {
      if i < |key| - 1 { assert !SplitsAt(key, i) && text[i + 1] == key[i + 1]; }
    }
    ColonFromSkips(text, |key|);
  }

  /** The parser reads key and rest back from the row of a key. */
  lemma HeadSplits(key: string, rest: string)
    requires KeyOk(key) && Tight(rest)
    ensures KeyValue(Head(key, rest)) == Some((key, rest))
    ensures !IsDash(Head(key, rest)) && Tight(Head(key, rest))
  {
    hide Strip, ColonFrom;
    var text := Head(key, rest);
    HeadColon(key, rest);
    assert text[..|key|] == key;
    StripTight(key);
    if rest == "" {
      assert text[|key| + 1..] == "";
      StripTight("");
    } else {
      assert text[|key| + 1..] == " " + rest;
      StripLead(rest);
    }
  }

  /** Rebuilding the row of a key from its parts gives the row. */
  lemma ItemRowIsHead(n: nat, key: string, rest: string)
    requires KeyOk(key) && Tight(rest)
    ensures ItemRow(n, (key, rest)) == (n + 2, Head(key, rest))
  {
    var s := key + ": " + rest;
    if rest == "" {
      assert s[..|s| - 1] == key + ":" && Space(s[|s| - 1]);
      assert Tight(key + ":");
      StripTight(key + ":");
      assert TrimEnd(s) == TrimEnd(key + ":");
    } else {
      assert Tight(s);
      StripTight(s);
    }
  }

  // ----- Scalars -----

  lemma RestIsTight(node: Node)
    requires FieldOk(node) || ItemOk(node)
    ensures Tight(Rest(node))
  {
    if node.FlowNode? { FlowIsTight(node.atoms); }
  }

  /** A value that stands on one row. */
  predicate IsScalar(node: Node) { node.PlainNode? || node.QuotedNode? || node.FlowNode? }

  lemma ScalarReads(node: Node, n: nat)
    requires IsScalar(node) && (FieldOk(node) || ItemOk(node))
    ensures Scalar(Rest(node)) == FieldValue(node, n) && Rest(node) != ""
  {
    hide Strip, FlowText;
    if node.FlowNode? {
      FlowReads(node.atoms);
      FlowIsTight(node.atoms);
    } else {
      StripTight(Rest(node));
    }
  }

  lemma {:induction false} QuoteStays(q: char, text: string, i: nat)
    requires IsQuote(q) && q !in text && 1 <= i <= |text| + 1
    ensures QuoteAt([q] + text + [q], i) == Some(q)
  {
    var s := [q] + text + [q];
    if i == 1 {
      assert QuoteAt(s, 0).None? && s[0] == q;
    } else {
      QuoteStays(q, text, i - 1);
      assert s[i - 1] == text[i - 2] && text[i - 2] in text;
    }
  }

  lemma QuotedHasNoColon(q: char, text: string)
    requires IsQuote(q) && q !in text
    ensures KeyValue([q] + text + [q]).None?
  {
    hide Strip;
    var s := [q] + text + [q];
    forall i | 0 <= i < |s| ensures !SplitsAt(s, i) {
      if i > 0 { QuoteStays(q, text, i); }
    }
  }

  // ----- Indentation -----

  /** The rows that follow belong to somebody further out. */
  predicate Outside(more: seq<Row>, n: nat) { more == [] || more[0].0 < n }

  /** ... or to the next key at the same indentation. */
  predicate Beside(more: seq<Row>, n: nat) { Outside(more, n) || (more[0].0 == n && !IsDash(more[0].1)) }

  lemma {:induction false} LeadingConcat(rows: seq<Row>, more: seq<Row>, low: nat)
    requires (forall i | 0 <= i < |rows| :: rows[i].0 >= low) && Outside(more, low)
    ensures Leading(rows + more, low) == |rows|
    decreases |rows|
  {
    if rows == [] { assert rows + more == more; }
    else {
      LeadingConcat(rows[1..], more, low);
      assert (rows + more)[1..] == rows[1..] + more;
    }
  }

  ghost predicate AllFrom(rows: seq<Row>, n: nat) { forall i | 0 <= i < |rows| :: rows[i].0 >= n }

  lemma {:induction false} BelowFrom(node: Node, n: nat)
    ensures AllFrom(Below(node, n), n)
    decreases node, 0
  {
    match node
    case ItemsNode(flush, items) => ItemsFrom(items, if flush then n else n + 2);
    case FieldsNode(fields) => FieldsFrom(fields, n + 2);
    case _ =>
  }

  lemma {:induction false} FieldsFrom(fields: Fields, n: nat)
    ensures AllFrom(PrintFields(fields, n), n)
    decreases fields, 0
  {
    if fields.Field? {
      BelowFrom(fields.value, n);
      FieldsFrom(fields.tail, n);
    }
  }

  lemma {:induction false} ItemFrom(node: Node, n: nat)
    ensures AllFrom(PrintItem(node, n), n)
    decreases node, 1
  {
    match node
    case FieldsNode(Field(key, value, tail)) =>
      BelowFrom(value, n + 2);
      FieldsFrom(tail, n + 2);
    case ItemsNode(_, items) => ItemsFrom(items, n + 2);
    case _ =>
  }

  lemma {:induction false} ItemsFrom(items: Items, n: nat)
    ensures AllFrom(PrintItems(items, n), n)
    decreases items, 0
  {
    if items.Item? {
      ItemFrom(items.head, n);
      ItemsFrom(items.tail, n);
    }
  }

  lemma ItemsStart(items: Items, n: nat)
    requires items.Item?
    ensures var rows := PrintItems(items, n); rows != [] && rows[0].0 == n && IsDash(rows[0].1)
  {
  }

  lemma FieldsStart(fields: Fields, n: nat)
    requires fields.Field? && FieldsOk(fields)
    ensures var rows := PrintFields(fields, n); rows != [] && rows[0].0 == n && !IsDash(rows[0].1)
  {
    RestIsTight(fields.value);
    HeadSplits(fields.key, Rest(fields.value));
  }

  // ----- Round trip -----

  lemma {:induction false} PutNew(entries: seq<(string, Tree)>, key: string, value: Tree)
    requires forall e | e in entries :: e.0 != key
    ensures Put(entries, key, value) == entries + [(key, value)]
  {
    if entries != [] {
      PutNew(entries[1..], key, value);
      assert entries == [entries[0]] + entries[1..];
    }
  }

  /** A printed key with everything below it, whatever follows. */
  lemma {:induction false} FieldParses(key: string, node: Node, n: nat, more: seq<Row>, acc: seq<(string, Tree)>)
    requires KeyOk(key) && FieldOk(node) && Beside(more, n)
    ensures ParseMapping([(n, Head(key, Rest(node)))] + Below(node, n) + more, n, acc)
            == ParseMapping(more, n, Put(acc, key, FieldValue(node, n)))
    decreases node, 3
  {
    hide ParseMapping, KeyOk, FieldOk, Put, Head, Rest, Below, FieldValue, Beside;
    match node
    case NullNode => NullFieldParses(key, n, more, acc);
    case BlockNode(_, _) => BlockFieldParses(key, node, n, more, acc);
    case ItemsNode(_, _) => ItemsFieldParses(key, node, n, more, acc);
    case FieldsNode(_) => FieldsFieldParses(key, node, n, more, acc);
    case _ => ScalarFieldParses(key, node, n, more, acc);
  }

  lemma NullFieldParses(key: string, n: nat, more: seq<Row>, acc: seq<(string, Tree)>)
    requires KeyOk(key) && Beside(more, n)
    ensures ParseMapping([(n, Head(key, Rest(NullNode)))] + Below(NullNode, n) + more, n, acc)
            == ParseMapping(more, n, Put(acc, key, FieldValue(NullNode, n)))
  {
    hide KeyValue, ParseMapping, ParseBlock, ParseSequence, KeyOk, Put, Head, IsDash;
    HeadSplits(key, "");
    var rows := [(n, Head(key, ""))] + [] + more;
    assert rows[1..] == more && rows[0] == (n, Head(key, ""));
    MappingNested(rows, n, acc, key);
  }

  lemma {:induction false} SpacesBuilt(n: nat)
    ensures Spaces(n) == seq(n, _ => ' ')
  {
    if n > 0 { SpacesBuilt(n - 1); }
  }

  lemma {:induction false} BlockIsGlued(rows: seq<Row>)
    ensures BlockText(rows) == Glued(BlockLines(rows))
  {
    if rows != [] {
      SpacesBuilt(rows[0].0);
      BlockIsGlued(rows[1..]);
    }
  }

  lemma {:induction false} LineEnds(line: string, more: string)
    requires '\n' !in line
    ensures LineLength(line + "\n" + more) == |line| + 1
  {
    if line != "" {
      LineEnds(line[1..], more);
      assert (line + "\n" + more)[1..] == line[1..] + "\n" + more;
    }
  }

  /** The text of a block scalar is its rows: cut after each newline it gives one line for each of them. */
  lemma {:induction false} BlockReadsBack(rows: seq<Row>)
    requires forall i | 0 <= i < |rows| :: '\n' !in rows[i].1
    ensures Cut(BlockText(rows)) == BlockLines(rows)
  {
    hide Spaces;
    if rows != [] {
      var line, more := seq(rows[0].0, _ => ' ') + rows[0].1, BlockText(rows[1..]);
      SpacesBuilt(rows[0].0);
      LineEnds(line, more);
      BlockReadsBack(rows[1..]);
      assert BlockText(rows) == line + "\n" + more;
      assert BlockText(rows)[..|line| + 1] == line + "\n" && BlockText(rows)[|line| + 1..] == more;
    }
  }

  lemma BlockFieldParses(key: string, node: Node, n: nat, more: seq<Row>, acc: seq<(string, Tree)>)
    requires KeyOk(key) && FieldOk(node) && node.BlockNode? && Beside(more, n)
    ensures ParseMapping([(n, Head(key, Rest(node)))] + Below(node, n) + more, n, acc)
            == ParseMapping(more, n, Put(acc, key, FieldValue(node, n)))
  {
    hide KeyValue, ParseMapping, KeyOk, Put, Head, IsDash, BlockText, Leading, Tight;
    RestIsTight(node);
    HeadSplits(key, node.marker);
    var below := Below(node, n);
    var rows := [(n, Head(key, node.marker))] + below + more;
    assert rows[1..] == below + more && rows[0] == (n, Head(key, node.marker));
    LeadingConcat(below, more, n + 1);
    MappingBlock(rows, n, acc, key, node.marker, 1 + |below|);
    BlockIsGlued(below);
    assert rows[1..1 + |below|] == below && rows[1 + |below|..] == more;
  }

  lemma {:induction false} ItemsFieldParses(key: string, node: Node, n: nat, more: seq<Row>, acc: seq<(string, Tree)>)
    requires KeyOk(key) && FieldOk(node) && node.ItemsNode? && Beside(more, n)
    ensures ParseMapping([(n, Head(key, Rest(node)))] + Below(node, n) + more, n, acc)
            == ParseMapping(more, n, Put(acc, key, FieldValue(node, n)))
    decreases node, 2
  {
    hide KeyValue, ParseMapping, ParseSequence, ParseBlock, KeyOk, Put, Head, IsDash, PrintItems, ItemValues, ItemsOk;
    HeadSplits(key, "");
    var m := if node.flush then n else n + 2;
    var below := PrintItems(node.items, m);
    var rows := [(n, Head(key, ""))] + below + more;
    ItemsStart(node.items, m);
    ItemsParse(node.items, m, more, []);
    assert rows[1..] == below + more && rows[0] == (n, Head(key, "")) && rows[1] == below[0];
    assert [] + ItemValues(node.items, m) == ItemValues(node.items, m);
    MappingNested(rows, n, acc, key);
    if !node.flush { BlockOfSequence(below + more, m); }
  }

  lemma {:induction false} FieldsFieldParses(key: string, node: Node, n: nat, more: seq<Row>, acc: seq<(string, Tree)>)
    requires KeyOk(key) && FieldOk(node) && node.FieldsNode? && Beside(more, n)
    ensures ParseMapping([(n, Head(key, Rest(node)))] + Below(node, n) + more, n, acc)
            == ParseMapping(more, n, Put(acc, key, FieldValue(node, n)))
    decreases node, 2
  {
    hide KeyValue, ParseMapping, ParseSequence, ParseBlock, KeyOk, Put, Head, IsDash, PrintFields, FieldValues,
         FieldsOk;
    HeadSplits(key, "");
    var below := PrintFields(node.fields, n + 2);
    var rows := [(n, Head(key, ""))] + below + more;
    FieldsStart(node.fields, n + 2);
    FieldsParse(node.fields, n + 2, more, []);
    assert rows[1..] == below + more && rows[0] == (n, Head(key, "")) && rows[1] == below[0];
    assert [] + FieldValues(node.fields, n + 2) == FieldValues(node.fields, n + 2);
    MappingNested(rows, n, acc, key);
    BlockOfMapping(below + more, n + 2);
  }

  lemma ScalarFieldParses(key: string, node: Node, n: nat, more: seq<Row>, acc: seq<(string, Tree)>)
    requires KeyOk(key) && FieldOk(node) && IsScalar(node)
    ensures ParseMapping([(n, Head(key, Rest(node)))] + Below(node, n) + more, n, acc)
            == ParseMapping(more, n, Put(acc, key, FieldValue(node, n)))
  {
    hide KeyValue, ParseMapping, KeyOk, Put, Scalar, Head, IsDash, IsBlockMarker, Tight, FieldOk, Rest, FieldValue;
    RestIsTight(node);
    HeadSplits(key, Rest(node));
    ScalarReads(node, n);
    NotAMarker(node);
    var rows := [(n, Head(key, Rest(node)))] + Below(node, n) + more;
    assert rows[1..] == more && rows[0] == (n, Head(key, Rest(node)));
    MappingScalar(rows, n, acc, key, Rest(node));
  }

  lemma NotAMarker(node: Node)
    requires IsScalar(node) && FieldOk(node)
    ensures !IsBlockMarker(Rest(node))
  {
    if node.PlainNode? { return; }
    if node.FlowNode? { FlowIsTight(node.atoms); } else { assert Rest(node)[0] == node.quote; }
  }

  lemma BlockOfSequence(rows: seq<Row>, n: nat)
    requires rows != [] && rows[0].0 == n && IsDash(rows[0].1)
    ensures ParseBlock(rows, n) == ParseSequence(rows, n, [])
  {
    hide ParseSequence, ParseMapping;
  }

  lemma BlockOfMapping(rows: seq<Row>, n: nat)
    requires rows != [] && !IsDash(rows[0].1)
    ensures ParseBlock(rows, n) == ParseMapping(rows, n, [])
  {
    hide ParseSequence, ParseMapping;
  }

  lemma {:induction false} FieldsParse(fields: Fields, n: nat, post: seq<Row>, acc: seq<(string, Tree)>)
    requires FieldsOk(fields) && Outside(post, n) && forall e | e in acc :: e.0 !in KeysOf(fields)
    ensures ParseMapping(PrintFields(fields, n) + post, n, acc) == Ok((Mapping(acc + FieldValues(fields, n)), post))
    decreases fields, 1
  {
    hide ParseMapping, FieldOk, KeyOk, Head, Rest, Put, Below, FieldValue;
    match fields
    case NoFields =>
      assert PrintFields(fields, n) + post == post && acc + [] == acc;
      MappingEnds(post, n, acc);
    case Field(key, value, tail) =>
      var more := PrintFields(tail, n) + post;
      if tail.Field? {
        FieldsStart(tail, n);
        assert more[0] == PrintFields(tail, n)[0];
      } else {
        assert more == post;
      }
      FieldParses(key, value, n, more, acc);
      var rest := FieldValue(value, n);
      PutNew(acc, key, rest);
      assert PrintFields(fields, n) + post == [(n, Head(key, Rest(value)))] + Below(value, n) + more;
      FieldsParse(tail, n, post, acc + [(key, rest)]);
      assert acc + [(key, rest)] + FieldValues(tail, n) == acc + FieldValues(fields, n);
  }

  /** A printed item, whatever follows. */
  lemma {:induction false} ItemParses(node: Node, n: nat, more: seq<Row>, acc: seq<Tree>)
    requires ItemOk(node) && (more == [] || more[0].0 <= n)
    ensures ParseSequence(PrintItem(node, n) + more, n, acc) == ParseSequence(more, n, acc + [ItemValue(node, n)])
    decreases node, 3
  {
    hide Strip, KeyValue, ParseMapping, ParseSequence, ParseBlock, Scalar, Head, PlainOk, Leading, FieldsOk, Tight,
         FieldValues, PrintFields, Below, FlowText, AtomsOk, AtomValues;
    var rows := PrintItem(node, n) + more;
    DashRest(node);
    match node
    case FieldsNode(fields) => MappingItemParses(fields, n, more, acc);
    case ItemsNode(_, items) =>
      ItemsParse(items, n + 2, more, []);
      NestedItemParses(items, n, more, acc);
    case NullNode =>
      assert "- " + "" == "- ";
      NullItemParses(n, more, acc);
    case PlainNode(_) =>
      NoKeyNoSplit(Rest(node));
      ScalarItemParses(node, n, more, acc);
    case FlowNode(_) =>
      NoKeyNoSplit(Rest(node));
      ScalarItemParses(node, n, more, acc);
    case QuotedNode(quote, text) =>
      QuotedHasNoColon(quote, text);
      ScalarItemParses(node, n, more, acc);
  }

  lemma NestedItemParses(items: Items, n: nat, more: seq<Row>, acc: seq<Tree>)
    requires items.Item?
    requires ParseSequence(PrintItems(items, n + 2) + more, n + 2, [])
             == Ok((List([] + ItemValues(items, n + 2)), more))
    ensures ParseSequence([(n, "- ")] + PrintItems(items, n + 2) + more, n, acc)
            == ParseSequence(more, n, acc + [List(ItemValues(items, n + 2))])
  {
    hide Strip, KeyValue, ParseSequence, ParseBlock, PrintItems, ItemValues, IsDash;
    var printed := PrintItems(items, n + 2);
    var rows := [(n, "- ")] + printed + more;
    ItemsStart(items, n + 2);
    DashRow();
    assert rows[1..] == printed + more && rows[1] == printed[0];
    assert [] + ItemValues(items, n + 2) == ItemValues(items, n + 2);
    EmptyHasNoPair();
    SequenceNested(rows, n, acc);
    BlockOfSequence(rows[1..], n + 2);
  }

  lemma NullItemParses(n: nat, more: seq<Row>, acc: seq<Tree>)
    requires more == [] || more[0].0 <= n
    ensures ParseSequence([(n, "- ")] + more, n, acc) == ParseSequence(more, n, acc + [Null])
  {
    hide Strip, KeyValue, ParseSequence, ParseBlock, IsDash;
    var rows := [(n, "- ")] + more;
    DashRow();
    assert rows[1..] == more;
    EmptyHasNoPair();
    SequenceNested(rows, n, acc);
  }

  lemma DashRow()
    ensures IsDash("- ")
  {
  }

  lemma ScalarItemParses(node: Node, n: nat, more: seq<Row>, acc: seq<Tree>)
    requires ItemOk(node) && IsScalar(node) && KeyValue(Rest(node)).None?
    ensures ParseSequence(PrintItem(node, n) + more, n, acc) == ParseSequence(more, n, acc + [ItemValue(node, n)])
  {
    hide Strip, KeyValue, ParseSequence, Scalar, PlainOk, FlowText, AtomsOk, AtomValues;
    var rows := PrintItem(node, n) + more;
    assert rows[1..] == more && rows[0] == (n, "- " + Rest(node));
    DashRest(node);
    ScalarReads(node, n);
    SequenceScalar(rows, n, acc);
  }

  lemma DashRest(node: Node)
    requires ItemOk(node)
    ensures var row := "- " + Rest(node); IsDash(row) && row[2..] == Rest(node) && Strip(row[2..]) == Rest(node)
  {
    RestIsTight(node);
    StripTight(Rest(node));
  }

  lemma EmptyHasNoPair()
    ensures KeyValue(Strip("- "[2..])).None? && Strip("- "[2..]) == ""
  {
    assert "- "[2..] == "";
    StripTight("");
  }

  /** A mapping that starts on the row of its dash. */
  lemma {:induction false} MappingItemParses(fields: Fields, n: nat, more: seq<Row>, acc: seq<Tree>)
    requires fields.Field? && FieldsOk(fields) && (more == [] || more[0].0 <= n)
    ensures ParseSequence(PrintItem(FieldsNode(fields), n) + more, n, acc)
            == ParseSequence(more, n, acc + [Mapping(FieldValues(fields, n + 2))])
    decreases fields, 2
  {
    hide Strip, KeyValue, ParseMapping, ParseSequence, Head, Tight, FieldValues, KeyOk, PrintItem, PrintFields, Below,
         ItemRow, Leading, IsDash, Rest, FieldOk;
    var head, rest := Head(fields.key, Rest(fields.value)), Rest(fields.value);
    var below := MappingItemRows(fields, n);
    var rows := [(n, "- " + head)] + below + more;
    RestIsTight(fields.value);
    HeadSplits(fields.key, rest);
    ItemRowIsHead(n, fields.key, rest);
    DashHead(head);
    LeadingConcat(below, more, n + 2);
    assert rows[1..] == below + more && rows[0] == (n, "- " + head);
    SequenceMapping(rows, n, acc, (fields.key, rest), 1 + |below|);
    assert rows[1..1 + |below|] == below && rows[1 + |below|..] == more;
    FieldsParse(fields, n + 2, [], []);
    assert [] + FieldValues(fields, n + 2) == FieldValues(fields, n + 2);
    assert PrintFields(fields, n + 2) + [] == PrintFields(fields, n + 2);
  }

  /** As an item, a mapping prints as its fields do, but for its first row. */
  lemma MappingItemRows(fields: Fields, n: nat) returns (below: seq<Row>)
    requires fields.Field?
    ensures var head := Head(fields.key, Rest(fields.value));
            PrintItem(FieldsNode(fields), n) == [(n, "- " + head)] + below
            && PrintFields(fields, n + 2) == [(n + 2, head)] + below
    ensures AllFrom(below, n + 2)
  {
    hide Head, Rest, Below;
    below := Below(fields.value, n + 2) + PrintFields(fields.tail, n + 2);
    BelowFrom(fields.value, n + 2);
    FieldsFrom(fields.tail, n + 2);
  }

  lemma DashHead(head: string)
    requires Tight(head)
    ensures IsDash("- " + head) && Strip(("- " + head)[2..]) == head
  {
    assert ("- " + head)[2..] == head;
    StripTight(head);
  }

  lemma {:induction false} ItemsParse(items: Items, n: nat, post: seq<Row>, acc: seq<Tree>)
    requires ItemsOk(items) && Beside(post, n)
    ensures ParseSequence(PrintItems(items, n) + post, n, acc) == Ok((List(acc + ItemValues(items, n)), post))
    decreases items, 1
  {
    hide ParseSequence, ItemOk, PrintItem, ItemValue, IsDash;
    match items
    case NoItems =>
      assert PrintItems(items, n) + post == post && acc + [] == acc;
      SequenceEnds(post, n, acc);
    case Item(head, tail) =>
      var more := PrintItems(tail, n) + post;
      if tail.Item? {
        ItemsStart(tail, n);
        assert more[0] == PrintItems(tail, n)[0];
      } else {
        assert more == post;
      }
      ItemParses(head, n, more, acc);
      assert PrintItems(items, n) + post == PrintItem(head, n) + more;
      ItemsParse(tail, n, post, acc + [ItemValue(head, n)]);
      assert acc + [ItemValue(head, n)] + ItemValues(tail, n) == acc + ItemValues(items, n);
  }

  /** Round trip: every printable mapping is read back from its rows, and every row is consumed. */
  lemma RowsRoundTrip(fields: Fields, n: nat)
    requires fields.Field? && FieldsOk(fields)
    ensures ParseRows(PrintFields(fields, n)) == Ok(Mapping(FieldValues(fields, n)))
  {
    hide ParseMapping, ParseSequence, PrintFields, FieldValues, FieldsOk;
    FieldsStart(fields, n);
    FieldsParse(fields, n, [], []);
    BlockOfMapping(PrintFields(fields, n), n);
    assert PrintFields(fields, n) + [] == PrintFields(fields, n);
    assert [] + FieldValues(fields, n) == FieldValues(fields, n);
  }
}
