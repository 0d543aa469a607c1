/** The indentation parser of the restricted workflow recognizer. The functions consume rows from the front and return
    the rows that are left; the methods work on an index as the source does. */
module YamlParser {
  import opened Options
  import opened YamlText

  type Row = (nat, string)
  type Parsed = Result<(Tree, seq<Row>), string>

  predicate IsDash(content: string) { |content| >= 2 && content[0] == '-' && content[1] == ' ' }

  predicate IsBlockMarker(rest: string) { rest == "|" || rest == "|-" || rest == ">" || rest == ">-" }

  /** How many rows at the front are indented by at least `low`. */
  function Leading(rows: seq<Row>, low: nat): (n: nat)
    ensures n <= |rows| && (forall i | 0 <= i < n :: rows[i].0 >= low) && (n < |rows| ==> rows[n].0 < low)
  {
    if rows == [] || rows[0].0 < low then 0 else 1 + Leading(rows[1..], low)
  }

  function Spaces(n: nat): string { if n == 0 then "" else " " + Spaces(n - 1) }

  /** The rows of a block scalar with their indentation, each ended by a newline. */
  function BlockText(rows: seq<Row>): string {
    if rows == [] then "" else Spaces(rows[0].0) + rows[0].1 + "\n" + BlockText(rows[1..])
  }

  /** Assignment to a dictionary: a known key keeps its place. */
  function Put(entries: seq<(string, Tree)>, key: string, value: Tree): seq<(string, Tree)> {
    if entries == [] then [(key, value)]
    else if entries[0].0 == key then [(key, value)] + entries[1..]
    else [entries[0]] + Put(entries[1..], key, value)
  }

  function Lookup(entries: seq<(string, Tree)>, key: string): Option<Tree> {
    if entries == [] then None else if entries[0].0 == key then Some(entries[0].1) else Lookup(entries[1..], key)
  }

  function Names(entries: seq<(string, Tree)>): seq<string> {
    if entries == [] then [] else [entries[0].0] + Names(entries[1..])
  }

  /** The last assignment to a key counts, every other key keeps its value, and the keys stay in the order of their
      first assignment. */
  lemma {:induction false} PutAssigns(entries: seq<(string, Tree)>, key: string, value: Tree, other: string)
    ensures Lookup(Put(entries, key, value), other) == if other == key then Some(value) else Lookup(entries, other)
    ensures Names(Put(entries, key, value))
            == if Lookup(entries, key).Some? then Names(entries) else Names(entries) + [key]
  {
    if entries != [] { PutAssigns(entries[1..], key, value, other); }
  }

  /** The row that replaces `- key: rest` when the mapping of that item is parsed. */
  function ItemRow(indent: nat, kv: (string, string)): Row { (indent + 2, Strip(kv.0 + ": " + kv.1)) }

  // ----- Parsing -----

  function ParseBlock(rows: seq<Row>, indent: nat): (r: Parsed)
    ensures r.Ok? ==> |r.value.1| <= |rows|
    decreases |rows|, 2
  {
    if rows != [] && rows[0].0 == indent && IsDash(rows[0].1) then ParseSequence(rows, indent, [])
    else ParseMapping(rows, indent, [])
  }

  function ParseSequence(rows: seq<Row>, indent: nat, acc: seq<Tree>): (r: Parsed)
    ensures r.Ok? ==> |r.value.1| <= |rows|
    decreases |rows|, 1
  {
    hide Strip, KeyValue, Scalar, IsDash;
    if rows == [] || rows[0].0 != indent || !IsDash(rows[0].1) then Ok((List(acc), rows))
    else
      var text := Strip(rows[0].1[2..]);
      var kv := KeyValue(text);
      if kv.Some? then
        var n := 1 + Leading(rows[1..], indent + 2);
        var item := ParseMapping([ItemRow(indent, kv.value)] + rows[1..n], indent + 2, []);
        if item.Err? then item
        else if item.value.1 != [] then Err("unconsumed sequence-item rows")
        else ParseSequence(rows[n..], indent, acc + [item.value.0])
      else if text != "" then ParseSequence(rows[1..], indent, acc + [Scalar(text)])
      else if |rows| > 1 && rows[1].0 > indent then
        var item := ParseBlock(rows[1..], rows[1].0);
        if item.Err? then item else ParseSequence(item.value.1, indent, acc + [item.value.0])
      else ParseSequence(rows[1..], indent, acc + [Null])
  }

  function ParseMapping(rows: seq<Row>, indent: nat, acc: seq<(string, Tree)>): (r: Parsed)
    ensures r.Ok? ==> |r.value.1| <= |rows|
    decreases |rows|, 0
  {
    hide KeyValue, Scalar, IsDash, Put, BlockText, IsBlockMarker;
    if rows == [] || rows[0].0 != indent || IsDash(rows[0].1) then Ok((Mapping(acc), rows))
    else
      var kv := KeyValue(rows[0].1);
      if kv.None? then Err("expected 'key: value' pair")
      else
        var (key, rest) := kv.value;
        if IsBlockMarker(rest) then
          var n := 1 + Leading(rows[1..], indent + 1);
          ParseMapping(rows[n..], indent, Put(acc, key, Text(BlockText(rows[1..n]))))
        else if rest != "" then ParseMapping(rows[1..], indent, Put(acc, key, Scalar(rest)))
        else if |rows| > 1 && rows[1].0 > indent then
          var value := ParseBlock(rows[1..], rows[1].0);
          if value.Err? then value else ParseMapping(value.value.1, indent, Put(acc, key, value.value.0))
        else if |rows| > 1 && rows[1].0 == indent && IsDash(rows[1].1) then
          var value := ParseSequence(rows[1..], indent, []);
          if value.Err? then value else ParseMapping(value.value.1, indent, Put(acc, key, value.value.0))
        else ParseMapping(rows[1..], indent, Put(acc, key, Null))
  }

  /** The last part of `parse_workflow_text`. */
  function ParseRows(rows: seq<Row>): (r: Result<Tree, string>)
    ensures r.Ok? ==> r.value.Mapping? && rows != [] && ParseBlock(rows, rows[0].0) == Ok((r.value, []))
  {
    if rows == [] then Err("empty document")
    else
      var r := ParseBlock(rows, rows[0].0);
      if r.Err? then Err(r.error)
      else if r.value.1 != [] then Err("unrecognized structure")
      else if !r.value.0.Mapping? then Err("top level must be a mapping")
      else Ok(r.value.0)
  }

  // What one round of each loop does, by its branches.

  lemma SequenceEnds(rows: seq<Row>, indent: nat, acc: seq<Tree>)
    requires rows == [] || rows[0].0 != indent || !IsDash(rows[0].1)
    ensures ParseSequence(rows, indent, acc) == Ok((List(acc), rows))
  {
    hide Strip, KeyValue, Scalar;
  }

  lemma SequenceMapping(rows: seq<Row>, indent: nat, acc: seq<Tree>, kv: (string, string), n: nat)
    requires rows != [] && rows[0].0 == indent && IsDash(rows[0].1)
    requires KeyValue(Strip(rows[0].1[2..])) == Some(kv) && n == 1 + Leading(rows[1..], indent + 2)
    ensures n <= |rows|
    ensures var item := ParseMapping([ItemRow(indent, kv)] + rows[1..n], indent + 2, []);
            ParseSequence(rows, indent, acc)
            == if item.Err? then item
               else if item.value.1 != [] then Err("unconsumed sequence-item rows")
               else ParseSequence(rows[n..], indent, acc + [item.value.0])
  {
    hide Strip, KeyValue, Scalar, ParseMapping, ParseBlock, ItemRow;
  }

  lemma SequenceScalar(rows: seq<Row>, indent: nat, acc: seq<Tree>)
    requires rows != [] && rows[0].0 == indent && IsDash(rows[0].1)
    requires var text := Strip(rows[0].1[2..]); KeyValue(text).None? && text != ""
    ensures ParseSequence(rows, indent, acc)
            == ParseSequence(rows[1..], indent, acc + [Scalar(Strip(rows[0].1[2..]))])
  {
    hide Strip, KeyValue, Scalar, ParseMapping, ParseBlock;
  }

  lemma SequenceNested(rows: seq<Row>, indent: nat, acc: seq<Tree>)
    requires rows != [] && rows[0].0 == indent && IsDash(rows[0].1)
    requires var text := Strip(rows[0].1[2..]); KeyValue(text).None? && text == ""
    ensures ParseSequence(rows, indent, acc)
            == if |rows| > 1 && rows[1].0 > indent then
                 var item := ParseBlock(rows[1..], rows[1].0);
                 if item.Err? then item else ParseSequence(item.value.1, indent, acc + [item.value.0])
               else ParseSequence(rows[1..], indent, acc + [Null])
  {
    hide Strip, KeyValue, Scalar, ParseMapping, ParseBlock;
  }

  lemma MappingEnds(rows: seq<Row>, indent: nat, acc: seq<(string, Tree)>)
    requires rows == [] || rows[0].0 != indent || IsDash(rows[0].1)
    ensures ParseMapping(rows, indent, acc) == Ok((Mapping(acc), rows))
  {
    hide KeyValue, Scalar, Put, BlockText;
  }

  /** The row is `key: rest`. */
  ghost predicate IsField(rows: seq<Row>, indent: nat, key: string, rest: string) {
    rows != [] && rows[0].0 == indent && !IsDash(rows[0].1) && KeyValue(rows[0].1) == Some((key, rest))
  }

  lemma MappingFails(rows: seq<Row>, indent: nat, acc: seq<(string, Tree)>)
    requires rows != [] && rows[0].0 == indent && !IsDash(rows[0].1) && KeyValue(rows[0].1).None?
    ensures ParseMapping(rows, indent, acc).Err?
  {
    hide KeyValue, Scalar, Put, BlockText;
  }

  lemma MappingBlock(rows: seq<Row>, indent: nat, acc: seq<(string, Tree)>, key: string, rest: string, n: nat)
    requires IsField(rows, indent, key, rest) && IsBlockMarker(rest) && n == 1 + Leading(rows[1..], indent + 1)
    ensures n <= |rows|
    ensures ParseMapping(rows, indent, acc)
            == ParseMapping(rows[n..], indent, Put(acc, key, Text(BlockText(rows[1..n]))))
  {
    hide KeyValue, Scalar, Put, BlockText, ParseSequence, ParseBlock, IsBlockMarker;
  }

  lemma MappingScalar(rows: seq<Row>, indent: nat, acc: seq<(string, Tree)>, key: string, rest: string)
    requires IsField(rows, indent, key, rest) && !IsBlockMarker(rest) && rest != ""
    ensures ParseMapping(rows, indent, acc) == ParseMapping(rows[1..], indent, Put(acc, key, Scalar(rest)))
  {
    hide KeyValue, Scalar, Put, BlockText, ParseSequence, ParseBlock, IsBlockMarker;
  }

  lemma MappingNested(rows: seq<Row>, indent: nat, acc: seq<(string, Tree)>, key: string)
    requires IsField(rows, indent, key, "")
    ensures ParseMapping(rows, indent, acc)
            == if |rows| > 1 && rows[1].0 > indent then
                 var value := ParseBlock(rows[1..], rows[1].0);
                 if value.Err? then value else ParseMapping(value.value.1, indent, Put(acc, key, value.value.0))
               else if |rows| > 1 && rows[1].0 == indent && IsDash(rows[1].1) then
                 var value := ParseSequence(rows[1..], indent, []);
                 if value.Err? then value else ParseMapping(value.value.1, indent, Put(acc, key, value.value.0))
               else ParseMapping(rows[1..], indent, Put(acc, key, Null))
  {
    hide KeyValue, Scalar, Put, BlockText, ParseSequence, ParseBlock;
  }

  // ----- The parser on an index -----

  /** A result with the next index says the same as a result with the rows that are left. */
  predicate Agrees(rows: seq<Row>, r: Result<(Tree, nat), string>, p: Parsed) {
    if p.Err? then r.Err?
    else r.Ok? && r.value.1 <= |rows| && r.value.0 == p.value.0 && rows[r.value.1..] == p.value.1
  }

  /** `_parse_block` */
  method ParseBlockRows(rows: seq<Row>, i: nat, indent: nat) returns (r: Result<(Tree, nat), string>)
    requires i <= |rows|
    ensures Agrees(rows, r, ParseBlock(rows[i..], indent))
    ensures r.Ok? ==> i <= r.value.1
    decreases |rows| - i, 2
  {
    hide ParseSequence, ParseMapping;
    if i < |rows| && rows[i].0 == indent && IsDash(rows[i].1) {
      r := ParseSequenceRows(rows, i, indent);
    } else {
      r := ParseMappingRows(rows, i, indent);
    }
  }

  /** `_parse_sequence` */
  method ParseSequenceRows(rows: seq<Row>, start: nat, indent: nat) returns (r: Result<(Tree, nat), string>)
    requires start <= |rows|
    ensures Agrees(rows, r, ParseSequence(rows[start..], indent, []))
    ensures r.Ok? ==> start <= r.value.1
    decreases |rows| - start, 1
  {
    hide ParseSequence, ParseMapping, ParseBlock, Strip, KeyValue, Scalar, Leading, IsDash, SplitsAt;
    var items: seq<Tree>, i := [], start;
    while i < |rows| && rows[i].0 == indent && IsDash(rows[i].1)
      invariant start <= i <= |rows|
      invariant ParseSequence(rows[start..], indent, []) == ParseSequence(rows[i..], indent, items)
    {
      Tails(rows, i);
      DashIsLong(rows[i].1);
      var text := Strip(rows[i].1[2..]);
      var found := HasTopLevelColon(text);
      ColonMeansPair(text);
      if found {
        var split := SplitKey(text);
        var j := ItemEnd(rows, i + 1, indent + 2);
        var virtual := [(indent + 2, Strip(split.value.0 + ": " + split.value.2))] + rows[i + 1..j];
        ItemRows(rows, i, j);
        SequenceMapping(rows[i..], indent, items, (split.value.0, split.value.2), j - i);
        var item := ParseMappingRows(virtual, 0, indent + 2);
        assert virtual[0..] == virtual;
        if item.Err? { return Err(item.error); }
        LeftOver(virtual, item.value.1);
        if item.value.1 != |virtual| { return Err("unconsumed sequence-item rows"); }
        items, i := items + [item.value.0], j;
      } else if text != "" {
        SequenceScalar(rows[i..], indent, items);
        items, i := items + [Scalar(text)], i + 1;
      } else {
        SequenceNested(rows[i..], indent, items);
        if i + 1 < |rows| && rows[i + 1].0 > indent {
          var item := ParseBlockRows(rows, i + 1, rows[i + 1].0);
          if item.Err? { return Err(item.error); }
          items, i := items + [item.value.0], item.value.1;
        } else {
          items, i := items + [Null], i + 1;
        }
      }
    }
    SequenceEnds(rows[i..], indent, items);
    return Ok((List(items), i));
  }

  /** The end of the rows from `i` on that are indented by at least `low`. */
  method ItemEnd(rows: seq<Row>, i: nat, low: nat) returns (j: nat)
    requires i <= |rows|
    ensures i <= j <= |rows| && j - i == Leading(rows[i..], low)
  {
    j := i;
    while j < |rows| && rows[j].0 >= low
      invariant i <= j <= |rows| && j - i + Leading(rows[j..], low) == Leading(rows[i..], low)
    {
      assert rows[j..][1..] == rows[j + 1..];
      j := j + 1;
    }
  }

  /** `_parse_mapping` */
  method ParseMappingRows(rows: seq<Row>, start: nat, indent: nat) returns (r: Result<(Tree, nat), string>)
    requires start <= |rows|
    ensures Agrees(rows, r, ParseMapping(rows[start..], indent, []))
    ensures r.Ok? ==> start <= r.value.1
    decreases |rows| - start, 0
  {
    hide ParseSequence, ParseMapping, ParseBlock, KeyValue, Scalar, Leading, BlockText, Put, IsDash, SplitsAt,
         IsBlockMarker;
    var entries: seq<(string, Tree)>, i := [], start;
    while i < |rows| && rows[i].0 == indent
      invariant start <= i <= |rows|
      invariant ParseMapping(rows[start..], indent, []) == ParseMapping(rows[i..], indent, entries)
    {
      Tails(rows, i);
      if IsDash(rows[i].1) { break; }
      var split := SplitKey(rows[i].1);
      if split.Err? {
        MappingFails(rows[i..], indent, entries);
        return Err(split.error);
      }
      var key, rest := split.value.0, split.value.2;
      if IsBlockMarker(rest) {
        var j := ItemEnd(rows, i + 1, indent + 1);
        ItemRows(rows, i, j);
        MappingBlock(rows[i..], indent, entries, key, rest, j - i);
        var text := JoinBlock(rows[i + 1..j]);
        entries, i := Put(entries, key, Text(text)), j;
      } else if rest == "" {
        MappingNested(rows[i..], indent, entries, key);
        if i + 1 < |rows| && rows[i + 1].0 > indent {
          var value := ParseBlockRows(rows, i + 1, rows[i + 1].0);
          if value.Err? { return Err(value.error); }
          entries, i := Put(entries, key, value.value.0), value.value.1;
        } else if i + 1 < |rows| && rows[i + 1].0 == indent && IsDash(rows[i + 1].1) {
          var value := ParseSequenceRows(rows, i + 1, indent);
          if value.Err? { return Err(value.error); }
          entries, i := Put(entries, key, value.value.0), value.value.1;
        } else {
          entries, i := Put(entries, key, Null), i + 1;
        }
      } else {
        MappingScalar(rows[i..], indent, entries, key, rest);
        entries, i := Put(entries, key, Scalar(rest)), i + 1;
      }
    }
    MappingEnds(rows[i..], indent, entries);
    return Ok((Mapping(entries), i));
  }

  method JoinBlock(rows: seq<Row>) returns (text: string)
    ensures text == BlockText(rows)
  {
    text := "";
    var i := 0;
    while i < |rows|
      invariant 0 <= i <= |rows| && text + BlockText(rows[i..]) == BlockText(rows)
    {
      assert rows[i..][1..] == rows[i + 1..];
      text := text + (Spaces(rows[i].0) + rows[i].1 + "\n");
      i := i + 1;
    }
  }

  lemma DashIsLong(content: string)
    ensures IsDash(content) ==> |content| >= 2
  {
  }

  lemma Tails(rows: seq<Row>, i: nat)
    requires i < |rows|
    ensures rows[i..] != [] && rows[i..][0] == rows[i] && rows[i..][1..] == rows[i + 1..]
    ensures i + 1 < |rows| ==> |rows[i..]| > 1 && rows[i..][1] == rows[i + 1]
  {
  }

  lemma ItemRows(rows: seq<Row>, i: nat, j: nat)
    requires i < j <= |rows|
    ensures rows[i..][1..j - i] == rows[i + 1..j] && rows[i..][j - i..] == rows[j..]
  {
  }

  lemma LeftOver(rows: seq<Row>, k: nat)
    requires k <= |rows|
    ensures rows[k..] == [] <==> k == |rows|
  {
  }

  lemma ColonMeansPair(text: string)
    ensures (exists i | 0 <= i < |text| :: SplitsAt(text, i)) <==> KeyValue(text).Some?
  {
    hide Strip;
  }
}
