/** Flow sequences `[a, 'b', [c]]`: what is printed is read back. */
module YamlFlow {
  import opened Options
  import opened YamlText

  datatype Atom = PlainAtom(text: string) | QuotedAtom(quote: char, text: string) | NestedAtom(atoms: Atoms)
  datatype Atoms = NoAtoms | Atoms(head: Atom, tail: Atoms)

  function AtomText(a: Atom): string
    decreases a, 1
  {
    match a
    case PlainAtom(text) => text
    case QuotedAtom(quote, text) => [quote] + text + [quote]
    case NestedAtom(atoms) => FlowText(atoms)
  }

  function FlowText(atoms: Atoms): string
    decreases atoms, 1
  {
    "[" + JoinText(atoms) + "]"
  }

  function JoinText(atoms: Atoms): string
    decreases atoms, 0
  {
    match atoms
    case NoAtoms => ""
    case Atoms(head, tail) => AtomText(head) + (if tail.NoAtoms? then "" else ", " + JoinText(tail))
  }

  function AtomValue(a: Atom): Tree
    decreases a, 1
  {
    match a
    case PlainAtom(text) => Text(text)
    case QuotedAtom(_, text) => Text(text)
    case NestedAtom(atoms) => List(AtomValues(atoms))
  }

  function AtomValues(atoms: Atoms): seq<Tree>
    decreases atoms, 0
  {
    match atoms
    case NoAtoms => []
    case Atoms(head, tail) => [AtomValue(head)] + AtomValues(tail)
  }

  /** A character that neither quotes, opens, closes nor separates. */
  predicate FlowPlain(c: char) { c !in "'\"[]{}," }

  predicate AtomOk(a: Atom)
    decreases a, 1
  {
    match a
    case PlainAtom(text) => text != "" && Tight(text) && forall c | c in text :: FlowPlain(c)
    case QuotedAtom(quote, text) => quote in "'\"" && quote !in text
    case NestedAtom(atoms) => AtomsOk(atoms)
  }

  predicate AtomsOk(atoms: Atoms)
    decreases atoms, 0
  {
    atoms.Atoms? ==> AtomOk(atoms.head) && AtomsOk(atoms.tail)
  }

  // ----- The scan for commas passes over whole atoms -----

  ghost predicate Holds(body: string, i: nat, p: string) { i + |p| <= |body| && body[i..i + |p|] == p }

  lemma HoldsParts(body: string, i: nat, p: string, q: string)
    requires Holds(body, i, p + q)
    ensures Holds(body, i, p) && Holds(body, i + |p|, q)
  {
    assert body[i..i + |p|] == (p + q)[..|p|];
    assert body[i + |p|..i + |p| + |q|] == (p + q)[|p|..];
  }

  lemma HoldsAt(body: string, i: nat, p: string, k: nat)
    requires Holds(body, i, p) && k < |p|
    ensures i + k < |body| && body[i + k] == p[k]
  {
    assert body[i..i + |p|][k] == p[k];
  }

  lemma {:induction false} CutSkips(body: string, i: nat, j: nat, depth: int)
    requires i <= j <= |body| && forall k | i <= k < j :: FlowPlain(body[k]) || (body[k] == ',' && depth != 0)
    ensures NextCut(body, i, depth, None) == NextCut(body, j, depth, None)
    decreases j - i
  {
    if i < j { CutSkips(body, i + 1, j, depth); }
  }

  lemma {:induction false} CutInQuote(body: string, i: nat, j: nat, depth: int, q: char)
    requires i <= j <= |body| && forall k | i <= k < j :: body[k] != q
    ensures NextCut(body, i, depth, Some(q)) == NextCut(body, j, depth, Some(q))
    decreases j - i
  {
    if i < j { CutInQuote(body, i + 1, j, depth, q); }
  }

  lemma PassQuoted(body: string, i: nat, quote: char, text: string, depth: int)
    requires IsQuote(quote) && quote !in text && Holds(body, i, [quote] + text + [quote])
    ensures NextCut(body, i, depth, None) == NextCut(body, i + |text| + 2, depth, None)
  {
    var p := [quote] + text + [quote];
    HoldsAt(body, i, p, 0);
    HoldsAt(body, i, p, |text| + 1);
    forall k | i + 1 <= k < i + 1 + |text| ensures body[k] != quote {
      HoldsAt(body, i, p, k - i);
      assert p[k - i] == text[k - i - 1] && text[k - i - 1] in text;
    }
    CutInQuote(body, i + 1, i + 1 + |text|, depth, quote);
  }

  lemma PassPlain(body: string, i: nat, text: string, depth: int)
    requires Holds(body, i, text) && forall c | c in text :: FlowPlain(c)
    ensures NextCut(body, i, depth, None) == NextCut(body, i + |text|, depth, None)
  {
    forall k | i <= k < i + |text| ensures FlowPlain(body[k]) {
      HoldsAt(body, i, text, k - i);
      assert text[k - i] in text;
    }
    CutSkips(body, i, i + |text|, depth);
  }

  lemma {:induction false} PassAtom(body: string, i: nat, a: Atom, depth: nat)
    requires AtomOk(a) && Holds(body, i, AtomText(a))
    ensures NextCut(body, i, depth, None) == NextCut(body, i + |AtomText(a)|, depth, None)
    decreases a, 1
  {
    match a
    case PlainAtom(text) => PassPlain(body, i, text, depth);
    case QuotedAtom(quote, text) => PassQuoted(body, i, quote, text, depth);
    case NestedAtom(atoms) => PassNested(body, i, atoms, depth);
  }

  lemma {:induction false} PassNested(body: string, i: nat, atoms: Atoms, depth: nat)
    requires AtomsOk(atoms) && Holds(body, i, FlowText(atoms))
    ensures NextCut(body, i, depth, None) == NextCut(body, i + |FlowText(atoms)|, depth, None)
    decreases atoms, 1
  {
    hide JoinText, AtomsOk, Holds;
    var inner := JoinText(atoms);
    HoldsParts(body, i, "[" + inner, "]");
    HoldsParts(body, i, "[", inner);
    HoldsAt(body, i, "[", 0);
    HoldsAt(body, i + 1 + |inner|, "]", 0);
    PassJoin(body, i + 1, atoms, depth + 1);
  }

  lemma {:induction false} PassJoin(body: string, i: nat, atoms: Atoms, depth: nat)
    requires AtomsOk(atoms) && Holds(body, i, JoinText(atoms)) && depth > 0
    ensures NextCut(body, i, depth, None) == NextCut(body, i + |JoinText(atoms)|, depth, None)
    decreases atoms, 0
  {
    hide NextCut, AtomText, AtomOk, Holds;
    if atoms.Atoms? {
      var p, q := AtomText(atoms.head), JoinText(atoms.tail);
      if atoms.tail.NoAtoms? {
        assert JoinText(atoms) == p;
        PassAtom(body, i, atoms.head, depth);
      } else {
        HoldsParts(body, i, p, ", " + q);
        HoldsParts(body, i + |p|, ", ", q);
        HoldsAt(body, i + |p|, ", ", 0);
        HoldsAt(body, i + |p|, ", ", 1);
        PassAtom(body, i, atoms.head, depth);
        CutSkips(body, i + |p|, i + |p| + 2, depth);
        PassJoin(body, i + |p| + 2, atoms.tail, depth);
      }
    }
  }

  // ----- Splitting and reading -----

  function AtomTexts(atoms: Atoms): seq<string> {
    if atoms.NoAtoms? then [] else [AtomText(atoms.head)] + AtomTexts(atoms.tail)
  }

  lemma AtomIsTight(a: Atom)
    requires AtomOk(a)
    ensures AtomText(a) != "" && Tight(AtomText(a))
  {
    match a
    case PlainAtom(_) =>
    case QuotedAtom(quote, text) =>
      var t := [quote] + text + [quote];
      assert |t| == |text| + 2 && t[0] == quote && t[|t| - 1] == quote;
    case NestedAtom(atoms) => FlowIsTight(atoms);
  }

  lemma FlowIsTight(atoms: Atoms)
    ensures var t := FlowText(atoms); |t| >= 2 && t[0] == '[' && t[|t| - 1] == ']' && Tight(t)
  {
    hide JoinText;
    var inner := JoinText(atoms);
    assert |"[" + inner + "]"| == |inner| + 2;
  }

  lemma StripBlanked(lead: string, s: string)
    requires (lead == "" || lead == " ") && Tight(s) && s != ""
    ensures Strip(lead + s) == s
  {
    hide Strip;
    if lead == "" {
      assert lead + s == s;
      StripTight(s);
    } else {
      StripLead(s);
    }
  }

  /** The pieces between the commas are the atoms, with or without a blank before the first. */
  lemma {:induction false} SplitReads(lead: string, atoms: Atoms)
    requires AtomsOk(atoms) && atoms.Atoms? && (lead == "" || lead == " ")
    ensures SplitFlow(lead + JoinText(atoms)) == AtomTexts(atoms)
    decreases atoms
  {
    hide NextCut, Strip, SplitFlow, AtomText, AtomOk, Holds, Tight;
    var p := AtomText(atoms.head);
    AtomIsTight(atoms.head);
    StripBlanked(lead, p);
    if atoms.tail.NoAtoms? {
      assert lead + JoinText(atoms) == lead + p;
      LastAtom(lead, atoms.head);
    } else {
      var q := JoinText(atoms.tail);
      assert lead + JoinText(atoms) == lead + p + (", " + q);
      AtomBefore(lead, atoms.head, q);
      SplitReads(" ", atoms.tail);
    }
  }

  lemma LastAtom(lead: string, a: Atom)
    requires AtomOk(a) && (lead == "" || lead == " ") && Strip(lead + AtomText(a)) != ""
    ensures SplitFlow(lead + AtomText(a)) == [Strip(lead + AtomText(a))]
  {
    hide NextCut, Strip, AtomText, AtomOk, Holds;
    var body := lead + AtomText(a);
    assert body == lead + AtomText(a) + "";
    SkipsLead(lead, AtomText(a));
    WholeHolds(lead, AtomText(a), "");
    PassAtom(body, |lead|, a, 0);
    CutAtEnd(body);
  }

  lemma AtomBefore(lead: string, a: Atom, rest: string)
    requires AtomOk(a) && (lead == "" || lead == " ")
    ensures SplitFlow(lead + AtomText(a) + (", " + rest)) == [Strip(lead + AtomText(a))] + SplitFlow(" " + rest)
  {
    hide NextCut, Strip, SplitFlow, AtomText, AtomOk, Holds;
    var p := lead + AtomText(a);
    var body := p + (", " + rest);
    assert body == lead + (AtomText(a) + (", " + rest));
    SkipsLead(lead, AtomText(a) + (", " + rest));
    WholeHolds(lead, AtomText(a), ", " + rest);
    PassAtom(body, |lead|, a, 0);
    CommaSlices(p, rest);
    CutAtComma(body, |p|);
    SplitStep(body, |p|);
  }

  lemma CommaSlices(p: string, rest: string)
    ensures var body := p + (", " + rest);
            |p| < |body| && body[|p|] == ',' && body[..|p|] == p && body[|p| + 1..] == " " + rest
  {
    var tail := ", " + rest;
    assert tail[1..] == " " + rest;
  }

  lemma WholeHolds(lead: string, p: string, rest: string)
    ensures Holds(lead + p + rest, |lead|, p)
  {
  }

  lemma SkipsLead(lead: string, s: string)
    requires lead == "" || lead == " "
    ensures NextCut(lead + s, 0, 0, None) == NextCut(lead + s, |lead|, 0, None)
  {
    if lead == " " { assert (lead + s)[0] == ' '; }
  }

  lemma CutAtEnd(body: string)
    ensures NextCut(body, |body|, 0, None) == |body|
  {
  }

  lemma CutAtComma(body: string, i: nat)
    requires i < |body| && body[i] == ','
    ensures NextCut(body, i, 0, None) == i
  {
  }

  /** Every printed flow sequence is read back as the list of its atoms. */
  lemma {:induction false} FlowReads(atoms: Atoms)
    requires AtomsOk(atoms)
    ensures Scalar(FlowText(atoms)) == List(AtomValues(atoms))
    decreases atoms, 1
  {
    hide Strip, SplitFlow, JoinText, AtomsOk, AtomValues;
    var t, inner := FlowText(atoms), JoinText(atoms);
    FlowIsTight(atoms);
    assert t[1..|t| - 1] == inner;
    StripTight(t);
    SplitJoined(atoms);
    TextsAreShort(atoms, |t|);
    AtomsRead(atoms, |t|);
  }

  lemma SplitJoined(atoms: Atoms)
    requires AtomsOk(atoms)
    ensures SplitFlow(JoinText(atoms)) == AtomTexts(atoms)
  {
    hide NextCut, Strip, SplitFlow, AtomText, AtomOk;
    if atoms.Atoms? {
      SplitReads("", atoms);
      assert "" + JoinText(atoms) == JoinText(atoms);
    } else {
      SplitNothing();
    }
  }

  lemma SplitNothing()
    ensures SplitFlow("") == []
  {
    StripTight("");
  }

  lemma {:induction false} TextsAreShort(atoms: Atoms, bound: nat)
    requires |JoinText(atoms)| < bound
    ensures forall i | 0 <= i < |AtomTexts(atoms)| :: |AtomTexts(atoms)[i]| < bound
  {
    hide AtomText;
    if atoms.Atoms? && atoms.tail.Atoms? { TextsAreShort(atoms.tail, bound); }
  }

  lemma {:induction false} AtomsRead(atoms: Atoms, bound: nat)
    requires AtomsOk(atoms) && forall i | 0 <= i < |AtomTexts(atoms)| :: |AtomTexts(atoms)[i]| < bound
    ensures Scalars(AtomTexts(atoms), bound) == AtomValues(atoms)
    decreases atoms, 0
  {
    hide AtomText, AtomValue, AtomOk, Scalar;
    if atoms.Atoms? {
      assert AtomTexts(atoms)[1..] == AtomTexts(atoms.tail);
      forall i | 0 <= i < |AtomTexts(atoms.tail)| ensures |AtomTexts(atoms.tail)[i]| < bound {
        assert AtomTexts(atoms.tail)[i] == AtomTexts(atoms)[i + 1];
      }
      AtomReads(atoms.head);
      AtomsRead(atoms.tail, bound);
    }
  }

  lemma {:induction false} AtomReads(a: Atom)
    requires AtomOk(a)
    ensures Scalar(AtomText(a)) == AtomValue(a)
    decreases a, 2
  {
    hide Strip;
    match a
    case PlainAtom(text) =>
      StripTight(text);
      assert text[0] in text;
    case QuotedAtom(quote, text) =>
      AtomIsTight(a);
      StripTight(AtomText(a));
    case NestedAtom(atoms) => FlowReads(atoms);
  }
}
