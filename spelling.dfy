/** Amounts spelled out in English words, the reference the parser is checked against: an amount is a
    list of three-digit groups, each followed by its scale word, optionally joined by "and". */
module Spelling {
  import opened Lexicon

  const Units: seq<string> := ["one", "two", "three", "four", "five", "six", "seven", "eight", "nine"]
  const Teens: seq<string> :=
    ["ten", "eleven", "twelve", "thirteen", "fourteen", "fifteen", "sixteen", "seventeen", "eighteen", "nineteen"]
  const Tens: seq<string> := ["twenty", "thirty", "forty", "fifty", "sixty", "seventy", "eighty", "ninety"]
  const ScaleWords: seq<string> := ["thousand", "million", "billion"]

  /** The weight of scale index `s`: one, a thousand, a million or a billion. */
  function Weight(s: nat): nat
    requires s <= 3
  {
    [1, 1000, 1000000, 1000000000][s]
  }

  /** The words of a number from 1 to 99. */
  function BelowHundred(r: nat): (ws: seq<string>)
    requires 1 <= r <= 99
    ensures 1 <= |ws| <= 2
  {
    if r < 10 then [Units[r - 1]]
    else if r < 20 then [Teens[r - 10]]
    else if r % 10 == 0 then [Tens[r / 10 - 2]]
    else [Tens[r / 10 - 2], Units[r % 10 - 1]]
  }

  /** A group below a thousand: a hundreds digit, an optional "and" after "hundred", and the rest. */
  datatype Group = Group(hundreds: nat, ligature: bool, rest: nat)

  predicate ValidGroup(g: Group)
  {
    g.hundreds <= 9 && g.rest <= 99 && (g.hundreds > 0 || g.rest > 0)
    && (g.ligature ==> g.hundreds > 0 && g.rest > 0)
  }

  function GroupValue(g: Group): nat
  {
    100 * g.hundreds + g.rest
  }

  function GroupWords(g: Group): seq<string>
    requires ValidGroup(g)
  {
    (if g.hundreds > 0 then [Units[g.hundreds - 1], "hundred"] else [])
    + (if g.ligature then ["and"] else [])
    + (if g.rest > 0 then BelowHundred(g.rest) else [])
  }

  /** One group of an amount: an optional "and" before it, the group, and its scale index (0 for none). */
  datatype Part = Part(ligature: bool, group: Group, scale: nat)

  /** Every group is valid and carries a scale from none to billion, the scales strictly decrease, and
      only a group after a scale word may be preceded by "and". */
  predicate ValidParts(ps: seq<Part>)
  {
    forall k :: 0 <= k < |ps| ==>
      ValidGroup(ps[k].group) && ps[k].scale <= 3 && (k + 1 < |ps| ==> ps[k + 1].scale < ps[k].scale)
  }

  predicate ValidAmount(ps: seq<Part>)
  {
    ValidParts(ps) && |ps| > 0 && !ps[0].ligature
  }

  function PartWords(p: Part): seq<string>
    requires ValidGroup(p.group) && p.scale <= 3
  {
    (if p.ligature then ["and"] else []) + GroupWords(p.group)
    + (if p.scale > 0 then [ScaleWords[p.scale - 1]] else [])
  }

  function Words(ps: seq<Part>): seq<string>
    requires ValidParts(ps)
  {
    if ps == [] then [] else PartWords(ps[0]) + Words(ps[1..])
  }

  function Value(ps: seq<Part>): nat
    requires ValidParts(ps)
  {
    if ps == [] then 0 else GroupValue(ps[0].group) * Weight(ps[0].scale) + Value(ps[1..])
  }

  /** A group the parser as written reads correctly when a scale word follows it: no hundreds, no rest,
      or a rest of a tens word followed by a unit. */
  predicate ScaleSafe(g: Group)
  {
    g.hundreds == 0 || g.rest == 0 || (g.rest > 20 && g.rest % 10 != 0)
  }

  /** Every group followed by a scale word is read correctly by the parser as written. */
  predicate AllScaleSafe(ps: seq<Part>)
  {
    forall k :: 0 <= k < |ps| && ps[k].scale > 0 ==> ScaleSafe(ps[k].group)
  }

  // ---------------------------------------------------------------------------------------------
  // How the lexicon classifies the words used here.

  function UnitItem(u: nat): Item requires 1 <= u <= 9 { Item(SingleItem, Units[u - 1], u) }
  function TeenItem(r: nat): Item requires 10 <= r <= 19 { Item(DirectItem, Teens[r - 10], r) }
  function TensItem(t: nat): Item requires 2 <= t <= 9 { Item(TenPrefixItem, Tens[t - 2], 10 * t) }
  function ScaleItem(s: nat): Item requires 1 <= s <= 3 { Item(LargeItem, ScaleWords[s - 1], Weight(s)) }

  lemma UnitsPlain(u: nat) requires 1 <= u <= 9 ensures Plain(Units[u - 1]) { }
  lemma UnitsInTable(u: nat) requires 1 <= u <= 9 ensures NewItemFromMap(Units[u - 1]) == UnitItem(u) { }
  lemma TeensPlain(r: nat) requires 10 <= r <= 19 ensures Plain(Teens[r - 10]) { }
  lemma TeensInTable(r: nat) requires 10 <= r <= 19 ensures NewItemFromMap(Teens[r - 10]) == TeenItem(r) { }
  lemma TensPlain(t: nat) requires 2 <= t <= 9 ensures Plain(Tens[t - 2]) { }
  lemma TensInTable(t: nat) requires 2 <= t <= 9 ensures NewItemFromMap(Tens[t - 2]) == TensItem(t) { }
  lemma ScalesPlain(s: nat) requires 1 <= s <= 3 ensures Plain(ScaleWords[s - 1]) { }
  lemma ScalesInTable(s: nat) requires 1 <= s <= 3 ensures NewItemFromMap(ScaleWords[s - 1]) == ScaleItem(s) { }

  lemma UnitWords(u: nat)
    requires 1 <= u <= 9
    ensures NewItem(Units[u - 1]) == UnitItem(u)
  {
    UnitsPlain(u);
    TableWord(Units[u - 1]);
    UnitsInTable(u);
  }

  lemma TeenWords(r: nat)
    requires 10 <= r <= 19
    ensures NewItem(Teens[r - 10]) == TeenItem(r)
  {
    TeensPlain(r);
    TableWord(Teens[r - 10]);
    TeensInTable(r);
  }

  lemma TensWords(t: nat)
    requires 2 <= t <= 9
    ensures NewItem(Tens[t - 2]) == TensItem(t)
  {
    TensPlain(t);
    TableWord(Tens[t - 2]);
    TensInTable(t);
  }

  lemma ScaleWordItems(s: nat)
    requires 1 <= s <= 3
    ensures NewItem(ScaleWords[s - 1]) == ScaleItem(s)
  {
    ScalesPlain(s);
    TableWord(ScaleWords[s - 1]);
    ScalesInTable(s);
  }

  lemma OtherWords()
    ensures NewItem("hundred") == Item(HundredItem, "hundred", 100)
    ensures NewItem("and") == Item(DefaultItem, "and", 0)
    ensures NewItem("zero") == Item(ZeroItem, "zero", 0)
  {
    NotMarker("and");
  }
}
