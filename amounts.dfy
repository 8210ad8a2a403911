/** Whole phrases: an amount spelled out in words and a dollars marker, optionally followed by a
    number of cents, parses to its value in cents. */
module Amounts {
  import opened Lexicon
  import opened Numerizer
  import opened Spelling
  import opened Steps
  import opened RoundTrip

  lemma ItemsAt(ws: seq<string>)
    ensures At(Items(ws), 0, ws)
  {
    ItemsIndex(ws);
  }

  function AndWord(and: bool): seq<string>
  {
    if and then ["and"] else []
  }

  /** A cents phrase: an optional "and", a number from 1 to 99 and a cents marker. */
  function CentsWords(and: bool, c: nat, cw: string): seq<string>
    requires 1 <= c <= 99
  {
    AndWord(and) + BelowHundred(c) + [cw]
  }

  function AndLength(and: bool): nat
  {
    if and then 1 else 0
  }

  /** The items at `pos` read as a cents phrase for `c`. */
  predicate CentsAt(items: seq<Item>, pos: nat, and: bool, c: nat)
  {
    1 <= c <= 99
    && (and ==> pos < |items| && items[pos].typ == DefaultItem)
    && RestAt(items, pos + AndLength(and), c)
    && pos + AndLength(and) + RestLength(c) < |items|
    && items[pos + AndLength(and) + RestLength(c)].typ == CentsItem
  }

  /** Words between an optional "and" and a final marker word, split into the three. */
  lemma MarkedSplit(items: seq<Item>, pos: nat, and: bool, r: seq<string>, w: string)
    requires At(items, pos, AndWord(and) + r + [w])
    ensures and ==> pos < |items| && items[pos].typ == DefaultItem
    ensures At(items, pos + AndLength(and), r)
    ensures pos + AndLength(and) + |r| < |items| && items[pos + AndLength(and) + |r|] == NewItem(w)
  {
    AtAppend(items, pos, AndWord(and) + r, [w]);
    AtAppend(items, pos, AndWord(and), r);
    if and {
      AndItem(items, pos);
    }
    AtSingle(items, pos + |AndWord(and) + r|, w);
  }

  lemma CentsItems(items: seq<Item>, pos: nat, and: bool, c: nat, cw: string)
    requires 1 <= c <= 99 && NewItem(cw).typ == CentsItem
    requires At(items, pos, CentsWords(and, c, cw))
    ensures CentsAt(items, pos, and, c)
  {
    MarkedSplit(items, pos, and, BelowHundred(c), cw);
    RestItems(items, pos + AndLength(and), c);
  }

  /** The state that reads the first word of a cents phrase. */
  function CentsState(and: bool, c: nat): State
  {
    if and then Default else RestState(c)
  }

  /** The first item of a cents phrase is a word the dollars state hands over to, and the state it
      dispatches to is the one that reads the phrase. */
  lemma CentsFirst(items: seq<Item>, pos: nat, and: bool, c: nat)
    requires CentsAt(items, pos, and, c)
    ensures pos < |items| && items[pos].typ in {SingleItem, DirectItem, TenPrefixItem, DefaultItem}
    ensures Dispatch(items[pos].typ) == CentsState(and, c)
  {
  }

  /** What reading a cents phrase from `m` in state `st` needs, halting in `fin`. */
  predicate CentsReady(m: Machine, and: bool, c: nat, v: Variant, st: State, fin: Machine)
  {
    CentsAt(m.items, m.pos, and, c) && m.prev == 0 && st == CentsState(and, c)
    && fin == m.(pos := m.pos + AndLength(and) + RestLength(c), sum := 0, prev := 0, cents := m.sum + c)
  }

  /** The number and the cents marker: the number becomes the cents. */
  lemma CentsNumberRun(m: Machine, c: nat, v: Variant, st: State, fin: Machine)
    requires CentsReady(m, false, c, v, st, fin)
    ensures SameEnd(m, st, fin, Halt, v)
  {
    var mc := m.(pos := m.pos + RestLength(c), sum := m.sum + m.prev + c, prev := 0);
    RestBeforeMarker(m, c, v, st, mc, Cents);
    CentsHalts(mc, v);
    RunStep(mc, Cents, v, fin, Halt);
    SameEndTrans(m, st, mc, Cents, fin, Halt, v);
  }

  lemma AndCentsReady(m: Machine, c: nat, v: Variant, st: State, fin: Machine)
    requires CentsReady(m, true, c, v, st, fin)
    ensures m.pos + 1 < |m.items| && m.items[m.pos].typ == DefaultItem && st == Default
    ensures Dispatch(m.items[m.pos + 1].typ) == RestState(c)
    ensures m.items[m.pos + 1].typ !in {ErrorItem, EOL, LargeItem}
    ensures CentsReady(m.(pos := m.pos + 1), false, c, v, RestState(c), fin)
  {
  }

  /** A cents phrase: the "and" is skipped and the number becomes the cents. */
  lemma CentsRun(m: Machine, and: bool, c: nat, v: Variant, st: State, fin: Machine)
    requires CentsReady(m, and, c, v, st, fin)
    ensures SameEnd(m, st, fin, Halt, v)
  {
    if and {
      var mr := m.(pos := m.pos + 1);
      AndCentsReady(m, c, v, st, fin);
      SkipWord(m, v);
      RunStep(m, st, v, mr, RestState(c));
      CentsNumberRun(mr, c, v, RestState(c), fin);
      SameEndTrans(m, st, mr, RestState(c), fin, Halt, v);
    } else {
      CentsNumberRun(m, c, v, st, fin);
    }
  }

  /** A run that ends without an error yields its dollars in cents plus its cents. */
  lemma RunWordsOk(ws: seq<string>, v: Variant, dollars: int, cents: int, total: int)
    requires var f := Run(Initial(Items(ws)), Start, v); f.err == None && f.dollars == dollars && f.cents == cents
    requires total == 100 * dollars + cents
    ensures RunWords(ws, v) == (total, None)
  {
  }

  /** A run that ends without an error and without cents yields its dollars in cents. */
  lemma RunWordsDollars(ws: seq<string>, v: Variant, dollars: int)
    requires var f := Run(Initial(Items(ws)), Start, v); f.err == None && f.dollars == dollars && f.cents == 0
    ensures RunWords(ws, v) == (100 * dollars, None)
  {
  }

  /** The items start with an amount and a dollars marker. */
  predicate AmountReadyAtStart(items: seq<Item>, ps: seq<Part>, v: Variant)
  {
    ValidAmount(ps) && (v == KeepPending || AllScaleSafe(ps))
    && At(items, 0, Words(ps)) && |Words(ps)| < |items| && items[|Words(ps)|].typ == DollarsItem
  }

  /** From the start to the dollars marker: the amount is summed. */
  lemma AmountPrefix(items: seq<Item>, ps: seq<Part>, v: Variant, out: Machine)
    requires AmountReadyAtStart(items, ps, v)
    requires out == Initial(items).(pos := |Words(ps)|, sum := Value(ps))
    ensures SameEnd(Initial(items), Start, out, Dollars, v)
  {
    var m0 := Initial(items);
    AmountItems(items, 0, ps);
    AmountFirst(items, 0, ps);
    var st := PartState(ps[0]);
    assert AmountReady(m0, ps, v, st, out);
    StartOk(m0, v);
    RunStep(m0, Start, v, m0, st);
    AmountRun(m0, ps, v, st, out);
    SameEndTrans(m0, Start, m0, st, out, Dollars, v);
  }

  /** The item-level run of an amount and a dollars marker. */
  lemma DollarsRun(items: seq<Item>, ps: seq<Part>, v: Variant, fin: Machine)
    requires AmountReadyAtStart(items, ps, v) && |items| == |Words(ps)| + 1
    requires fin == Initial(items).(pos := |items|, dollars := Value(ps), dollarsDone := true)
    ensures Run(Initial(items), Start, v) == fin
  {
    var m0 := Initial(items);
    var out := m0.(pos := |Words(ps)|, sum := Value(ps));
    AmountPrefix(items, ps, v, out);
    DollarsThen(out, v);
    RunStep(out, Dollars, v, fin, Halt);
    SameEndTrans(m0, Start, out, Dollars, fin, Halt, v);
    SameEndHalt(m0, Start, fin, v);
  }

  /** The dollars marker hands a following cents phrase to the state that reads it. */
  lemma DollarsToCents(out: Machine, and: bool, c: nat, v: Variant, md: Machine)
    requires out.pos < |out.items| && out.items[out.pos].typ == DollarsItem
    requires CentsAt(out.items, out.pos + 1, and, c)
    requires md == out.(dollarsDone := true, dollars := out.sum, sum := 0, prev := 0, pos := out.pos + 1)
    ensures SameEnd(out, Dollars, md, CentsState(and, c), v)
  {
    CentsFirst(out.items, out.pos + 1, and, c);
    DollarsThen(out, v);
    RunStep(out, Dollars, v, md, CentsState(and, c));
  }

  /** From the start past the dollars marker of an amount followed by a cents phrase. */
  lemma DollarsMarkerStep(items: seq<Item>, ps: seq<Part>, and: bool, c: nat, v: Variant, md: Machine)
    requires AmountReadyAtStart(items, ps, v) && CentsAt(items, |Words(ps)| + 1, and, c)
    requires md == Initial(items).(pos := |Words(ps)| + 1, dollars := Value(ps), dollarsDone := true)
    ensures SameEnd(Initial(items), Start, md, CentsState(and, c), v)
  {
    var m0 := Initial(items);
    var out := m0.(pos := |Words(ps)|, sum := Value(ps));
    AmountPrefix(items, ps, v, out);
    DollarsToCents(out, and, c, v, md);
    SameEndTrans(m0, Start, out, Dollars, md, CentsState(and, c), v);
  }

  /** The item-level run of an amount, a dollars marker and a cents phrase. */
  lemma DollarsAndCentsRun(items: seq<Item>, ps: seq<Part>, and: bool, c: nat, v: Variant, fin: Machine)
    requires AmountReadyAtStart(items, ps, v) && CentsAt(items, |Words(ps)| + 1, and, c)
    requires fin == Initial(items).(pos := |Words(ps)| + 1 + AndLength(and) + RestLength(c),
                                    dollars := Value(ps), dollarsDone := true, cents := c)
    ensures Run(Initial(items), Start, v) == fin
  {
    var m0 := Initial(items);
    var md := m0.(pos := |Words(ps)| + 1, dollars := Value(ps), dollarsDone := true);
    var st := CentsState(and, c);
    DollarsMarkerStep(items, ps, and, c, v, md);
    CentsRun(md, and, c, v, st, fin);
    SameEndTrans(m0, Start, md, st, fin, Halt, v);
    SameEndHalt(m0, Start, fin, v);
  }


  /** The item-level run of a cents phrase on its own. */
  lemma CentsOnlyRun(items: seq<Item>, c: nat, v: Variant, fin: Machine)
    requires CentsAt(items, 0, false, c)
    requires fin == Initial(items).(pos := RestLength(c), cents := c)
    ensures Run(Initial(items), Start, v) == fin
  {
    var m0 := Initial(items);
    var st := RestState(c);
    StartOk(m0, v);
    RunStep(m0, Start, v, m0, st);
    CentsRun(m0, false, c, v, st, fin);
    SameEndTrans(m0, Start, m0, st, fin, Halt, v);
    SameEndHalt(m0, Start, fin, v);
  }

  /** The item-level run of "zero" and a marker that ends the input. */
  lemma ZeroRun(items: seq<Item>, v: Variant, fin: Machine)
    requires |items| == 2 && items[0].typ == ZeroItem && items[1].typ in {DollarsItem, CentsItem}
    requires fin == if items[1].typ == DollarsItem then Initial(items).(pos := 2, dollarsDone := true)
                    else Initial(items).(pos := 1)
    ensures Run(Initial(items), Start, v) == fin
  {
    var m0 := Initial(items);
    var m1 := m0.(pos := 1);
    var st := Dispatch(items[1].typ);
    StartOk(m0, v);
    RunStep(m0, Start, v, m0, Zero);
    ZeroThen(m0, v);
    RunStep(m0, Zero, v, m1, st);
    SameEndTrans(m0, Start, m0, Zero, m1, st, v);
    if st == Dollars {
      DollarsThen(m1, v);
    } else {
      CentsHalts(m1, v);
    }
    RunStep(m1, st, v, fin, Halt);
    SameEndTrans(m0, Start, m1, st, fin, Halt, v);
    SameEndHalt(m0, Start, fin, v);
  }

  /** The item-level run of "zero", a dollars marker and a cents phrase. */
  lemma ZeroAndCentsRun(items: seq<Item>, and: bool, c: nat, v: Variant, fin: Machine)
    requires |items| > 2 && items[0].typ == ZeroItem && items[1].typ == DollarsItem && CentsAt(items, 2, and, c)
    requires fin == Initial(items).(pos := 2 + AndLength(and) + RestLength(c), dollarsDone := true, cents := c)
    ensures Run(Initial(items), Start, v) == fin
  {
    var m0 := Initial(items);
    var m1 := m0.(pos := 1);
    StartOk(m0, v);
    RunStep(m0, Start, v, m0, Zero);
    ZeroThen(m0, v);
    RunStep(m0, Zero, v, m1, Dollars);
    SameEndTrans(m0, Start, m0, Zero, m1, Dollars, v);
    var md := m1.(dollarsDone := true, dollars := 0, sum := 0, prev := 0, pos := 2);
    var st := CentsState(and, c);
    DollarsThen(m1, v);
    RunStep(m1, Dollars, v, md, st);
    CentsRun(md, and, c, v, st, fin);
    SameEndTrans(m0, Start, m1, Dollars, md, st, v);
    SameEndTrans(m0, Start, md, st, fin, Halt, v);
    SameEndHalt(m0, Start, fin, v);
  }

  // Word level.

  /** An amount in words and a dollars marker, parsed by a variant that handles it. */
  predicate DollarsPhrase(ps: seq<Part>, d: string, v: Variant)
  {
    ValidAmount(ps) && NewItem(d).typ == DollarsItem && (v == KeepPending || AllScaleSafe(ps))
  }

  /** A number of cents in words and a cents marker. */
  predicate CentsPhrase(c: nat, cw: string)
  {
    1 <= c <= 99 && NewItem(cw).typ == CentsItem
  }

  lemma DollarsEnd(ps: seq<Part>, d: string, v: Variant, ws: seq<string>)
    requires DollarsPhrase(ps, d, v) && ws == Words(ps) + [d]
    ensures var f := Run(Initial(Items(ws)), Start, v); f.err == None && f.dollars == Value(ps) && f.cents == 0
  {
    var items := Items(ws);
    ItemsAt(ws);
    AtAppend(items, 0, Words(ps), [d]);
    AtSingle(items, |Words(ps)|, d);
    DollarsRun(items, ps, v, Initial(items).(pos := |items|, dollars := Value(ps), dollarsDone := true));
  }

  /** Words, a marker word and more words, split into the three. */
  lemma MarkerSplit(items: seq<Item>, pos: nat, a: seq<string>, w: string, b: seq<string>)
    requires At(items, pos, a + [w] + b)
    ensures At(items, pos, a) && pos + |a| < |items| && items[pos + |a|] == NewItem(w)
    ensures At(items, pos + |a| + 1, b)
  {
    AtAppend(items, pos, a + [w], b);
    AtAppend(items, pos, a, [w]);
    AtSingle(items, pos + |a|, w);
  }

  lemma DollarsAndCentsItems(ps: seq<Part>, d: string, and: bool, c: nat, cw: string, v: Variant, ws: seq<string>)
    requires DollarsPhrase(ps, d, v) && CentsPhrase(c, cw) && ws == Words(ps) + [d] + CentsWords(and, c, cw)
    ensures AmountReadyAtStart(Items(ws), ps, v) && CentsAt(Items(ws), |Words(ps)| + 1, and, c)
  {
    var items := Items(ws);
    ItemsAt(ws);
    MarkerSplit(items, 0, Words(ps), d, CentsWords(and, c, cw));
    CentsItems(items, |Words(ps)| + 1, and, c, cw);
  }

  lemma DollarsAndCentsEnd(ps: seq<Part>, d: string, and: bool, c: nat, cw: string, v: Variant, ws: seq<string>)
    requires DollarsPhrase(ps, d, v) && CentsPhrase(c, cw) && ws == Words(ps) + [d] + CentsWords(and, c, cw)
    ensures var f := Run(Initial(Items(ws)), Start, v); f.err == None && f.dollars == Value(ps) && f.cents == c
  {
    var items := Items(ws);
    DollarsAndCentsItems(ps, d, and, c, cw, v, ws);
    DollarsAndCentsRun(items, ps, and, c, v, Initial(items).(pos := |Words(ps)| + 1 + AndLength(and) + RestLength(c),
                                                              dollars := Value(ps), dollarsDone := true, cents := c));
  }

  lemma CentsEnd(c: nat, cw: string, v: Variant, ws: seq<string>)
    requires CentsPhrase(c, cw) && ws == BelowHundred(c) + [cw]
    ensures var f := Run(Initial(Items(ws)), Start, v); f.err == None && f.dollars == 0 && f.cents == c
  {
    var items := Items(ws);
    ItemsAt(ws);
    assert ws == CentsWords(false, c, cw);
    CentsItems(items, 0, false, c, cw);
    CentsOnlyRun(items, c, v, Initial(items).(pos := RestLength(c), cents := c));
  }

  lemma ZeroEnd(w: string, v: Variant, ws: seq<string>)
    requires NewItem(w).typ in {DollarsItem, CentsItem} && ws == ["zero", w]
    ensures var f := Run(Initial(Items(ws)), Start, v); f.err == None && f.dollars == 0 && f.cents == 0
  {
    var items := Items(ws);
    ItemsIndex(ws);
    OtherWords();
    assert items[0] == NewItem(ws[0]) && items[1] == NewItem(ws[1]);
    ZeroRun(items, v, if items[1].typ == DollarsItem then Initial(items).(pos := 2, dollarsDone := true)
                      else Initial(items).(pos := 1));
  }

  lemma ZeroAndCentsEnd(d: string, and: bool, c: nat, cw: string, v: Variant, ws: seq<string>)
    requires NewItem(d).typ == DollarsItem && CentsPhrase(c, cw) && ws == ["zero", d] + CentsWords(and, c, cw)
    ensures var f := Run(Initial(Items(ws)), Start, v); f.err == None && f.dollars == 0 && f.cents == c
  {
    var items := Items(ws);
    ItemsAt(ws);
    assert ws == ["zero"] + [d] + CentsWords(and, c, cw);
    MarkerSplit(items, 0, ["zero"], d, CentsWords(and, c, cw));
    AtSingle(items, 0, "zero");
    OtherWords();
    CentsItems(items, 2, and, c, cw);
    ZeroAndCentsRun(items, and, c, v, Initial(items).(pos := 2 + AndLength(and) + RestLength(c), dollarsDone := true, cents := c));
  }

  /** An amount in words followed by a dollars marker parses to one hundred cents per dollar. The
      corrected reading does so for every amount, the parser as written for every amount whose
      groups before a scale word are safe. */
  lemma DollarsRoundTrip(ps: seq<Part>, d: string, v: Variant)
    requires ValidAmount(ps) && NewItem(d).typ == DollarsItem
    requires v == KeepPending || AllScaleSafe(ps)
    ensures RunWords(Words(ps) + [d], v) == (100 * Value(ps), None)
  {
    var ws := Words(ps) + [d];
    DollarsEnd(ps, d, v, ws);
    RunWordsDollars(ws, v, Value(ps));
  }

  lemma DollarsAndCentsTotal(ps: seq<Part>, d: string, and: bool, c: nat, cw: string, v: Variant, ws: seq<string>, total: int)
    requires DollarsPhrase(ps, d, v) && CentsPhrase(c, cw) && ws == Words(ps) + [d] + CentsWords(and, c, cw)
    requires total == 100 * Value(ps) + c
    ensures RunWords(ws, v) == (total, None)
  {
    DollarsAndCentsEnd(ps, d, and, c, cw, v, ws);
    RunWordsOk(ws, v, Value(ps), c, total);
  }

  /** An amount in words, a dollars marker and a cents phrase parse to the dollars in cents plus
      the cents. */
  lemma DollarsAndCentsRoundTrip(ps: seq<Part>, d: string, and: bool, c: nat, cw: string, v: Variant)
    requires ValidAmount(ps) && NewItem(d).typ == DollarsItem
    requires 1 <= c <= 99 && NewItem(cw).typ == CentsItem
    requires v == KeepPending || AllScaleSafe(ps)
    ensures RunWords(Words(ps) + [d] + CentsWords(and, c, cw), v) == (100 * Value(ps) + c, None)
  {
    var ws := Words(ps) + [d] + CentsWords(and, c, cw);
    assert DollarsPhrase(ps, d, v) && CentsPhrase(c, cw);
    DollarsAndCentsTotal(ps, d, and, c, cw, v, ws, 100 * Value(ps) + c);
  }

  /** A number from 1 to 99 and a cents marker parse to that many cents. */
  lemma CentsRoundTrip(c: nat, cw: string, v: Variant)
    requires 1 <= c <= 99 && NewItem(cw).typ == CentsItem
    ensures RunWords(BelowHundred(c) + [cw], v) == (c, None)
  {
    var ws := BelowHundred(c) + [cw];
    CentsEnd(c, cw, v, ws);
    RunWordsOk(ws, v, 0, c, c);
  }

  /** "zero" and a currency marker parse to nothing. */
  lemma ZeroRoundTrip(w: string, v: Variant)
    requires NewItem(w).typ in {DollarsItem, CentsItem}
    ensures RunWords(["zero", w], v) == (0, None)
  {
    ZeroEnd(w, v, ["zero", w]);
    RunWordsOk(["zero", w], v, 0, 0, 0);
  }

  /** "zero", a dollars marker and a cents phrase parse to the cents. */
  lemma ZeroDollarsAndCents(d: string, and: bool, c: nat, cw: string, v: Variant)
    requires NewItem(d).typ == DollarsItem
    requires 1 <= c <= 99 && NewItem(cw).typ == CentsItem
    ensures RunWords(["zero", d] + CentsWords(and, c, cw), v) == (c, None)
  {
    var ws := ["zero", d] + CentsWords(and, c, cw);
    ZeroAndCentsEnd(d, and, c, cw, v, ws);
    RunWordsOk(ws, v, 0, c, c);
  }
}
