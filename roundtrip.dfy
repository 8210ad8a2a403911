/** The parser reads back every amount spelled out in words: a spelled amount followed by a dollars
    marker parses to one hundred times its value. Under the corrected reading this holds for every
    amount; as written it holds for every amount whose groups before a scale word are safe. */
module RoundTrip {
  import opened Lexicon
  import opened Numerizer
  import opened Spelling
  import opened Steps

  /** The words `ws` are classified at `pos` of `items`. */
  predicate At(items: seq<Item>, pos: nat, ws: seq<string>)
  {
    pos + |ws| <= |items| && forall k :: 0 <= k < |ws| ==> items[pos + k] == NewItem(ws[k])
  }

  lemma AtAppend(items: seq<Item>, pos: nat, a: seq<string>, b: seq<string>)
    requires At(items, pos, a + b)
    ensures At(items, pos, a) && At(items, pos + |a|, b)
  {
    forall k | 0 <= k < |a|
      ensures items[pos + k] == NewItem(a[k])
    {
      assert (a + b)[k] == a[k];
    }
    forall k | 0 <= k < |b|
      ensures items[pos + |a| + k] == NewItem(b[k])
    {
      assert (a + b)[|a| + k] == b[k];
    }
  }

  /** One word classified at `pos`. */
  lemma AtSingle(items: seq<Item>, pos: nat, w: string)
    requires At(items, pos, [w])
    ensures pos < |items| && items[pos] == NewItem(w)
  {
    assert [w][0] == w;
  }

  /** The state that reads a number from 1 to 99. */
  function RestState(r: nat): State
  {
    if r < 10 then Single else if r < 20 then Direct else TenPrefix
  }

  /** A tens word followed by a unit. */
  predicate Compound(r: nat)
  {
    r > 20 && r % 10 != 0
  }

  /** The pending group after the words of `r` meet a scale word with `pendingBefore` pending: a tens
      word followed by a unit always adds, any other rest is read as `Pending` says. */
  function ScalePending(pendingBefore: int, r: nat, v: Variant): int
  {
    if Compound(r) then pendingBefore + r else Pending(pendingBefore, r, v)
  }

  /** The category of the first word of a number from 1 to 99. */
  function RestType(r: nat): ItemType
  {
    if r < 10 then SingleItem else if r < 20 then DirectItem else TenPrefixItem
  }

  function RestLength(r: nat): nat
  {
    if Compound(r) then 2 else 1
  }

  /** The items at `pos` read as the number `r` from 1 to 99. */
  predicate RestAt(items: seq<Item>, pos: nat, r: nat)
  {
    pos + RestLength(r) <= |items| && items[pos].typ == RestType(r)
    && (Compound(r) ==> items[pos + 1].typ == SingleItem && items[pos].val + items[pos + 1].val == r)
    && (!Compound(r) ==> items[pos].val == r)
  }

  lemma RestLengthWords(r: nat)
    requires 1 <= r <= 99
    ensures |BelowHundred(r)| == RestLength(r)
  {
  }

  /** The items of the words of a number from 1 to 99. */
  lemma RestItems(items: seq<Item>, pos: nat, r: nat)
    requires 1 <= r <= 99 && At(items, pos, BelowHundred(r))
    ensures |BelowHundred(r)| == RestLength(r)
    ensures RestAt(items, pos, r)
  {
    if r < 10 {
      UnitWords(r);
    } else if r < 20 {
      TeenWords(r);
    } else {
      TensWords(r / 10);
      if Compound(r) {
        UnitWords(r % 10);
        assert items[pos + 1] == NewItem(BelowHundred(r)[1]);
      }
    }
    assert items[pos] == NewItem(BelowHundred(r)[0]);
  }

  /** The state reading a number from 1 to 99 before a scale word: the pending group becomes what
      `ScalePending` says. */
  lemma RestStepBeforeScale(m: Machine, r: nat, v: Variant)
    requires 1 <= r <= 99 && RestAt(m.items, m.pos, r)
    requires LookAt(m.items, m.pos + RestLength(r)).typ == LargeItem
    ensures Transition(m, RestState(r), v)
      == (m.(pos := m.pos + RestLength(r), prev := ScalePending(m.prev, r, v)), Large)
  {
    if Compound(r) {
      CompoundBeforeScale(m, v);
    } else {
      WordBeforeScale(m, RestState(r), v);
    }
  }

  /** The state reading a number from 1 to 99 before a currency marker: the number and the pending
      group are added to the sum. */
  lemma RestStepBeforeMarker(m: Machine, r: nat, v: Variant, m': Machine, st': State)
    requires 1 <= r <= 99 && RestAt(m.items, m.pos, r)
    requires LookAt(m.items, m.pos + RestLength(r)).typ in {DollarsItem, CentsItem}
    requires m' == m.(pos := m.pos + RestLength(r), sum := m.sum + m.prev + r, prev := 0)
    requires st' == Dispatch(m.items[m.pos + RestLength(r)].typ)
    ensures var t := Transition(m, RestState(r), v); t.0.(prev := 0) == m' && t.1 == st'
  {
    if Compound(r) {
      CompoundBeforeMarker(m, v);
    } else {
      WordBeforeMarker(m, RestState(r), v);
    }
  }
  /** Reading a number from 1 to 99 before a scale word. The state and the machine after it are
      passed in, so that callers can name them in their own terms. */
  lemma RestBeforeScale(m: Machine, r: nat, v: Variant, st: State, m': Machine)
    requires 1 <= r <= 99 && RestAt(m.items, m.pos, r)
    requires LookAt(m.items, m.pos + RestLength(r)).typ == LargeItem
    requires st == RestState(r)
    requires m' == m.(pos := m.pos + RestLength(r), prev := ScalePending(m.prev, r, v))
    ensures SameEnd(m, st, m', Large, v)
  {
    RestStepBeforeScale(m, r, v);
    RunStep(m, st, v, m', Large);
  }

  /** Reading a number from 1 to 99 before a currency marker. */
  lemma RestBeforeMarker(m: Machine, r: nat, v: Variant, st: State, m': Machine, st': State)
    requires 1 <= r <= 99 && RestAt(m.items, m.pos, r)
    requires LookAt(m.items, m.pos + RestLength(r)).typ in {DollarsItem, CentsItem}
    requires st == RestState(r)
    requires m' == m.(pos := m.pos + RestLength(r), sum := m.sum + m.prev + r, prev := 0)
    requires st' == Dispatch(m.items[m.pos + RestLength(r)].typ)
    ensures SameEnd(m, st, m', st', v)
  {
    RestStepBeforeMarker(m, r, v, m', st');
    var t := Transition(m, st, v);
    RunStep(m, st, v, t.0, t.1);
    MarkerIgnoresPrev(t.0, t.1, v, m');
    SameEndTrans(m, st, t.0, t.1, m', st', v);
  }

  // ---------------------------------------------------------------------------------------------
  // "N hundred" at the head of a group.

  /** "N hundred" before the words of a rest. */
  lemma HundredsThenRest(m: Machine, h: nat, v: Variant, st: State, m': Machine, st': State)
    requires m.pos + 2 < |m.items| && m.prev == 0
    requires m.items[m.pos].typ == SingleItem && m.items[m.pos].val == h
    requires m.items[m.pos + 1].typ == HundredItem && m.items[m.pos + 1].val == 100
    requires m.items[m.pos + 2].typ in {SingleItem, DirectItem, TenPrefixItem}
    requires st == Single && st' == Dispatch(m.items[m.pos + 2].typ)
    requires m' == m.(pos := m.pos + 2, prev := 100 * h)
    ensures SameEnd(m, st, m', st', v)
  {
    var m1 := m.(pos := m.pos + 1, prev := h);
    UnitBeforeHundred(m, v);
    RunStep(m, Single, v, m1, Hundred);
    HundredThen(m1, v);
    RunStep(m1, Hundred, v, m', st');
    SameEndTrans(m, st, m1, Hundred, m', st', v);
  }

  /** "N hundred and" before the words of a rest. */
  lemma HundredsAndThenRest(m: Machine, h: nat, v: Variant, st: State, m': Machine, st': State)
    requires m.pos + 3 < |m.items| && m.prev == 0
    requires m.items[m.pos].typ == SingleItem && m.items[m.pos].val == h
    requires m.items[m.pos + 1].typ == HundredItem && m.items[m.pos + 1].val == 100
    requires m.items[m.pos + 2].typ == DefaultItem
    requires m.items[m.pos + 3].typ in {SingleItem, DirectItem, TenPrefixItem}
    requires st == Single && st' == Dispatch(m.items[m.pos + 3].typ)
    requires m' == m.(pos := m.pos + 3, prev := 100 * h)
    ensures SameEnd(m, st, m', st', v)
  {
    var m1 := m.(pos := m.pos + 1, prev := h);
    var m2 := m.(pos := m.pos + 2, prev := 100 * h);
    UnitBeforeHundred(m, v);
    RunStep(m, Single, v, m1, Hundred);
    HundredThen(m1, v);
    RunStep(m1, Hundred, v, m2, Default);
    SkipWord(m2, v);
    RunStep(m2, Default, v, m', st');
    SameEndTrans(m, st, m1, Hundred, m2, Default, v);
    SameEndTrans(m, st, m2, Default, m', st', v);
  }

  /** "N hundred" before a scale word: the pending group is N hundred. */
  lemma HundredsBeforeScale(m: Machine, h: nat, v: Variant, st: State, m': Machine)
    requires m.pos + 2 < |m.items| && m.prev == 0
    requires m.items[m.pos].typ == SingleItem && m.items[m.pos].val == h
    requires m.items[m.pos + 1].typ == HundredItem && m.items[m.pos + 1].val == 100
    requires m.items[m.pos + 2].typ == LargeItem
    requires st == Single && m' == m.(pos := m.pos + 2, prev := 100 * h)
    ensures SameEnd(m, st, m', Large, v)
  {
    var m1 := m.(pos := m.pos + 1, prev := h);
    UnitBeforeHundred(m, v);
    RunStep(m, Single, v, m1, Hundred);
    HundredThen(m1, v);
    RunStep(m1, Hundred, v, m', Large);
    SameEndTrans(m, st, m1, Hundred, m', Large, v);
  }

  /** "N hundred" before the dollars marker: N hundred is added to the sum. */
  lemma HundredsBeforeDollars(m: Machine, h: nat, v: Variant, st: State, m': Machine)
    requires m.pos + 2 < |m.items| && m.prev == 0
    requires m.items[m.pos].typ == SingleItem && m.items[m.pos].val == h
    requires m.items[m.pos + 1].typ == HundredItem && m.items[m.pos + 1].val == 100
    requires m.items[m.pos + 2].typ == DollarsItem
    requires st == Single && m' == m.(pos := m.pos + 2, sum := m.sum + 100 * h, prev := 0)
    ensures SameEnd(m, st, m', Dollars, v)
  {
    var m1 := m.(pos := m.pos + 1, prev := h);
    var m2 := m.(pos := m.pos + 2, prev := 100 * h, sum := m.sum + 100 * h);
    UnitBeforeHundred(m, v);
    RunStep(m, Single, v, m1, Hundred);
    HundredBeforeDollars(m1, v);
    RunStep(m1, Hundred, v, m2, Dollars);
    MarkerIgnoresPrev(m2, Dollars, v, m');
    SameEndTrans(m, st, m1, Hundred, m2, Dollars, v);
    SameEndTrans(m, st, m2, Dollars, m', Dollars, v);
  }

  // ---------------------------------------------------------------------------------------------
  // Groups below a thousand.

  /** Where the rest of a group starts: after "N hundred" and after "and". */
  function RestPos(g: Group): nat
  {
    (if g.hundreds > 0 then 2 else 0) + (if g.ligature then 1 else 0)
  }

  function GroupLength(g: Group): nat
  {
    RestPos(g) + (if g.rest > 0 then RestLength(g.rest) else 0)
  }

  function GroupState(g: Group): State
  {
    if g.hundreds > 0 then Single else RestState(g.rest)
  }

  /** The items at `pos` read as the group `g`. */
  predicate GroupAt(items: seq<Item>, pos: nat, g: Group)
  {
    ValidGroup(g) && pos + GroupLength(g) <= |items|
    && (g.hundreds > 0 ==>
          pos + 1 < |items|
          && items[pos].typ == SingleItem && items[pos].val == g.hundreds
          && items[pos + 1].typ == HundredItem && items[pos + 1].val == 100)
    && (g.ligature ==> pos + 2 < |items| && items[pos + 2].typ == DefaultItem)
    && (g.rest > 0 ==> RestAt(items, pos + RestPos(g), g.rest))
  }

  lemma HundredsItems(items: seq<Item>, pos: nat, h: nat)
    requires 1 <= h <= 9 && At(items, pos, [Units[h - 1], "hundred"])
    ensures items[pos].typ == SingleItem && items[pos].val == h
    ensures items[pos + 1].typ == HundredItem && items[pos + 1].val == 100
  {
    UnitWords(h);
    OtherWords();
    assert items[pos] == NewItem([Units[h - 1], "hundred"][0]);
    assert items[pos + 1] == NewItem([Units[h - 1], "hundred"][1]);
  }

  lemma AndItem(items: seq<Item>, pos: nat)
    requires At(items, pos, ["and"])
    ensures items[pos].typ == DefaultItem
  {
    OtherWords();
    assert items[pos] == NewItem(["and"][0]);
  }

  function HeadWords(g: Group): seq<string>
    requires ValidGroup(g)
  {
    if g.hundreds > 0 then [Units[g.hundreds - 1], "hundred"] else []
  }

  function TailWords(g: Group): seq<string>
    requires ValidGroup(g)
  {
    if g.rest > 0 then BelowHundred(g.rest) else []
  }

  lemma HeadItems(items: seq<Item>, pos: nat, g: Group)
    requires ValidGroup(g) && At(items, pos, HeadWords(g))
    ensures g.hundreds > 0 ==>
      pos + 1 < |items|
      && items[pos].typ == SingleItem && items[pos].val == g.hundreds
      && items[pos + 1].typ == HundredItem && items[pos + 1].val == 100
  {
    if g.hundreds > 0 {
      HundredsItems(items, pos, g.hundreds);
    }
  }

  lemma TailItems(items: seq<Item>, pos: nat, g: Group)
    requires ValidGroup(g) && At(items, pos, TailWords(g))
    ensures |TailWords(g)| == if g.rest > 0 then RestLength(g.rest) else 0
    ensures g.rest > 0 ==> RestAt(items, pos, g.rest)
  {
    if g.rest > 0 {
      RestItems(items, pos, g.rest);
    }
  }

  function AndWords(g: Group): seq<string>
  {
    if g.ligature then ["and"] else []
  }

  lemma GroupWordsParts(g: Group)
    requires ValidGroup(g)
    ensures GroupWords(g) == HeadWords(g) + AndWords(g) + TailWords(g)
  {
  }

  /** The words of a group split into its head, its "and" and its rest. */
  lemma GroupWordsSplit(items: seq<Item>, pos: nat, g: Group)
    requires ValidGroup(g) && At(items, pos, GroupWords(g))
    ensures At(items, pos, HeadWords(g))
    ensures At(items, pos + |HeadWords(g)|, AndWords(g))
    ensures At(items, pos + |HeadWords(g)| + |AndWords(g)|, TailWords(g))
  {
    GroupWordsParts(g);
    AtAppend(items, pos, HeadWords(g) + AndWords(g), TailWords(g));
    AtAppend(items, pos, HeadWords(g), AndWords(g));
  }

  lemma GroupWordsLength(g: Group)
    requires ValidGroup(g)
    ensures |HeadWords(g)| + |AndWords(g)| == RestPos(g)
    ensures |GroupWords(g)| == GroupLength(g)
  {
    assert GroupWords(g) == HeadWords(g) + AndWords(g) + TailWords(g);
    if g.rest > 0 {
      RestLengthWords(g.rest);
    }
  }

  lemma GroupItems(items: seq<Item>, pos: nat, g: Group)
    requires ValidGroup(g) && At(items, pos, GroupWords(g))
    ensures |GroupWords(g)| == GroupLength(g)
    ensures GroupAt(items, pos, g)
  {
    GroupWordsLength(g);
    GroupWordsSplit(items, pos, g);
    HeadItems(items, pos, g);
    if g.ligature {
      AndItem(items, pos + 2);
    }
    TailItems(items, pos + RestPos(g), g);
  }

  /** The first item of a group leads a dispatch to the group's state. */
  lemma GroupFirst(items: seq<Item>, pos: nat, g: Group)
    requires GroupAt(items, pos, g)
    ensures pos < |items| && items[pos].typ in {SingleItem, DirectItem, TenPrefixItem}
    ensures Dispatch(items[pos].typ) == GroupState(g)
  {
  }

  /** A group with hundreds and a rest before a scale word. */
  lemma FullGroupBeforeScale(m: Machine, g: Group, v: Variant, st: State, m': Machine)
    requires m.prev == 0 && GroupAt(m.items, m.pos, g) && g.hundreds > 0 && g.rest > 0
    requires LookAt(m.items, m.pos + GroupLength(g)).typ == LargeItem
    requires v == KeepPending || ScaleSafe(g)
    requires st == Single && m' == m.(pos := m.pos + GroupLength(g), prev := GroupValue(g))
    ensures SameEnd(m, st, m', Large, v)
  {
    var mr := m.(pos := m.pos + RestPos(g), prev := 100 * g.hundreds);
    if g.ligature {
      HundredsAndThenRest(m, g.hundreds, v, st, mr, RestState(g.rest));
    } else {
      HundredsThenRest(m, g.hundreds, v, st, mr, RestState(g.rest));
    }
    RestBeforeScale(mr, g.rest, v, RestState(g.rest), m');
    SameEndTrans(m, st, mr, RestState(g.rest), m', Large, v);
  }

  /** A group before a scale word becomes the pending group, when it is safe or the reading is the
      corrected one. */
  lemma GroupBeforeScale(m: Machine, g: Group, v: Variant, st: State, m': Machine)
    requires m.prev == 0 && GroupAt(m.items, m.pos, g)
    requires LookAt(m.items, m.pos + GroupLength(g)).typ == LargeItem
    requires v == KeepPending || ScaleSafe(g)
    requires st == GroupState(g) && m' == m.(pos := m.pos + GroupLength(g), prev := GroupValue(g))
    ensures SameEnd(m, st, m', Large, v)
  {
    if g.hundreds == 0 {
      RestBeforeScale(m, g.rest, v, st, m');
    } else if g.rest == 0 {
      HundredsBeforeScale(m, g.hundreds, v, st, m');
    } else {
      FullGroupBeforeScale(m, g, v, st, m');
    }
  }

  /** A group with hundreds and a rest before the dollars marker. */
  lemma FullGroupBeforeMarker(m: Machine, g: Group, v: Variant, st: State, m': Machine, st': State)
    requires m.prev == 0 && GroupAt(m.items, m.pos, g) && g.hundreds > 0 && g.rest > 0
    requires LookAt(m.items, m.pos + GroupLength(g)).typ == DollarsItem
    requires st == Single && m' == m.(pos := m.pos + GroupLength(g), sum := m.sum + GroupValue(g), prev := 0)
    requires st' == Dollars
    ensures SameEnd(m, st, m', st', v)
  {
    var mr := m.(pos := m.pos + RestPos(g), prev := 100 * g.hundreds);
    if g.ligature {
      HundredsAndThenRest(m, g.hundreds, v, st, mr, RestState(g.rest));
    } else {
      HundredsThenRest(m, g.hundreds, v, st, mr, RestState(g.rest));
    }
    RestBeforeMarker(mr, g.rest, v, RestState(g.rest), m', st');
    SameEndTrans(m, st, mr, RestState(g.rest), m', st', v);
  }

  /** A group before a currency marker is added to the sum; before the cents marker only a group
      below a hundred is read. */
  lemma GroupBeforeMarker(m: Machine, g: Group, v: Variant, st: State, m': Machine, st': State)
    requires m.prev == 0 && GroupAt(m.items, m.pos, g)
    requires LookAt(m.items, m.pos + GroupLength(g)).typ == DollarsItem
      || (LookAt(m.items, m.pos + GroupLength(g)).typ == CentsItem && g.hundreds == 0)
    requires st == GroupState(g) && m' == m.(pos := m.pos + GroupLength(g), sum := m.sum + GroupValue(g), prev := 0)
    requires st' == Dispatch(m.items[m.pos + GroupLength(g)].typ)
    ensures SameEnd(m, st, m', st', v)
  {
    if g.hundreds == 0 {
      RestBeforeMarker(m, g.rest, v, st, m', st');
    } else if g.rest == 0 {
      HundredsBeforeDollars(m, g.hundreds, v, st, m');
    } else {
      FullGroupBeforeMarker(m, g, v, st, m', st');
    }
  }

  // ---------------------------------------------------------------------------------------------
  // Parts: an optional "and", a group and its scale word.

  function PartOffset(p: Part): nat
  {
    if p.ligature then 1 else 0
  }

  function PartLength(p: Part): nat
  {
    PartOffset(p) + GroupLength(p.group) + (if p.scale > 0 then 1 else 0)
  }

  function PartState(p: Part): State
  {
    if p.ligature then Default else GroupState(p.group)
  }

  /** The items at `pos` read as the part `p`. */
  predicate PartAt(items: seq<Item>, pos: nat, p: Part)
  {
    p.scale <= 3 && pos + PartLength(p) <= |items|
    && (p.ligature ==> pos < |items| && items[pos].typ == DefaultItem)
    && GroupAt(items, pos + PartOffset(p), p.group)
    && (p.scale > 0 ==> ScaleAt(items, pos + PartOffset(p) + GroupLength(p.group), p.scale))
  }

  /** The item at `pos` is the scale word of index `s`. */
  predicate ScaleAt(items: seq<Item>, pos: nat, s: nat)
  {
    1 <= s <= 3 && pos < |items| && items[pos].typ == LargeItem && items[pos].val == Weight(s)
  }

  function LigatureWords(p: Part): seq<string>
  {
    if p.ligature then ["and"] else []
  }

  function ScaleTail(p: Part): seq<string>
    requires p.scale <= 3
  {
    if p.scale > 0 then [ScaleWords[p.scale - 1]] else []
  }

  lemma PartWordsSplit(items: seq<Item>, pos: nat, p: Part)
    requires ValidGroup(p.group) && p.scale <= 3 && At(items, pos, PartWords(p))
    ensures At(items, pos, LigatureWords(p))
    ensures At(items, pos + PartOffset(p), GroupWords(p.group))
    ensures At(items, pos + PartOffset(p) + |GroupWords(p.group)|, ScaleTail(p))
  {
    assert PartWords(p) == LigatureWords(p) + GroupWords(p.group) + ScaleTail(p);
    AtAppend(items, pos, LigatureWords(p) + GroupWords(p.group), ScaleTail(p));
    AtAppend(items, pos, LigatureWords(p), GroupWords(p.group));
  }

  lemma ScaleTailItem(items: seq<Item>, pos: nat, p: Part)
    requires p.scale <= 3 && At(items, pos, ScaleTail(p))
    ensures p.scale > 0 ==> ScaleAt(items, pos, p.scale)
  {
    if p.scale > 0 {
      ScaleWordItems(p.scale);
      assert items[pos] == NewItem(ScaleTail(p)[0]);
    }
  }

  lemma PartItems(items: seq<Item>, pos: nat, p: Part)
    requires ValidGroup(p.group) && p.scale <= 3 && At(items, pos, PartWords(p))
    ensures |PartWords(p)| == PartLength(p)
    ensures PartAt(items, pos, p)
  {
    PartWordsSplit(items, pos, p);
    if p.ligature {
      AndItem(items, pos);
    }
    GroupItems(items, pos + PartOffset(p), p.group);
    ScaleTailItem(items, pos + PartOffset(p) + GroupLength(p.group), p);
  }

  /** The first item of a part leads a dispatch to the part's state. */
  lemma PartFirst(items: seq<Item>, pos: nat, p: Part)
    requires PartAt(items, pos, p)
    ensures pos < |items| && items[pos].typ in {SingleItem, DirectItem, TenPrefixItem, DefaultItem}
    ensures Dispatch(items[pos].typ) == PartState(p)
  {
    GroupFirst(items, pos + PartOffset(p), p.group);
  }

  /** A group and its scale word: the scale word multiplies the group into the sum. */
  lemma ScaledGroupRun(m: Machine, g: Group, s: nat, v: Variant, st: State, m': Machine, st': State)
    requires m.prev == 0 && GroupAt(m.items, m.pos, g) && ScaleAt(m.items, m.pos + GroupLength(g), s)
    requires m.pos + GroupLength(g) + 1 < |m.items|
    requires m.items[m.pos + GroupLength(g) + 1].typ in {SingleItem, DirectItem, TenPrefixItem, DollarsItem, DefaultItem}
    requires v == KeepPending || ScaleSafe(g)
    requires st == GroupState(g) && st' == Dispatch(m.items[m.pos + GroupLength(g) + 1].typ)
    requires m' == m.(pos := m.pos + GroupLength(g) + 1, sum := m.sum + GroupValue(g) * Weight(s))
    ensures SameEnd(m, st, m', st', v)
  {
    var ml := m.(pos := m.pos + GroupLength(g), prev := GroupValue(g));
    GroupBeforeScale(m, g, v, st, ml);
    ScaleThen(ml, v);
    RunStep(ml, Large, v, m', st');
    SameEndTrans(m, st, ml, Large, m', st', v);
  }

  /** What reading a part's group and scale word from `m` in state `st` needs, ending in `m'` and `st'`. */
  predicate GroupReady(m: Machine, p: Part, v: Variant, st: State, m': Machine, st': State)
  {
    m.prev == 0 && GroupAt(m.items, m.pos, p.group) && p.scale <= 3
    && (p.scale > 0 ==> ScaleAt(m.items, m.pos + GroupLength(p.group), p.scale))
    && (var n := m.pos + GroupLength(p.group) + (if p.scale > 0 then 1 else 0);
        n < |m.items| && m.items[n].typ in {SingleItem, DirectItem, TenPrefixItem, DollarsItem, DefaultItem}
        && (p.scale == 0 ==> m.items[n].typ == DollarsItem)
        && st' == Dispatch(m.items[n].typ)
        && m' == m.(pos := n, sum := m.sum + GroupValue(p.group) * Weight(p.scale)))
    && (v == KeepPending || p.scale == 0 || ScaleSafe(p.group))
    && st == GroupState(p.group)
  }

  /** What reading a whole part from `m` in state `st` needs, ending in `m'` and `st'`. */
  predicate PartReady(m: Machine, p: Part, v: Variant, st: State, m': Machine, st': State)
  {
    m.prev == 0 && PartAt(m.items, m.pos, p)
    && (var n := m.pos + PartLength(p);
        n < |m.items| && m.items[n].typ in {SingleItem, DirectItem, TenPrefixItem, DollarsItem, DefaultItem}
        && (p.scale == 0 ==> m.items[n].typ == DollarsItem)
        && st' == Dispatch(m.items[n].typ)
        && m' == m.(pos := n, sum := m.sum + GroupValue(p.group) * Weight(p.scale)))
    && (v == KeepPending || p.scale == 0 || ScaleSafe(p.group))
    && st == PartState(p)
  }

  /** A part without its "and". */
  lemma PartGroupRun(m: Machine, p: Part, v: Variant, st: State, m': Machine, st': State)
    requires GroupReady(m, p, v, st, m', st')
    ensures SameEnd(m, st, m', st', v)
  {
    if p.scale > 0 {
      ScaledGroupRun(m, p.group, p.scale, v, st, m', st');
    } else {
      GroupBeforeMarker(m, p.group, v, st, m', st');
    }
  }

  /** "and" before a part's group is skipped. */
  lemma LigatureRun(m: Machine, g: Group, v: Variant, st: State, mg: Machine, sg: State, m': Machine, st': State)
    requires m.pos < |m.items| && m.items[m.pos].typ == DefaultItem && GroupAt(m.items, m.pos + 1, g)
    requires st == Default && mg == m.(pos := m.pos + 1) && sg == GroupState(g)
    requires SameEnd(mg, sg, m', st', v)
    ensures SameEnd(m, st, m', st', v)
  {
    GroupFirst(m.items, m.pos + 1, g);
    SkipWord(m, v);
    RunStep(m, st, v, mg, sg);
    SameEndTrans(m, st, mg, sg, m', st', v);
  }

  /** A part with an "and": what its group needs, and the skipped word. */
  lemma LigatureReady(m: Machine, p: Part, v: Variant, st: State, m': Machine, st': State)
    requires PartReady(m, p, v, st, m', st') && p.ligature
    ensures m.pos < |m.items| && m.items[m.pos].typ == DefaultItem && GroupAt(m.items, m.pos + 1, p.group)
    ensures st == Default
    ensures GroupReady(m.(pos := m.pos + 1), p, v, GroupState(p.group), m', st')
  {
  }

  lemma PlainReady(m: Machine, p: Part, v: Variant, st: State, m': Machine, st': State)
    requires PartReady(m, p, v, st, m', st') && !p.ligature
    ensures GroupReady(m, p, v, st, m', st')
  {
  }

  /** A whole part: the part's group, times its scale, is added to the sum. */
  lemma PartRun(m: Machine, p: Part, v: Variant, st: State, m': Machine, st': State)
    requires PartReady(m, p, v, st, m', st')
    ensures SameEnd(m, st, m', st', v)
  {
    if p.ligature {
      var mg := m.(pos := m.pos + 1);
      LigatureReady(m, p, v, st, m', st');
      PartGroupRun(mg, p, v, GroupState(p.group), m', st');
      LigatureRun(m, p.group, v, st, mg, GroupState(p.group), m', st');
    } else {
      PlainReady(m, p, v, st, m', st');
      PartGroupRun(m, p, v, st, m', st');
    }
  }

  // ---------------------------------------------------------------------------------------------
  // Whole amounts.

  lemma PartsTail(ps: seq<Part>)
    requires ValidParts(ps) && |ps| > 0
    ensures ValidParts(ps[1..])
    ensures AllScaleSafe(ps) ==> AllScaleSafe(ps[1..])
    ensures |ps| > 1 ==> ps[0].scale > 0
  {
    assert ValidParts(ps[1..]) by {
      forall k | 0 <= k < |ps[1..]|
        ensures ValidGroup(ps[1..][k].group) && ps[1..][k].scale <= 3
        ensures k + 1 < |ps[1..]| ==> ps[1..][k + 1].scale < ps[1..][k].scale
      {
        assert ps[1..][k] == ps[k + 1];
      }
    }
    if |ps| > 1 {
      assert ps[1].scale < ps[0].scale;
    }
    if AllScaleSafe(ps) {
      forall k | 0 <= k < |ps[1..]| && ps[1..][k].scale > 0
        ensures ScaleSafe(ps[1..][k].group)
      {
        assert ps[1..][k] == ps[k + 1];
      }
    }
  }

  function AmountLength(ps: seq<Part>): nat
  {
    if ps == [] then 0 else PartLength(ps[0]) + AmountLength(ps[1..])
  }

  /** The items at `pos` read as the parts `ps`, one after the other. */
  predicate AmountAt(items: seq<Item>, pos: nat, ps: seq<Part>)
    decreases |ps|
  {
    ps == [] || (PartAt(items, pos, ps[0]) && AmountAt(items, pos + PartLength(ps[0]), ps[1..]))
  }

  lemma AmountAtTail(items: seq<Item>, pos: nat, ps: seq<Part>, n: nat)
    requires |ps| > 0 && AmountAt(items, pos, ps) && n == pos + PartLength(ps[0])
    ensures PartAt(items, pos, ps[0]) && AmountAt(items, n, ps[1..])
  {
  }

  /** The items of the words of an amount read as its parts. */
  lemma {:induction false} AmountItems(items: seq<Item>, pos: nat, ps: seq<Part>)
    requires ValidParts(ps) && At(items, pos, Words(ps))
    ensures |Words(ps)| == AmountLength(ps)
    ensures AmountAt(items, pos, ps)
    decreases |ps|
  {
    if ps != [] {
      PartsTail(ps);
      assert Words(ps) == PartWords(ps[0]) + Words(ps[1..]);
      AtAppend(items, pos, PartWords(ps[0]), Words(ps[1..]));
      PartItems(items, pos, ps[0]);
      AmountItems(items, pos + PartLength(ps[0]), ps[1..]);
    }
  }

  /** The first item of an amount leads a dispatch to the first part's state. */
  lemma AmountFirst(items: seq<Item>, pos: nat, ps: seq<Part>)
    requires |ps| > 0 && AmountAt(items, pos, ps)
    ensures pos < |items| && items[pos].typ in {SingleItem, DirectItem, TenPrefixItem, DefaultItem}
    ensures Dispatch(items[pos].typ) == PartState(ps[0])
  {
    PartFirst(items, pos, ps[0]);
  }

  /** A part followed by a run that ends alike. */
  lemma PartThen(m: Machine, p: Part, v: Variant, st: State, m1: Machine, s1: State, out: Machine, so: State)
    requires PartReady(m, p, v, st, m1, s1)
    requires SameEnd(m1, s1, out, so, v)
    ensures SameEnd(m, st, out, so, v)
  {
    PartRun(m, p, v, st, m1, s1);
    SameEndTrans(m, st, m1, s1, out, so, v);
  }

  /** What reading the parts `ps` from `m` in state `st` up to the dollars marker needs, ending in `out`. */
  predicate AmountReady(m: Machine, ps: seq<Part>, v: Variant, st: State, out: Machine)
  {
    ValidParts(ps) && |ps| > 0 && m.prev == 0
    && AmountAt(m.items, m.pos, ps)
    && m.pos + AmountLength(ps) < |m.items| && m.items[m.pos + AmountLength(ps)].typ == DollarsItem
    && (v == KeepPending || AllScaleSafe(ps))
    && st == PartState(ps[0])
    && out == m.(pos := m.pos + AmountLength(ps), sum := m.sum + Value(ps))
  }

  /** Where the run stands after the first part of an amount, and what remains to be read. */
  lemma AmountSplit(m: Machine, ps: seq<Part>, m1: Machine, out: Machine)
    requires ValidParts(ps) && |ps| > 0
    requires m1 == m.(pos := m.pos + PartLength(ps[0]), sum := m.sum + GroupValue(ps[0].group) * Weight(ps[0].scale))
    requires out == m.(pos := m.pos + AmountLength(ps), sum := m.sum + Value(ps))
    ensures ValidParts(ps[1..])
    ensures AmountLength(ps) == PartLength(ps[0]) + AmountLength(ps[1..])
    ensures |ps| == 1 ==> AmountLength(ps) == PartLength(ps[0])
    ensures out == m1.(pos := m1.pos + AmountLength(ps[1..]), sum := m1.sum + Value(ps[1..]))
    ensures |ps| == 1 ==> out == m1
  {
    PartsTail(ps);
    if |ps| == 1 {
      assert ps[1..] == [];
    }
    assert Value(ps) == GroupValue(ps[0].group) * Weight(ps[0].scale) + Value(ps[1..]);
  }

  /** The facts that carry the reading of an amount from its first part to the remaining ones. */
  lemma AmountFacts(m: Machine, ps: seq<Part>, v: Variant, st: State, out: Machine, m1: Machine, s1: State)
    requires AmountReady(m, ps, v, st, out) && |ps| > 1
    requires m1 == m.(pos := m.pos + PartLength(ps[0]), sum := m.sum + GroupValue(ps[0].group) * Weight(ps[0].scale))
    requires s1 == PartState(ps[1..][0])
    ensures AmountReady(m1, ps[1..], v, s1, out)
    ensures PartReady(m, ps[0], v, st, m1, s1)
  {
    PartsTail(ps);
    AmountSplit(m, ps, m1, out);
    AmountAtTail(m.items, m.pos, ps, m1.pos);
    AmountFirst(m.items, m1.pos, ps[1..]);
  }

  /** The facts for an amount of one part. */
  lemma LastPartFacts(m: Machine, ps: seq<Part>, v: Variant, st: State, out: Machine)
    requires AmountReady(m, ps, v, st, out) && |ps| == 1
    ensures PartReady(m, ps[0], v, st, out, Dollars)
  {
    var m1 := m.(pos := m.pos + PartLength(ps[0]), sum := m.sum + GroupValue(ps[0].group) * Weight(ps[0].scale));
    AmountSplit(m, ps, m1, out);
    AmountAtTail(m.items, m.pos, ps, m1.pos);
  }

  /** The parts of an amount followed by the dollars marker: the parts are summed, each group
      times its scale, and the run reaches the marker with nothing pending. */
  lemma {:induction false} AmountRun(m: Machine, ps: seq<Part>, v: Variant, st: State, out: Machine)
    requires AmountReady(m, ps, v, st, out)
    ensures SameEnd(m, st, out, Dollars, v)
    decreases |ps|
  {
    if |ps| == 1 {
      LastPartFacts(m, ps, v, st, out);
      PartRun(m, ps[0], v, st, out, Dollars);
    } else {
      var m1 := m.(pos := m.pos + PartLength(ps[0]), sum := m.sum + GroupValue(ps[0].group) * Weight(ps[0].scale));
      var s1 := PartState(ps[1..][0]);
      AmountFacts(m, ps, v, st, out, m1, s1);
      AmountRun(m1, ps[1..], v, s1, out);
      PartThen(m, ps[0], v, st, m1, s1, out, Dollars);
    }
  }
}
