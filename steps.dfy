/** What each parse state does with the tokens the spelled-out amounts put in front of it, one state
    at a time, and how a run advances by one state. */
module Steps {
  import opened Lexicon
  import opened Numerizer

  /** The state a dispatch chooses for the next token, as every state's lookahead does. */
  function Dispatch(t: ItemType): State
  {
    match t
    case ZeroItem => Zero
    case SingleItem => Single
    case DirectItem => Direct
    case TenPrefixItem => TenPrefix
    case HundredItem => Hundred
    case LargeItem => Large
    case DollarsItem => Dollars
    case CentsItem => Cents
    case DefaultItem => Default
    case _ => Halt
  }

  /** The run from `m` in state `st` ends at `f`. */
  predicate EndsAt(m: Machine, st: State, v: Variant, f: Machine)
  {
    (st != Halt ==> m.pos <= |m.items|) && Run(m, st, v) == f
  }

  /** Running from `a` in state `sa` ends exactly where running from `b` in state `sb` ends. */
  ghost predicate SameEnd(a: Machine, sa: State, b: Machine, sb: State, v: Variant)
  {
    forall f :: EndsAt(a, sa, v, f) <==> EndsAt(b, sb, v, f)
  }

  lemma SameEndTrans(a: Machine, sa: State, b: Machine, sb: State, c: Machine, sc: State, v: Variant)
    requires SameEnd(a, sa, b, sb, v) && SameEnd(b, sb, c, sc, v)
    ensures SameEnd(a, sa, c, sc, v)
  {
  }

  /** A run that ends alike with a halted machine ends at that machine. */
  lemma SameEndHalt(a: Machine, sa: State, b: Machine, v: Variant)
    requires SameEnd(a, sa, b, Halt, v)
    ensures sa != Halt ==> a.pos <= |a.items|
    ensures Run(a, sa, v) == b
  {
    assert EndsAt(b, Halt, v, b);
  }

  /** A run that is not halted is its first state followed by the run from where that state leaves it. */
  lemma RunStep(m: Machine, st: State, v: Variant, m': Machine, st': State)
    requires st != Halt && m.pos <= |m.items|
    requires Transition(m, st, v) == (m', st')
    ensures SameEnd(m, st, m', st', v)
  {
    RunUnfold(m, st, v);
    forall f
      ensures EndsAt(m, st, v, f) <==> EndsAt(m', st', v, f)
    {
    }
  }

  /** Entering a currency marker forgets the pending group. */
  lemma MarkerIgnoresPrev(m: Machine, st: State, v: Variant, m': Machine)
    requires st == Dollars || st == Cents
    requires m.pos <= |m.items|
    requires m' == m.(prev := 0)
    ensures SameEnd(m, st, m', st, v)
  {
    RunUnfold(m, st, v);
    RunUnfold(m', st, v);
    if st == Dollars {
      assert DollarsStep(m) == DollarsStep(m');
    } else {
      assert CentsStep(m) == CentsStep(m');
    }
    forall f
      ensures EndsAt(m, st, v, f) <==> EndsAt(m', st, v, f)
    {
    }
  }

  /** The start dispatch hands a token that can begin a number to its state and consumes nothing. */
  lemma StartOk(m: Machine, v: Variant)
    requires m.pos < |m.items|
    requires m.items[m.pos].typ in {ZeroItem, SingleItem, DirectItem, TenPrefixItem, DefaultItem}
    ensures Transition(m, Start, v) == (m, Dispatch(m.items[m.pos].typ))
  {
  }

  /** "zero" before a currency marker hands it on. */
  lemma ZeroThen(m: Machine, v: Variant)
    requires m.pos + 1 < |m.items|
    requires m.items[m.pos].typ == ZeroItem && m.items[m.pos + 1].typ in {DollarsItem, CentsItem}
    ensures Transition(m, Zero, v) == (m.(pos := m.pos + 1), Dispatch(m.items[m.pos + 1].typ))
  {
  }

  /** A unit, teen or tens word before a scale word becomes the pending group (as written), or is
      added to it (corrected). */
  lemma WordBeforeScale(m: Machine, st: State, v: Variant)
    requires m.pos + 1 < |m.items|
    requires st == Dispatch(m.items[m.pos].typ) && st in {Single, Direct, TenPrefix}
    requires m.items[m.pos + 1].typ == LargeItem
    ensures Transition(m, st, v) == (m.(pos := m.pos + 1, prev := Pending(m.prev, m.items[m.pos].val, v)), Large)
  {
  }

  /** A unit, teen or tens word before a currency marker is added, with the pending group, to the sum. */
  lemma WordBeforeMarker(m: Machine, st: State, v: Variant)
    requires m.pos + 1 < |m.items|
    requires st == Dispatch(m.items[m.pos].typ) && st in {Single, Direct, TenPrefix}
    requires m.items[m.pos + 1].typ in {DollarsItem, CentsItem}
    ensures Transition(m, st, v)
      == (m.(pos := m.pos + 1, sum := m.sum + m.prev + m.items[m.pos].val), Dispatch(m.items[m.pos + 1].typ))
  {
  }

  /** A tens word and a unit before a scale word are both consumed and added to the pending group. */
  lemma CompoundBeforeScale(m: Machine, v: Variant)
    requires m.pos + 2 < |m.items|
    requires m.items[m.pos].typ == TenPrefixItem && m.items[m.pos + 1].typ == SingleItem
    requires m.items[m.pos + 2].typ == LargeItem
    ensures Transition(m, TenPrefix, v)
      == (m.(pos := m.pos + 2, prev := m.prev + m.items[m.pos].val + m.items[m.pos + 1].val), Large)
  {
  }

  /** A tens word and a unit before a currency marker are added, with the pending group, to the sum. */
  lemma CompoundBeforeMarker(m: Machine, v: Variant)
    requires m.pos + 2 < |m.items|
    requires m.items[m.pos].typ == TenPrefixItem && m.items[m.pos + 1].typ == SingleItem
    requires m.items[m.pos + 2].typ in {DollarsItem, CentsItem}
    ensures var p := m.prev + m.items[m.pos].val + m.items[m.pos + 1].val;
      Transition(m, TenPrefix, v) == (m.(pos := m.pos + 2, prev := p, sum := m.sum + p), Dispatch(m.items[m.pos + 2].typ))
  {
  }

  /** A unit before "hundred" closes the pending group into the sum and becomes the new pending group. */
  lemma UnitBeforeHundred(m: Machine, v: Variant)
    requires m.pos + 1 < |m.items|
    requires m.items[m.pos].typ == SingleItem && m.items[m.pos + 1].typ == HundredItem
    ensures Transition(m, Single, v)
      == (m.(pos := m.pos + 1, sum := m.sum + m.prev, prev := m.items[m.pos].val), Hundred)
  {
  }

  /** "hundred" multiplies the pending group and hands the next token on. */
  lemma HundredThen(m: Machine, v: Variant)
    requires m.pos + 1 < |m.items|
    requires m.items[m.pos].typ == HundredItem
    requires m.items[m.pos + 1].typ in {SingleItem, DirectItem, TenPrefixItem, LargeItem, DefaultItem}
    ensures Transition(m, Hundred, v)
      == (m.(pos := m.pos + 1, prev := m.prev * m.items[m.pos].val), Dispatch(m.items[m.pos + 1].typ))
  {
  }

  /** "hundred" before the dollars marker multiplies the pending group and adds it to the sum. */
  lemma HundredBeforeDollars(m: Machine, v: Variant)
    requires m.pos + 1 < |m.items|
    requires m.items[m.pos].typ == HundredItem && m.items[m.pos + 1].typ == DollarsItem
    ensures var p := m.prev * m.items[m.pos].val;
      Transition(m, Hundred, v) == (m.(pos := m.pos + 1, prev := p, sum := m.sum + p), Dollars)
  {
  }

  /** A scale word multiplies the pending group into the sum and hands the next token on. */
  lemma ScaleThen(m: Machine, v: Variant)
    requires m.pos + 1 < |m.items|
    requires m.items[m.pos].typ == LargeItem
    requires m.items[m.pos + 1].typ in {SingleItem, DirectItem, TenPrefixItem, DollarsItem, DefaultItem}
    ensures Transition(m, Large, v)
      == (m.(pos := m.pos + 1, sum := m.sum + m.prev * m.items[m.pos].val, prev := 0), Dispatch(m.items[m.pos + 1].typ))
  {
  }

  /** A skipped word changes nothing and hands the next token on. */
  lemma SkipWord(m: Machine, v: Variant)
    requires m.pos + 1 < |m.items|
    requires m.items[m.pos].typ == DefaultItem
    requires m.items[m.pos + 1].typ !in {ErrorItem, EOL, LargeItem}
    ensures Transition(m, Default, v) == (m.(pos := m.pos + 1), Dispatch(m.items[m.pos + 1].typ))
  {
  }

  /** The dollars marker freezes the sum as the dollar amount and hands the next token on. */
  lemma DollarsThen(m: Machine, v: Variant)
    requires m.pos < |m.items|
    requires m.items[m.pos].typ == DollarsItem
    requires m.pos + 1 < |m.items| ==> m.items[m.pos + 1].typ in {SingleItem, DirectItem, TenPrefixItem, DefaultItem}
    ensures Transition(m, Dollars, v)
      == (m.(dollarsDone := true, dollars := m.sum, sum := 0, prev := 0, pos := m.pos + 1),
          if m.pos + 1 < |m.items| then Dispatch(m.items[m.pos + 1].typ) else Halt)
  {
  }

  /** The cents marker freezes the sum as the cent amount and halts. */
  lemma CentsHalts(m: Machine, v: Variant)
    ensures Transition(m, Cents, v) == (m.(cents := m.sum, sum := 0, prev := 0), Halt)
  {
  }

  /** "zero" as the last word halts without touching the accumulators. */
  lemma ZeroAtEnd(m: Machine, v: Variant)
    requires m.pos + 1 == |m.items|
    ensures Transition(m, Zero, v) == (m.(pos := m.pos + 1), Halt)
  {
  }

  /** A unit as the last word halts without adding it, or the pending group, to the sum. */
  lemma UnitAtEnd(m: Machine, v: Variant)
    requires m.pos + 1 == |m.items|
    ensures Transition(m, Single, v) == (m.(pos := m.pos + 1), Halt)
  {
  }

  /** A unit, teen or tens word before an unrecognised word is passed over: neither it nor the
      pending group reaches the sum. */
  lemma WordBeforeUnknown(m: Machine, st: State, v: Variant)
    requires m.pos + 1 < |m.items|
    requires st == Dispatch(m.items[m.pos].typ) && st in {Single, Direct, TenPrefix}
    requires m.items[m.pos + 1].typ == DefaultItem
    ensures Transition(m, st, v) == (m.(pos := m.pos + 1), Default)
  {
  }

  /** A teen before "hundred" replaces the pending group and is handed to the scale-word state, which
      then multiplies it by one hundred into the sum. */
  lemma TeenBeforeHundred(m: Machine, v: Variant)
    requires m.pos + 1 < |m.items|
    requires m.items[m.pos].typ == DirectItem && m.items[m.pos + 1].typ == HundredItem
    ensures Transition(m, Direct, v) == (m.(pos := m.pos + 1, prev := m.items[m.pos].val), Large)
  {
  }

  /** A tens word and a unit before "hundred" are added to the pending group, which is multiplied by
      one hundred into the sum; "hundred" is then handled by its own state. */
  lemma CompoundBeforeHundred(m: Machine, v: Variant)
    requires m.pos + 2 < |m.items|
    requires m.items[m.pos].typ == TenPrefixItem && m.items[m.pos + 1].typ == SingleItem
    requires m.items[m.pos + 2].typ == HundredItem
    ensures var p := m.prev + m.items[m.pos].val + m.items[m.pos + 1].val;
      Transition(m, TenPrefix, v) == (m.(pos := m.pos + 2, sum := m.sum + p * m.items[m.pos + 2].val, prev := 0), Hundred)
  {
  }

  /** A tens word and a unit before an unrecognised word are added, with the pending group, to the sum. */
  lemma CompoundBeforeUnknown(m: Machine, v: Variant)
    requires m.pos + 2 < |m.items|
    requires m.items[m.pos].typ == TenPrefixItem && m.items[m.pos + 1].typ == SingleItem
    requires m.items[m.pos + 2].typ == DefaultItem
    ensures var p := m.prev + m.items[m.pos].val + m.items[m.pos + 1].val;
      Transition(m, TenPrefix, v) == (m.(pos := m.pos + 2, prev := p, sum := m.sum + p), Default)
  {
  }

  /** After a tens word and a unit, any other token (the end of input included) is handed to the unit
      state, with both words added to the pending group and nothing added to the sum. */
  lemma CompoundFallThrough(m: Machine, v: Variant)
    requires m.pos + 1 < |m.items|
    requires m.items[m.pos].typ == TenPrefixItem && m.items[m.pos + 1].typ == SingleItem
    requires LookAt(m.items, m.pos + 2).typ !in {HundredItem, LargeItem, DollarsItem, CentsItem, DefaultItem}
    ensures Transition(m, TenPrefix, v)
      == (m.(pos := m.pos + 2, prev := m.prev + m.items[m.pos].val + m.items[m.pos + 1].val), Single)
  {
  }

  /** An unrecognised word as the last word halts; after a dollars marker the running sum becomes
      the cents, otherwise nothing changes. */
  lemma DefaultAtEnd(m: Machine, v: Variant)
    requires m.pos + 1 == |m.items|
    ensures m.dollarsDone ==> Transition(m, Default, v) == (m.(pos := m.pos + 1, cents := m.sum), Halt)
    ensures !m.dollarsDone ==> Transition(m, Default, v) == (m.(pos := m.pos + 1), Halt)
  {
  }

  /** The tokens each state that consumes a word accepts after it. */
  function Allowed(st: State): set<ItemType>
  {
    match st
    case Zero => {DollarsItem, CentsItem, EOL}
    case Single => {HundredItem, LargeItem, DollarsItem, CentsItem, DefaultItem, EOL}
    case Direct => {HundredItem, LargeItem, DollarsItem, CentsItem, DefaultItem}
    case TenPrefix => {SingleItem, LargeItem, DefaultItem, DollarsItem, CentsItem}
    case Hundred => {SingleItem, DirectItem, TenPrefixItem, LargeItem, DollarsItem, DefaultItem}
    case Large => {SingleItem, DirectItem, TenPrefixItem, DollarsItem, DefaultItem}
    case Dollars => {SingleItem, DirectItem, TenPrefixItem, DefaultItem, EOL}
    case Default => {ZeroItem, SingleItem, DirectItem, TenPrefixItem, HundredItem, DefaultItem, DollarsItem, CentsItem, EOL}
    case _ => {}
  }

  /** A state that consumes a word records an error, naming the next token and the word it follows,
      and halts exactly when the next token is not one it accepts; otherwise it leaves the error alone. */
  lemma ErrorExit(m: Machine, st: State, v: Variant)
    requires m.pos < |m.items|
    requires st in {Zero, Single, Direct, TenPrefix, Hundred, Large, Dollars, Default}
    ensures var next := LookAt(m.items, m.pos + 1);
      next.typ !in Allowed(st) ==>
        Transition(m, st, v).1 == Halt && Transition(m, st, v).0.err == Some(ErrorFor(next, m.items[m.pos]))
    ensures LookAt(m.items, m.pos + 1).typ in Allowed(st) ==> Transition(m, st, v).0.err == m.err
  {
  }
}
