/** General properties of the parser: what it does with input that holds no currency marker, that
    starts badly or that is empty, that the amount is never negative, and how normalisation and
    field splitting feed it. */
module Facts {
  import opened Lexicon
  import opened Normalize
  import opened Numerizer
  import opened Steps

  // ---------------------------------------------------------------------------------------------
  // Without a currency marker there is no amount.

  /** No item from `pos` on is a currency marker. */
  predicate NoMarkerFrom(items: seq<Item>, pos: nat)
  {
    forall k :: pos <= k < |items| ==> items[k].typ != DollarsItem && items[k].typ != CentsItem
  }

  /** Nothing has been paid: no marker lies ahead, both amounts are zero, and the machine is not in
      a marker state. */
  predicate Unpaid(m: Machine, st: State)
  {
    NoMarkerFrom(m.items, m.pos) && m.dollars == 0 && m.cents == 0 && !m.dollarsDone
    && st != Dollars && st != Cents
  }

  /** The next item, one or two places on, is not a marker. */
  lemma UnpaidAhead(m: Machine, st: State)
    requires Unpaid(m, st)
    ensures m.pos + 1 < |m.items| ==> m.items[m.pos + 1].typ != DollarsItem && m.items[m.pos + 1].typ != CentsItem
    ensures m.pos + 2 < |m.items| ==> m.items[m.pos + 2].typ != DollarsItem && m.items[m.pos + 2].typ != CentsItem
  {
  }

  lemma UnpaidStep(m: Machine, st: State, v: Variant)
    requires st != Halt && Unpaid(m, st)
    ensures Unpaid(Transition(m, st, v).0, Transition(m, st, v).1)
  {
    UnpaidAhead(m, st);
    match st
    case TenPrefix =>
      assert Unpaid(TenPrefixStep(m, v).0, TenPrefixStep(m, v).1);
    case Default =>
      assert Unpaid(DefaultStep(m).0, DefaultStep(m).1);
    case _ =>
  }

  lemma {:induction false} UnpaidRun(m: Machine, st: State, v: Variant)
    requires st != Halt ==> m.pos <= |m.items|
    requires Unpaid(m, st)
    ensures Run(m, st, v).dollars == 0 && Run(m, st, v).cents == 0
    decreases |m.items| + 1 - m.pos, Rank(st)
  {
    if st != Halt {
      var (m', st') := Transition(m, st, v);
      UnpaidStep(m, st, v);
      RunUnfold(m, st, v);
      UnpaidRun(m', st', v);
    }
  }

  /** A phrase with no dollars or cents marker yields no amount: either zero or an error. */
  lemma NoMarkerNoAmount(ws: seq<string>, v: Variant)
    requires forall w :: w in ws ==> NewItem(w).typ != DollarsItem && NewItem(w).typ != CentsItem
    ensures RunWords(ws, v).0 == 0
  {
    var items := Items(ws);
    ItemsIndex(ws);
    forall k | 0 <= k < |items|
      ensures items[k].typ != DollarsItem && items[k].typ != CentsItem
    {
      assert ws[k] in ws;
    }
    UnpaidRun(Initial(items), Start, v);
  }

  // ---------------------------------------------------------------------------------------------
  // The amount is never negative.

  /** Every item value is non-negative. */
  predicate ValuesNonNegative(items: seq<Item>)
  {
    forall k :: 0 <= k < |items| ==> items[k].val >= 0
  }

  /** Every accumulator is non-negative. */
  predicate NonNegative(m: Machine)
  {
    m.prev >= 0 && m.sum >= 0 && m.dollars >= 0 && m.cents >= 0
  }

  lemma MulNonNegative(a: int, b: int)
    requires a >= 0 && b >= 0
    ensures a * b >= 0
  {
  }

  lemma LookAtNonNegative(items: seq<Item>, pos: nat)
    requires ValuesNonNegative(items)
    ensures LookAt(items, pos).val >= 0
  {
  }

  lemma NonNegativeStep(m: Machine, st: State, v: Variant)
    requires NonNegative(m) && ValuesNonNegative(m.items)
    ensures NonNegative(Transition(m, st, v).0)
  {
    match st
    case TenPrefix => TenPrefixNonNegative(m, v);
    case Hundred => HundredNonNegative(m);
    case Large => LargeNonNegative(m);
    case Single => SingleNonNegative(m, v);
    case Direct => DirectNonNegative(m, v);
    case _ => OtherStepsNonNegative(m);
  }

  lemma SingleNonNegative(m: Machine, v: Variant)
    requires NonNegative(m) && ValuesNonNegative(m.items)
    ensures NonNegative(SingleStep(m, v).0)
  {
    LookAtNonNegative(m.items, m.pos);
    LookAtNonNegative(m.items, m.pos + 1);
  }

  lemma DirectNonNegative(m: Machine, v: Variant)
    requires NonNegative(m) && ValuesNonNegative(m.items)
    ensures NonNegative(DirectStep(m, v).0)
  {
    LookAtNonNegative(m.items, m.pos);
    LookAtNonNegative(m.items, m.pos + 1);
  }

  lemma OtherStepsNonNegative(m: Machine)
    requires NonNegative(m) && ValuesNonNegative(m.items)
    ensures NonNegative(StartStep(m).0) && NonNegative(ZeroStep(m).0)
    ensures NonNegative(DollarsStep(m).0) && NonNegative(CentsStep(m).0)
    ensures NonNegative(DefaultStep(m).0)
  {
    LookAtNonNegative(m.items, m.pos);
  }

  lemma HundredNonNegative(m: Machine)
    requires NonNegative(m) && ValuesNonNegative(m.items)
    ensures NonNegative(HundredStep(m).0)
  {
    LookAtNonNegative(m.items, m.pos);
    MulNonNegative(m.prev, LookAt(m.items, m.pos).val);
  }

  lemma LargeNonNegative(m: Machine)
    requires NonNegative(m) && ValuesNonNegative(m.items)
    ensures NonNegative(LargeStep(m).0)
  {
    LookAtNonNegative(m.items, m.pos);
    MulNonNegative(m.prev, LookAt(m.items, m.pos).val);
  }

  lemma TenPrefixNonNegative(m: Machine, v: Variant)
    requires NonNegative(m) && ValuesNonNegative(m.items)
    ensures NonNegative(TenPrefixStep(m, v).0)
  {
    var i := LookAt(m.items, m.pos);
    var next := LookAt(m.items, m.pos + 1);
    var ahead := LookAt(m.items, m.pos + 2);
    LookAtNonNegative(m.items, m.pos);
    LookAtNonNegative(m.items, m.pos + 1);
    LookAtNonNegative(m.items, m.pos + 2);
    MulNonNegative(m.prev + i.val + next.val, ahead.val);
  }

  lemma {:induction false} NonNegativeRun(m: Machine, st: State, v: Variant)
    requires st != Halt ==> m.pos <= |m.items|
    requires NonNegative(m) && ValuesNonNegative(m.items)
    ensures NonNegative(Run(m, st, v))
    decreases |m.items| + 1 - m.pos, Rank(st)
  {
    if st != Halt {
      var (m', st') := Transition(m, st, v);
      NonNegativeStep(m, st, v);
      RunUnfold(m, st, v);
      NonNegativeRun(m', st', v);
    }
  }

  /** The parse never yields a negative number of cents. */
  lemma AmountNonNegative(ws: seq<string>, v: Variant)
    ensures RunWords(ws, v).0 >= 0
  {
    var items := Items(ws);
    ItemsIndex(ws);
    NonNegativeRun(Initial(items), Start, v);
  }

  // ---------------------------------------------------------------------------------------------
  // Errors at the start.

  /** A phrase with no fields is rejected as an unexpected start with an empty key. */
  lemma EmptyInput(v: Variant)
    ensures RunWords([], v) == (0, Some(UnexpectedStart("")))
  {
    var m := Initial(Items([]));
    RunUnfold(m, Start, v);
  }

  /** A phrase whose first word is "hundred", a scale word or a currency marker is rejected, naming
      that word. */
  lemma BadStart(ws: seq<string>, v: Variant)
    requires |ws| > 0
    requires NewItem(ws[0]).typ in {HundredItem, LargeItem, DollarsItem, CentsItem}
    ensures RunWords(ws, v) == (0, Some(UnexpectedStart(ws[0])))
  {
    var items := Items(ws);
    ItemsIndex(ws);
    var m := Initial(items);
    RunUnfold(m, Start, v);
  }

  /** A phrase whose fields normalise to nothing is rejected as an unexpected start. */
  lemma NumerizeBlank(s: string)
    requires Fields(Preprocess(s)) == []
    ensures Numerize(s) == (0, Some(UnexpectedStart("")))
  {
    EmptyInput(AsWritten);
  }

  // ---------------------------------------------------------------------------------------------
  // Errors at the end.

  /** "hundred" as the last word is an error naming it as the word the end of input may not follow. */
  lemma DanglingHundred(m: Machine, v: Variant)
    requires m.pos + 1 == |m.items| && m.items[m.pos].typ == HundredItem
    ensures Transition(m, Hundred, v).1 == Halt
    ensures Transition(m, Hundred, v).0.err == Some(Unexpected("", m.items[m.pos].key))
  {
  }

  /** A scale word as the last word is an error naming it as the word the end of input may not follow. */
  lemma DanglingScale(m: Machine, v: Variant)
    requires m.pos + 1 == |m.items| && m.items[m.pos].typ == LargeItem
    ensures Transition(m, Large, v).1 == Halt
    ensures Transition(m, Large, v).0.err == Some(Unexpected("", m.items[m.pos].key))
  {
  }

  /** No item from `pos` on is a recognised word. */
  predicate UnknownFrom(items: seq<Item>, pos: nat)
  {
    forall k :: pos <= k < |items| ==> items[k].typ == DefaultItem
  }

  /** A run of unrecognised words before any marker skips them all and ends with no amount and no
      error. */
  lemma {:induction false} UnknownRun(m: Machine, v: Variant)
    requires m.pos < |m.items| && UnknownFrom(m.items, m.pos)
    requires m.err == None && !m.dollarsDone && m.dollars == 0 && m.cents == 0
    ensures var f := Run(m, Default, v); f.err == None && f.dollars == 0 && f.cents == 0
    decreases |m.items| - m.pos
  {
    RunUnfold(m, Default, v);
    if m.pos + 1 == |m.items| {
      DefaultAtEnd(m, v);
    } else {
      SkipWord(m, v);
      UnknownRun(m.(pos := m.pos + 1), v);
    }
  }

  /** A phrase of unrecognised words only ("and", say) yields no amount and no error. */
  lemma AllUnknown(ws: seq<string>, v: Variant)
    requires ws != [] && forall k :: 0 <= k < |ws| ==> NewItem(ws[k]).typ == DefaultItem
    ensures RunWords(ws, v) == (0, None)
  {
    ItemsIndex(ws);
    var m0 := Initial(Items(ws));
    StartOk(m0, v);
    RunUnfold(m0, Start, v);
    UnknownRun(m0, v);
  }

  // ---------------------------------------------------------------------------------------------
  // From the phrase to the words.

  /** No character of the words is rewritten by normalisation. */
  predicate CleanWords(ws: seq<string>)
  {
    forall k, j :: 0 <= k < |ws| && 0 <= j < |ws[k]| ==> !IsRewritten(ws[k][j])
  }

  lemma {:induction false} JoinClean(ws: seq<string>)
    requires CleanWords(ws)
    ensures forall j :: 0 <= j < |Join(ws)| ==> !IsRewritten(Join(ws)[j])
  {
    if |ws| > 1 {
      JoinClean(ws[1..]);
      var w, rest := ws[0], Join(ws[1..]);
      assert Join(ws) == w + " " + rest;
      forall j | 0 <= j < |Join(ws)|
        ensures !IsRewritten(Join(ws)[j])
      {
        if j < |w| {
          assert Join(ws)[j] == ws[0][j];
        } else if j > |w| {
          assert Join(ws)[j] == rest[j - |w| - 1];
        }
      }
    } else if |ws| == 1 {
      assert Join(ws) == ws[0];
      assert forall j :: 0 <= j < |ws[0]| ==> !IsRewritten(ws[0][j]);
    }
  }

  /** Words that normalisation leaves alone, joined by single spaces, are parsed word by word. */
  lemma NumerizeJoin(ws: seq<string>)
    requires forall k :: 0 <= k < |ws| ==> IsWord(ws[k])
    requires CleanWords(ws)
    ensures Numerize(Join(ws)) == ParseWords(ws)
  {
    JoinClean(ws);
    PreprocessUnchanged(Join(ws));
    FieldsJoin(ws);
  }

  lemma SingleCharacters()
    ensures Preprocess("-") == " " && Preprocess(" ") == " "
    ensures Preprocess(",") == [] && Preprocess(".") == []
  {
    assert ToLower("-") == "-" && ToLower(" ") == " " && ToLower(",") == "," && ToLower(".") == ".";
    assert RemoveAll(",", ',') == [] && RemoveAll(".", ',') == "." && RemoveAll(".", '.') == [];
  }

  /** A hyphen parses as a space. */
  lemma HyphenIsSpace(a: string, b: string)
    ensures Numerize(a + "-" + b) == Numerize(a + " " + b)
  {
    SingleCharacters();
    PreprocessAppend(a + "-", b);
    PreprocessAppend(a, "-");
    PreprocessAppend(a + " ", b);
    PreprocessAppend(a, " ");
  }

  /** A comma or a period is ignored. */
  lemma PunctuationIgnored(a: string, b: string, c: char)
    requires c == ',' || c == '.'
    ensures Numerize(a + [c] + b) == Numerize(a + b)
  {
    SingleCharacters();
    PreprocessAppend(a + [c], b);
    PreprocessAppend(a, [c]);
    PreprocessAppend(a, b);
    assert Preprocess(a) + [] == Preprocess(a);
  }
}
