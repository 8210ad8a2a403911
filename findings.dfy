/** The one place where the parser as written disagrees with the amounts it is meant to read: a unit,
    teen or tens word that stands between "hundred" and a scale word replaces the pending group
    instead of being added to it, so the hundreds are lost. */
module Findings {
  import opened Lexicon
  import opened Numerizer
  import opened Spelling
  import opened Steps
  import opened Amounts

  /** The token pattern of "a hundred b <scale> dollars". */
  predicate HundredsThenScale(items: seq<Item>)
  {
    |items| == 5 && items[0].typ == SingleItem && items[1].typ == HundredItem
    && items[2].typ == SingleItem && items[3].typ == LargeItem && items[4].typ == DollarsItem
  }

  /** On "a hundred b <scale> dollars" the dollar amount is the pending group after b, times the
      scale: b alone as written, a hundred plus b when corrected. */
  lemma {:induction false} HundredsThenScaleRun(items: seq<Item>, v: Variant)
    requires HundredsThenScale(items)
    ensures var f := Run(Initial(items), Start, v);
      f.err == None && f.cents == 0
      && f.dollars == Pending(items[0].val * items[1].val, items[2].val, v) * items[3].val
  {
    var p := Pending(items[0].val * items[1].val, items[2].val, v);
    var m0 := Initial(items);
    var m1 := m0.(pos := 1, sum := 0, prev := items[0].val);
    var m2 := m1.(pos := 2, prev := items[0].val * items[1].val);
    var m3 := m2.(pos := 3, prev := p);
    var m4 := m3.(pos := 4, sum := p * items[3].val, prev := 0);
    var m5 := m4.(dollarsDone := true, dollars := p * items[3].val, sum := 0, prev := 0, pos := 5);
    StartOk(m0, v);
    UnitBeforeHundred(m0, v);
    HundredThen(m1, v);
    WordBeforeScale(m2, Single, v);
    ScaleThen(m3, v);
    DollarsThen(m4, v);
    RunUnfold(m0, Start, v);
    RunUnfold(m0, Single, v);
    RunUnfold(m1, Hundred, v);
    RunUnfold(m2, Single, v);
    RunUnfold(m3, Large, v);
    RunUnfold(m4, Dollars, v);
  }

  /** The words of the counterexample classify to the pattern above. */
  lemma ThreeHundredOneThousandItems(ws: seq<string>)
    requires ws == ["three", "hundred", "one", "thousand", "dollars"]
    ensures HundredsThenScale(Items(ws))
    ensures Items(ws)[0].val == 3 && Items(ws)[1].val == 100 && Items(ws)[2].val == 1 && Items(ws)[3].val == 1000
  {
    ItemsIndex(ws);
    UnitWords(3);
    UnitWords(1);
    ScaleWordItems(1);
    OtherWords();
    DollarMarkers();
  }

  /** As written, "three hundred one thousand dollars" reads as one thousand dollars. */
  lemma ThreeHundredOneThousandAsWritten(ws: seq<string>)
    requires ws == ["three", "hundred", "one", "thousand", "dollars"]
    ensures ParseWords(ws) == (100000, None)
  {
    ThreeHundredOneThousandItems(ws);
    HundredsThenScaleRun(Items(ws), AsWritten);
    RunWordsDollars(ws, AsWritten, 1000);
  }

  /** Corrected, "three hundred one thousand dollars" reads as three hundred and one thousand
      dollars. */
  lemma ThreeHundredOneThousandCorrected(ws: seq<string>)
    requires ws == ["three", "hundred", "one", "thousand", "dollars"]
    ensures RunWords(ws, KeepPending) == (30100000, None)
  {
    ThreeHundredOneThousandItems(ws);
    HundredsThenScaleRun(Items(ws), KeepPending);
    RunWordsDollars(ws, KeepPending, 301000);
  }
}
