/** The parser on the phrases of its own test table: each lemma states the number of cents one
    phrase parses to. Most are instances of the round-trip theorems; the phrases those do not cover
    ("seventeen hundred", "forty five hundred", the dangling and unmarked phrases) are run state by
    state. */
module Examples {
  import opened Lexicon
  import opened Normalize
  import opened Numerizer
  import opened Spelling
  import opened Steps
  import opened Amounts
  import opened Facts

  // ---------------------------------------------------------------------------------------------
  // Amounts of one, two or three parts.

  /** A part the parser as written reads correctly. */
  predicate Readable(p: Part)
  {
    ValidGroup(p.group) && p.scale <= 3 && (p.scale > 0 ==> ScaleSafe(p.group))
  }

  function PartValue(p: Part): nat
    requires ValidGroup(p.group) && p.scale <= 3
  {
    GroupValue(p.group) * Weight(p.scale)
  }

  /** Putting a readable part in front of smaller-scale parts. */
  lemma ConsPart(a: Part, ps: seq<Part>)
    requires Readable(a) && ValidParts(ps) && AllScaleSafe(ps) && (ps != [] ==> ps[0].scale < a.scale)
    ensures ValidParts([a] + ps) && AllScaleSafe([a] + ps)
    ensures Words([a] + ps) == PartWords(a) + Words(ps) && Value([a] + ps) == PartValue(a) + Value(ps)
  {
    assert ([a] + ps)[1..] == ps;
    forall k | 1 <= k < |ps| + 1
      ensures ([a] + ps)[k] == ps[k - 1]
    {
    }
  }

  lemma OnePart(a: Part)
    requires Readable(a) && !a.ligature
    ensures ValidAmount([a]) && AllScaleSafe([a])
    ensures Words([a]) == PartWords(a) && Value([a]) == PartValue(a)
  {
    ConsPart(a, []);
    assert [a] + [] == [a];
  }

  /** Two readable parts of decreasing scale. */
  lemma PairParts(a: Part, b: Part)
    requires Readable(a) && Readable(b) && b.scale < a.scale
    ensures ValidParts([a, b]) && AllScaleSafe([a, b])
    ensures Words([a, b]) == PartWords(a) + PartWords(b) && Value([a, b]) == PartValue(a) + PartValue(b)
  {
    ConsPart(b, []);
    assert [b] + [] == [b];
    ConsPart(a, [b]);
    assert [a] + [b] == [a, b];
  }

  lemma TwoParts(a: Part, b: Part)
    requires Readable(a) && Readable(b) && !a.ligature && b.scale < a.scale
    ensures ValidAmount([a, b]) && AllScaleSafe([a, b])
    ensures Words([a, b]) == PartWords(a) + PartWords(b) && Value([a, b]) == PartValue(a) + PartValue(b)
  {
    PairParts(a, b);
  }

  lemma ThreeParts(a: Part, b: Part, c: Part)
    requires Readable(a) && Readable(b) && Readable(c) && !a.ligature && c.scale < b.scale < a.scale
    ensures ValidAmount([a, b, c]) && AllScaleSafe([a, b, c])
    ensures Words([a, b, c]) == PartWords(a) + PartWords(b) + PartWords(c)
    ensures Value([a, b, c]) == PartValue(a) + PartValue(b) + PartValue(c)
  {
    PairParts(b, c);
    ConsPart(a, [b, c]);
    assert [a] + [b, c] == [a, b, c];
  }

  lemma OnePartDollars(ws: seq<string>, a: Part, d: string, want: int)
    requires Readable(a) && !a.ligature && (d == "dollar" || d == "dollars")
    requires ws == PartWords(a) + [d] && want == 100 * PartValue(a)
    ensures ParseWords(ws) == (want, None)
  {
    OnePart(a);
    DollarMarkers();
    DollarsEnd([a], d, AsWritten, ws);
    RunWordsOk(ws, AsWritten, Value([a]), 0, want);
  }

  lemma TwoPartsDollars(ws: seq<string>, a: Part, b: Part, want: int)
    requires Readable(a) && Readable(b) && !a.ligature && b.scale < a.scale
    requires ws == PartWords(a) + PartWords(b) + ["dollars"] && want == 100 * (PartValue(a) + PartValue(b))
    ensures ParseWords(ws) == (want, None)
  {
    TwoParts(a, b);
    DollarMarkers();
    DollarsEnd([a, b], "dollars", AsWritten, ws);
    RunWordsOk(ws, AsWritten, Value([a, b]), 0, want);
  }

  lemma ThreePartsDollars(ws: seq<string>, a: Part, b: Part, c: Part, want: int)
    requires Readable(a) && Readable(b) && Readable(c) && !a.ligature && c.scale < b.scale < a.scale
    requires ws == PartWords(a) + PartWords(b) + PartWords(c) + ["dollars"]
    requires want == 100 * (PartValue(a) + PartValue(b) + PartValue(c))
    ensures ParseWords(ws) == (want, None)
  {
    ThreeParts(a, b, c);
    DollarMarkers();
    DollarsEnd([a, b, c], "dollars", AsWritten, ws);
    RunWordsOk(ws, AsWritten, Value([a, b, c]), 0, want);
  }

  lemma OnePartAndCents(ws: seq<string>, a: Part, and: bool, c: nat, cw: string, want: int)
    requires Readable(a) && !a.ligature && 1 <= c <= 99 && (cw == "cent" || cw == "cents")
    requires ws == PartWords(a) + ["dollars"] + CentsWords(and, c, cw) && want == 100 * PartValue(a) + c
    ensures ParseWords(ws) == (want, None)
  {
    OnePart(a);
    DollarMarkers();
    CentMarkers();
    DollarsAndCentsTotal([a], "dollars", and, c, cw, AsWritten, ws, want);
  }

  lemma TwoPartsAndCents(ws: seq<string>, a: Part, b: Part, and: bool, c: nat, cw: string, want: int)
    requires Readable(a) && Readable(b) && !a.ligature && b.scale < a.scale
    requires 1 <= c <= 99 && (cw == "cent" || cw == "cents")
    requires ws == PartWords(a) + PartWords(b) + ["dollars"] + CentsWords(and, c, cw)
    requires want == 100 * (PartValue(a) + PartValue(b)) + c
    ensures ParseWords(ws) == (want, None)
  {
    TwoParts(a, b);
    DollarMarkers();
    CentMarkers();
    DollarsAndCentsTotal([a, b], "dollars", and, c, cw, AsWritten, ws, want);
  }

  lemma ThreePartsAndCents(ws: seq<string>, a: Part, b: Part, p: Part, and: bool, c: nat, cw: string, want: int)
    requires Readable(a) && Readable(b) && Readable(p) && !a.ligature && p.scale < b.scale < a.scale
    requires 1 <= c <= 99 && (cw == "cent" || cw == "cents")
    requires ws == PartWords(a) + PartWords(b) + PartWords(p) + ["dollars"] + CentsWords(and, c, cw)
    requires want == 100 * (PartValue(a) + PartValue(b) + PartValue(p)) + c
    ensures ParseWords(ws) == (want, None)
  {
    ThreeParts(a, b, p);
    DollarMarkers();
    CentMarkers();
    DollarsAndCentsTotal([a, b, p], "dollars", and, c, cw, AsWritten, ws, want);
  }

  // ---------------------------------------------------------------------------------------------
  // Rows of the test table that are spelled-out amounts.

  /** "zero dollars and thirty four cents" is 34 cents. */
  lemma ZeroDollarsAndThirtyFourCents(ws: seq<string>)
    requires ws == ["zero", "dollars"] + ["and", "thirty", "four", "cents"]
    ensures ParseWords(ws) == (34, None)
  {
    DollarMarkers();
    CentMarkers();
    ZeroAndCentsEnd("dollars", true, 34, "cents", AsWritten, ws);
    RunWordsOk(ws, AsWritten, 0, 34, 34);
  }

  /** "zero dollars" is no cents. */
  lemma ZeroDollars(ws: seq<string>)
    requires ws == ["zero", "dollars"]
    ensures ParseWords(ws) == (0, None)
  {
    DollarMarkers();
    ZeroEnd("dollars", AsWritten, ws);
    RunWordsOk(ws, AsWritten, 0, 0, 0);
  }

  /** "one dollar" is 100 cents. */
  lemma OneDollar(ws: seq<string>)
    requires ws == ["one"] + ["dollar"]
    ensures ParseWords(ws) == (100, None)
  {
    OnePartDollars(ws, Part(false, Group(0, false, 1), 0), "dollar", 100);
  }

  /** "eleven dollars" is 1100 cents. */
  lemma ElevenDollars(ws: seq<string>)
    requires ws == ["eleven"] + ["dollars"]
    ensures ParseWords(ws) == (1100, None)
  {
    OnePartDollars(ws, Part(false, Group(0, false, 11), 0), "dollars", 1100);
  }

  /** "sixty dollars" is 6000 cents. */
  lemma SixtyDollars(ws: seq<string>)
    requires ws == ["sixty"] + ["dollars"]
    ensures ParseWords(ws) == (6000, None)
  {
    OnePartDollars(ws, Part(false, Group(0, false, 60), 0), "dollars", 6000);
  }

  /** "one hundred dollars" is 10000 cents. */
  lemma OneHundredDollars(ws: seq<string>)
    requires ws == ["one", "hundred"] + ["dollars"]
    ensures ParseWords(ws) == (10000, None)
  {
    OnePartDollars(ws, Part(false, Group(1, false, 0), 0), "dollars", 10000);
  }

  /** "four million dollars" is 400000000 cents. */
  lemma FourMillionDollars(ws: seq<string>)
    requires ws == ["four", "million"] + ["dollars"]
    ensures ParseWords(ws) == (400000000, None)
  {
    OnePartDollars(ws, Part(false, Group(0, false, 4), 2), "dollars", 400000000);
  }

  /** "five billion dollars" is 500000000000 cents. */
  lemma FiveBillionDollars(ws: seq<string>)
    requires ws == ["five", "billion"] + ["dollars"]
    ensures ParseWords(ws) == (500000000000, None)
  {
    OnePartDollars(ws, Part(false, Group(0, false, 5), 3), "dollars", 500000000000);
  }

  /** "two hundred four dollars" is 20400 cents. */
  lemma TwoHundredFourDollars(ws: seq<string>)
    requires ws == ["two", "hundred", "four"] + ["dollars"]
    ensures ParseWords(ws) == (20400, None)
  {
    OnePartDollars(ws, Part(false, Group(2, false, 4), 0), "dollars", 20400);
  }

  /** "two hundred four dollars and eighteen cents" is 20418 cents. */
  lemma TwoHundredFourDollarsAndCents(ws: seq<string>)
    requires ws == ["two", "hundred", "four"] + ["dollars"] + ["and", "eighteen", "cents"]
    ensures ParseWords(ws) == (20418, None)
  {
    OnePartAndCents(ws, Part(false, Group(2, false, 4), 0), true, 18, "cents", 20418);
  }

  /** "two hundred and four dollars" is 20400 cents. */
  lemma TwoHundredAndFourDollars(ws: seq<string>)
    requires ws == ["two", "hundred", "and", "four"] + ["dollars"]
    ensures ParseWords(ws) == (20400, None)
  {
    OnePartDollars(ws, Part(false, Group(2, true, 4), 0), "dollars", 20400);
  }

  /** "three thousand four dollars" is 300400 cents. */
  lemma ThreeThousandFourDollars(ws: seq<string>)
    requires ws == ["three", "thousand"] + ["four"] + ["dollars"]
    ensures ParseWords(ws) == (300400, None)
  {
    TwoPartsDollars(ws, Part(false, Group(0, false, 3), 1), Part(false, Group(0, false, 4), 0), 300400);
  }

  /** "three thousand and four dollars" is 300400 cents. */
  lemma ThreeThousandAndFourDollars(ws: seq<string>)
    requires ws == ["three", "thousand"] + ["and", "four"] + ["dollars"]
    ensures ParseWords(ws) == (300400, None)
  {
    TwoPartsDollars(ws, Part(false, Group(0, false, 3), 1), Part(true, Group(0, false, 4), 0), 300400);
  }

  /** "three thousand and sixteen dollars" is 301600 cents. */
  lemma ThreeThousandAndSixteenDollars(ws: seq<string>)
    requires ws == ["three", "thousand"] + ["and", "sixteen"] + ["dollars"]
    ensures ParseWords(ws) == (301600, None)
  {
    TwoPartsDollars(ws, Part(false, Group(0, false, 3), 1), Part(true, Group(0, false, 16), 0), 301600);
  }

  /** "three thousand and thirty dollars" is 303000 cents. */
  lemma ThreeThousandAndThirtyDollars(ws: seq<string>)
    requires ws == ["three", "thousand"] + ["and", "thirty"] + ["dollars"]
    ensures ParseWords(ws) == (303000, None)
  {
    TwoPartsDollars(ws, Part(false, Group(0, false, 3), 1), Part(true, Group(0, false, 30), 0), 303000);
  }

  /** "three thousand thirty three dollars and twenty cents" is 303320 cents. */
  lemma ThreeThousandThirtyThreeDollarsAndCents(ws: seq<string>)
    requires ws == ["three", "thousand"] + ["thirty", "three"] + ["dollars"] + ["and", "twenty", "cents"]
    ensures ParseWords(ws) == (303320, None)
  {
    TwoPartsAndCents(ws, Part(false, Group(0, false, 3), 1), Part(false, Group(0, false, 33), 0), true, 20, "cents", 303320);
  }

  /** "three thousand and four hundred dollars" is 340000 cents. */
  lemma ThreeThousandAndFourHundredDollars(ws: seq<string>)
    requires ws == ["three", "thousand"] + ["and", "four", "hundred"] + ["dollars"]
    ensures ParseWords(ws) == (340000, None)
  {
    TwoPartsDollars(ws, Part(false, Group(0, false, 3), 1), Part(true, Group(4, false, 0), 0), 340000);
  }

  /** "three thousand five hundred and one dollars" is 350100 cents. */
  lemma ThreeThousandFiveHundredAndOneDollars(ws: seq<string>)
    requires ws == ["three", "thousand"] + ["five", "hundred", "and", "one"] + ["dollars"]
    ensures ParseWords(ws) == (350100, None)
  {
    TwoPartsDollars(ws, Part(false, Group(0, false, 3), 1), Part(false, Group(5, true, 1), 0), 350100);
  }

  /** "three thousand six hundred twelve dollars and sixty one cents" is 361261 cents. */
  lemma ThreeThousandSixHundredTwelveDollarsAndCents(ws: seq<string>)
    requires ws == ["three", "thousand"] + ["six", "hundred", "twelve"] + ["dollars"]
                 + ["and", "sixty", "one", "cents"]
    ensures ParseWords(ws) == (361261, None)
  {
    TwoPartsAndCents(ws, Part(false, Group(0, false, 3), 1), Part(false, Group(6, false, 12), 0), true, 61, "cents", 361261);
  }

  /** "three thousand six hundred and eighty four dollars" is 368400 cents. */
  lemma ThreeThousandSixHundredAndEightyFourDollars(ws: seq<string>)
    requires ws == ["three", "thousand"] + ["six", "hundred", "and", "eighty", "four"] + ["dollars"]
    ensures ParseWords(ws) == (368400, None)
  {
    TwoPartsDollars(ws, Part(false, Group(0, false, 3), 1), Part(false, Group(6, true, 84), 0), 368400);
  }

  /** "ten thousand dollars" is 1000000 cents. */
  lemma TenThousandDollars(ws: seq<string>)
    requires ws == ["ten", "thousand"] + ["dollars"]
    ensures ParseWords(ws) == (1000000, None)
  {
    OnePartDollars(ws, Part(false, Group(0, false, 10), 1), "dollars", 1000000);
  }

  /** "ten thousand dollars and two cents" is 1000002 cents. */
  lemma TenThousandDollarsAndCents(ws: seq<string>)
    requires ws == ["ten", "thousand"] + ["dollars"] + ["and", "two", "cents"]
    ensures ParseWords(ws) == (1000002, None)
  {
    OnePartAndCents(ws, Part(false, Group(0, false, 10), 1), true, 2, "cents", 1000002);
  }

  /** "twenty thousand dollars" is 2000000 cents. */
  lemma TwentyThousandDollars(ws: seq<string>)
    requires ws == ["twenty", "thousand"] + ["dollars"]
    ensures ParseWords(ws) == (2000000, None)
  {
    OnePartDollars(ws, Part(false, Group(0, false, 20), 1), "dollars", 2000000);
  }

  /** "three hundred thousand dollars" is 30000000 cents. */
  lemma ThreeHundredThousandDollars(ws: seq<string>)
    requires ws == ["three", "hundred", "thousand"] + ["dollars"]
    ensures ParseWords(ws) == (30000000, None)
  {
    OnePartDollars(ws, Part(false, Group(3, false, 0), 1), "dollars", 30000000);
  }

  /** "forty five dollars" is 4500 cents. */
  lemma FortyFiveDollars(ws: seq<string>)
    requires ws == ["forty", "five"] + ["dollars"]
    ensures ParseWords(ws) == (4500, None)
  {
    OnePartDollars(ws, Part(false, Group(0, false, 45), 0), "dollars", 4500);
  }

  /** "forty five thousand dollars and one cent" is 4500001 cents. */
  lemma FortyFiveThousandDollarsAndOneCent(ws: seq<string>)
    requires ws == ["forty", "five", "thousand"] + ["dollars"] + ["and", "one", "cent"]
    ensures ParseWords(ws) == (4500001, None)
  {
    OnePartAndCents(ws, Part(false, Group(0, false, 45), 1), true, 1, "cent", 4500001);
  }

  /** "nine hundred ninety nine thousand nine hundred ninety nine dollars" is 99999900 cents. */
  lemma NineHundredNinetyNineThousandDollars(ws: seq<string>)
    requires ws == ["nine", "hundred", "ninety", "nine", "thousand"] + ["nine", "hundred", "ninety", "nine"]
                 + ["dollars"]
    ensures ParseWords(ws) == (99999900, None)
  {
    TwoPartsDollars(ws, Part(false, Group(9, false, 99), 1), Part(false, Group(9, false, 99), 0), 99999900);
  }

  /** "nine hundred ninety nine million nine hundred ninety nine thousand nine hundred ninety nine dollars and ninety nine cents" is 99999999999 cents. */
  lemma NineHundredNinetyNineMillionDollarsAndCents(ws: seq<string>)
    requires ws == ["nine", "hundred", "ninety", "nine", "million"]
                 + ["nine", "hundred", "ninety", "nine", "thousand"] + ["nine", "hundred", "ninety", "nine"]
                 + ["dollars"] + ["and", "ninety", "nine", "cents"]
    ensures ParseWords(ws) == (99999999999, None)
  {
    var n := Group(9, false, 99);
    NineHundredNinetyNineMillionWords(ws, n);
    ThreePartsAndCents(ws, Part(false, n, 2), Part(false, n, 1), Part(false, n, 0), true, 99, "cents", 99999999999);
  }

  /** The words of the largest amount, part by part. */
  lemma NineHundredNinetyNineMillionWords(ws: seq<string>, n: Group)
    requires ws == ["nine", "hundred", "ninety", "nine", "million"]
                 + ["nine", "hundred", "ninety", "nine", "thousand"] + ["nine", "hundred", "ninety", "nine"]
                 + ["dollars"] + ["and", "ninety", "nine", "cents"]
    requires n == Group(9, false, 99)
    ensures ws == PartWords(Part(false, n, 2)) + PartWords(Part(false, n, 1)) + PartWords(Part(false, n, 0))
                  + ["dollars"] + CentsWords(true, 99, "cents")
  {
    assert GroupWords(n) == ["nine", "hundred", "ninety", "nine"];
    assert PartWords(Part(false, n, 2)) == ["nine", "hundred", "ninety", "nine", "million"];
    assert PartWords(Part(false, n, 1)) == ["nine", "hundred", "ninety", "nine", "thousand"];
    assert CentsWords(true, 99, "cents") == ["and", "ninety", "nine", "cents"];
  }

  /** "four thousand four hundred dollars" is 440000 cents. */
  lemma FourThousandFourHundredDollars(ws: seq<string>)
    requires ws == ["four", "thousand"] + ["four", "hundred"] + ["dollars"]
    ensures ParseWords(ws) == (440000, None)
  {
    TwoPartsDollars(ws, Part(false, Group(0, false, 4), 1), Part(false, Group(4, false, 0), 0), 440000);
  }

  /** "four thousand four hundred thirty two dollars" is 443200 cents. */
  lemma FourThousandFourHundredThirtyTwoDollars(ws: seq<string>)
    requires ws == ["four", "thousand"] + ["four", "hundred", "thirty", "two"] + ["dollars"]
    ensures ParseWords(ws) == (443200, None)
  {
    TwoPartsDollars(ws, Part(false, Group(0, false, 4), 1), Part(false, Group(4, false, 32), 0), 443200);
  }

  // ---------------------------------------------------------------------------------------------
  // Rows the round-trip theorems do not cover: "hundred" after a teen word or a compound tens word.

  /** A teen word followed by "hundred" is read as if "hundred" were a scale word: the teen times
      one hundred is added to the sum. */
  lemma {:induction false} TeenHundredRun(items: seq<Item>, v: Variant)
    requires |items| == 3 && items[0].typ == DirectItem && items[1].typ == HundredItem && items[2].typ == DollarsItem
    ensures var f := Run(Initial(items), Start, v);
      f.err == None && f.cents == 0 && f.dollars == items[0].val * items[1].val
  {
    var m0 := Initial(items);
    var m1 := m0.(pos := 1, prev := items[0].val);
    var m2 := m1.(pos := 2, sum := items[0].val * items[1].val, prev := 0);
    StartOk(m0, v);
    assert Transition(m0, Direct, v) == (m1, Large);
    assert Transition(m1, Large, v) == (m2, Dollars);
    DollarsThen(m2, v);
    RunUnfold(m0, Start, v);
    RunUnfold(m0, Direct, v);
    RunUnfold(m1, Large, v);
    RunUnfold(m2, Dollars, v);
  }

  /** "seventeen hundred dollars" is 170000 cents. */
  lemma SeventeenHundredDollars(ws: seq<string>)
    requires ws == ["seventeen", "hundred", "dollars"]
    ensures ParseWords(ws) == (170000, None)
  {
    ItemsIndex(ws);
    TeenWords(17);
    OtherWords();
    DollarMarkers();
    TeenHundredRun(Items(ws), AsWritten);
    RunWordsOk(ws, AsWritten, 1700, 0, 170000);
  }

  /** A tens word and a unit followed by "hundred" are multiplied by one hundred into the sum. */
  lemma {:induction false} CompoundHundredRun(items: seq<Item>, v: Variant)
    requires |items| == 4 && items[0].typ == TenPrefixItem && items[1].typ == SingleItem
    requires items[2].typ == HundredItem && items[3].typ == DollarsItem
    ensures var f := Run(Initial(items), Start, v);
      f.err == None && f.cents == 0 && f.dollars == (items[0].val + items[1].val) * items[2].val
  {
    var m0 := Initial(items);
    var m1 := m0.(pos := 2, sum := (items[0].val + items[1].val) * items[2].val, prev := 0);
    var m2 := m1.(pos := 3);
    StartOk(m0, v);
    assert Transition(m0, TenPrefix, v) == (m1, Hundred);
    HundredBeforeDollars(m1, v);
    DollarsThen(m2, v);
    RunUnfold(m0, Start, v);
    RunUnfold(m0, TenPrefix, v);
    RunUnfold(m1, Hundred, v);
    RunUnfold(m2, Dollars, v);
  }

  /** "forty five hundred dollars" is 450000 cents. */
  lemma FortyFiveHundredDollars(ws: seq<string>)
    requires ws == ["forty", "five", "hundred", "dollars"]
    ensures ParseWords(ws) == (450000, None)
  {
    ItemsIndex(ws);
    TensWords(4);
    UnitWords(5);
    OtherWords();
    DollarMarkers();
    CompoundHundredRun(Items(ws), AsWritten);
    RunWordsOk(ws, AsWritten, 4500, 0, 450000);
  }

  // ---------------------------------------------------------------------------------------------
  // Rows with a hyphen or a comma.

  /** Joining two non-empty runs of words puts one space between them. */
  lemma {:induction false} JoinPair(a: seq<string>, b: seq<string>)
    requires a != [] && b != []
    ensures Join(a + b) == Join(a) + " " + Join(b)
  {
    if |a| == 1 {
      assert (a + b)[1..] == b;
    } else {
      JoinPair(a[1..], b);
      assert (a + b)[1..] == a[1..] + b;
    }
  }

  /** Words that are fields and that normalisation leaves alone. */
  predicate CleanFields(ws: seq<string>)
  {
    (forall k :: 0 <= k < |ws| ==> IsWord(ws[k])) && CleanWords(ws)
  }

  /** Non-empty words of lower-case letters are clean fields. */
  lemma LowerCaseFields(ws: seq<string>)
    requires forall k :: 0 <= k < |ws| ==> ws[k] != [] && forall j :: 0 <= j < |ws[k]| ==> 'a' <= ws[k][j] <= 'z'
    ensures CleanFields(ws)
  {
  }

  lemma CleanFieldsAppend(a: seq<string>, b: seq<string>)
    requires CleanFields(a) && CleanFields(b)
    ensures CleanFields(a + b)
  {
    forall k | 0 <= k < |a + b|
      ensures IsWord((a + b)[k]) && forall j :: 0 <= j < |(a + b)[k]| ==> !IsRewritten((a + b)[k][j])
    {
      if k < |a| {
        assert (a + b)[k] == a[k];
      } else {
        assert (a + b)[k] == b[k - |a|];
      }
    }
  }

  /** A comma and a space normalise to a space. */
  lemma CommaSpace()
    ensures Preprocess(", ") == " "
  {
    SingleCharacters();
    PreprocessAppend(",", " ");
    assert "," + " " == ", ";
  }

  /** A phrase with a comma after the words `x` and before the words `y` parses as `x` then `y`. */
  lemma CommaPhrase(s: string, a: string, b: string, x: seq<string>, y: seq<string>)
    requires s == a + ", " + b
    requires x != [] && y != [] && Join(x) == a && Join(y) == b && CleanFields(x) && CleanFields(y)
    ensures Numerize(s) == ParseWords(x + y)
  {
    CommaSpace();
    SingleCharacters();
    PreprocessAppend(a + ", ", b);
    PreprocessAppend(a, ", ");
    PreprocessAppend(a + " ", b);
    PreprocessAppend(a, " ");
    JoinPair(x, y);
    CleanFieldsAppend(x, y);
    NumerizeJoin(x + y);
  }

  /** A phrase with a hyphen after the words `x` and before the words `y` parses as `x` then `y`. */
  lemma HyphenPhrase(s: string, a: string, b: string, x: seq<string>, y: seq<string>)
    requires s == a + "-" + b
    requires x != [] && y != [] && Join(x) == a && Join(y) == b && CleanFields(x) && CleanFields(y)
    ensures Numerize(s) == ParseWords(x + y)
  {
    JoinPair(x, y);
    CleanFieldsAppend(x, y);
    HyphenIsSpace(a, b);
    NumerizeJoin(x + y);
  }

  /** A phrase with a comma after the words `x`, and a hyphen after the words `y` and before the
      words `z`, parses as `x`, `y`, then `z`. */
  lemma CommaHyphenPhrase(s: string, a: string, b: string, c: string, x: seq<string>, y: seq<string>, z: seq<string>)
    requires s == a + ", " + b + "-" + c
    requires x != [] && y != [] && z != [] && Join(x) == a && Join(y) == b && Join(z) == c
    requires CleanFields(x) && CleanFields(y) && CleanFields(z)
    ensures Numerize(s) == ParseWords(x + y + z)
  {
    CommaSpace();
    SingleCharacters();
    PreprocessAppend(a + ", " + b + "-", c);
    PreprocessAppend(a + ", " + b, "-");
    PreprocessAppend(a + ", ", b);
    PreprocessAppend(a, ", ");
    PreprocessAppend(a + " " + b + " ", c);
    PreprocessAppend(a + " " + b, " ");
    PreprocessAppend(a + " ", b);
    PreprocessAppend(a, " ");
    JoinPair(x, y);
    JoinPair(x + y, z);
    CleanFieldsAppend(x, y);
    CleanFieldsAppend(x + y, z);
    NumerizeJoin(x + y + z);
  }

  /** Two words joined by a space. */
  lemma JoinTwo(ws: seq<string>, a: string, b: string)
    requires ws == [a, b]
    ensures Join(ws) == a + " " + b
  {
    assert ws[1..] == [b];
  }

  /** Three words joined by spaces. */
  lemma JoinThree(ws: seq<string>, a: string, b: string, c: string)
    requires ws == [a, b, c]
    ensures Join(ws) == a + " " + (b + " " + c)
  {
    JoinTwo(ws[1..], b, c);
  }

  /** "forty-five dollars" is "forty", a hyphen and "five dollars". */
  lemma FortyHyphenFiveSplit(s: string)
    requires s == "forty-five dollars"
    ensures s == "forty" + "-" + ("five" + " " + "dollars")
  {
  }

  /** "forty-five dollars" is 4500 cents. */
  lemma FortyHyphenFiveDollars(s: string)
    requires s == "forty-five dollars"
    ensures Numerize(s) == (4500, None)
  {
    var x, y := ["forty"], ["five", "dollars"];
    FortyHyphenFiveSplit(s);
    JoinTwo(y, "five", "dollars");
    LowerCaseFields(x);
    LowerCaseFields(y);
    HyphenPhrase(s, "forty", "five" + " " + "dollars", x, y);
    assert x + y == ["forty", "five"] + ["dollars"];
    FortyFiveDollars(x + y);
  }

  /** "four thousand, four hundred dollars" is "four thousand", a comma and "four hundred dollars". */
  lemma FourThousandCommaFourHundredSplit(s: string)
    requires s == "four thousand, four hundred dollars"
    ensures s == "four" + " " + "thousand" + ", " + ("four" + " " + ("hundred" + " " + "dollars"))
  {
  }

  /** "four thousand, four hundred dollars" is 440000 cents. */
  lemma FourThousandCommaFourHundredDollars(s: string)
    requires s == "four thousand, four hundred dollars"
    ensures Numerize(s) == (440000, None)
  {
    var x, y := ["four", "thousand"], ["four", "hundred", "dollars"];
    FourThousandCommaFourHundredSplit(s);
    JoinTwo(x, "four", "thousand");
    JoinThree(y, "four", "hundred", "dollars");
    LowerCaseFields(x);
    LowerCaseFields(y);
    CommaPhrase(s, "four" + " " + "thousand", "four" + " " + ("hundred" + " " + "dollars"), x, y);
    assert x + y == ["four", "thousand"] + ["four", "hundred"] + ["dollars"];
    FourThousandFourHundredDollars(x + y);
  }

  /** "four thousand, four hundred thirty-two dollars" is "four thousand", a comma, "four hundred
      thirty", a hyphen and "two dollars". */
  lemma FourThousandCommaFourHundredThirtyHyphenTwoSplit(s: string)
    requires s == "four thousand, four hundred thirty-two dollars"
    ensures s == "four" + " " + "thousand" + ", " + ("four" + " " + ("hundred" + " " + "thirty")) + "-" + ("two" + " " + "dollars")
  {
  }

  /** The words either side of the comma and the hyphen, regrouped by amount part. */
  lemma FourThousandCommaFourHundredThirtyHyphenTwoWords(x: seq<string>, y: seq<string>, z: seq<string>)
    requires x == ["four", "thousand"] && y == ["four", "hundred", "thirty"] && z == ["two", "dollars"]
    ensures x + y + z == ["four", "thousand"] + ["four", "hundred", "thirty", "two"] + ["dollars"]
  {
  }

  /** "four thousand, four hundred thirty-two dollars" is 443200 cents. */
  lemma FourThousandCommaFourHundredThirtyHyphenTwoDollars(s: string)
    requires s == "four thousand, four hundred thirty-two dollars"
    ensures Numerize(s) == (443200, None)
  {
    var x, y, z := ["four", "thousand"], ["four", "hundred", "thirty"], ["two", "dollars"];
    FourThousandCommaFourHundredThirtyHyphenTwoSplit(s);
    JoinTwo(x, "four", "thousand");
    JoinThree(y, "four", "hundred", "thirty");
    JoinTwo(z, "two", "dollars");
    LowerCaseFields(x);
    LowerCaseFields(y);
    LowerCaseFields(z);
    CommaHyphenPhrase(s, "four" + " " + "thousand", "four" + " " + ("hundred" + " " + "thirty"), "two" + " " + "dollars", x, y, z);
    FourThousandCommaFourHundredThirtyHyphenTwoWords(x, y, z);
    FourThousandFourHundredThirtyTwoDollars(x + y + z);
  }

  // ---------------------------------------------------------------------------------------------
  // Phrases outside the test table.

  /** "one hundred" with nothing after it is an error naming "hundred". */
  lemma OneHundredDangling(ws: seq<string>)
    requires ws == ["one", "hundred"]
    ensures ParseWords(ws) == (0, Some(Unexpected("", "hundred")))
  {
    var items := Items(ws);
    ItemsIndex(ws);
    UnitWords(1);
    OtherWords();
    var m0 := Initial(items);
    var m1 := m0.(pos := 1, sum := 0, prev := 1);
    StartOk(m0, AsWritten);
    UnitBeforeHundred(m0, AsWritten);
    DanglingHundred(m1, AsWritten);
    RunUnfold(m0, Start, AsWritten);
    RunUnfold(m0, Single, AsWritten);
    RunUnfold(m1, Hundred, AsWritten);
  }

  /** "three thousand" with nothing after it is an error naming "thousand". */
  lemma ThreeThousandDangling(ws: seq<string>)
    requires ws == ["three", "thousand"]
    ensures ParseWords(ws) == (0, Some(Unexpected("", "thousand")))
  {
    var items := Items(ws);
    ItemsIndex(ws);
    UnitWords(3);
    ScaleWordItems(1);
    var m0 := Initial(items);
    var m1 := m0.(pos := 1, prev := 3);
    StartOk(m0, AsWritten);
    WordBeforeScale(m0, Single, AsWritten);
    DanglingScale(m1, AsWritten);
    RunUnfold(m0, Start, AsWritten);
    RunUnfold(m0, Single, AsWritten);
    RunUnfold(m1, Large, AsWritten);
  }

  /** "forty two" without a currency marker is no amount and no error. */
  lemma FortyTwoUnmarked(ws: seq<string>)
    requires ws == ["forty", "two"]
    ensures ParseWords(ws) == (0, None)
  {
    var items := Items(ws);
    ItemsIndex(ws);
    TensWords(4);
    UnitWords(2);
    var m0 := Initial(items);
    var m1 := m0.(pos := 2, prev := 42);
    StartOk(m0, AsWritten);
    assert Transition(m0, TenPrefix, AsWritten) == (m1, Single);
    assert Transition(m1, Single, AsWritten) == (m1.(pos := 3), Halt);
    RunUnfold(m0, Start, AsWritten);
    RunUnfold(m0, TenPrefix, AsWritten);
    RunUnfold(m1, Single, AsWritten);
  }

  /** "and" alone is no amount and no error. */
  lemma AndAlone(ws: seq<string>)
    requires ws == ["and"]
    ensures ParseWords(ws) == (0, None)
  {
    OtherWords();
    AllUnknown(ws, AsWritten);
  }

  /** A unit, a dollars marker, a tens word, a unit and an unrecognised last word: the number after
      the marker becomes the cents when the input ends. */
  lemma {:induction false} TrailingCentsRun(items: seq<Item>, v: Variant)
    requires |items| == 5 && items[0].typ == SingleItem && items[1].typ == DollarsItem
    requires items[2].typ == TenPrefixItem && items[3].typ == SingleItem && items[4].typ == DefaultItem
    ensures var f := Run(Initial(items), Start, v);
      f.err == None && f.dollars == items[0].val && f.cents == items[2].val + items[3].val
  {
    var c := items[2].val + items[3].val;
    var m0 := Initial(items);
    var m1 := m0.(pos := 1, sum := items[0].val);
    var m2 := m1.(dollarsDone := true, dollars := items[0].val, sum := 0, prev := 0, pos := 2);
    var m3 := m2.(pos := 4, prev := c, sum := c);
    StartOk(m0, v);
    WordBeforeMarker(m0, Single, v);
    DollarsThen(m1, v);
    CompoundBeforeUnknown(m2, v);
    DefaultAtEnd(m3, v);
    RunUnfold(m0, Start, v);
    RunUnfold(m0, Single, v);
    RunUnfold(m1, Dollars, v);
    RunUnfold(m2, TenPrefix, v);
    RunUnfold(m3, Default, v);
  }

  /** "five dollars twenty three foo" is 523 cents: without a cents marker, the number after the
      dollars marker still becomes the cents at the end of input. */
  lemma FiveDollarsTwentyThreeFoo(ws: seq<string>)
    requires ws == ["five", "dollars", "twenty", "three", "foo"]
    ensures ParseWords(ws) == (523, None)
  {
    ItemsIndex(ws);
    UnitWords(5);
    DollarMarkers();
    TensWords(2);
    UnitWords(3);
    TableWord("foo");
    TrailingCentsRun(Items(ws), AsWritten);
    RunWordsOk(ws, AsWritten, 5, 23, 523);
  }

  /** A unit, an unrecognised word and a dollars marker: the unit is dropped and nothing is summed. */
  lemma UnitUnknownDollarsRun(items: seq<Item>, v: Variant)
    requires |items| == 3 && items[0].typ == SingleItem && items[1].typ == DefaultItem
    requires items[2].typ == DollarsItem
    ensures var f := Run(Initial(items), Start, v); f.err == None && f.dollars == 0 && f.cents == 0
  {
    var m0 := Initial(items);
    var m1 := m0.(pos := 1);
    var m2 := m1.(pos := 2);
    StartOk(m0, v);
    WordBeforeUnknown(m0, Single, v);
    SkipWord(m1, v);
    DollarsThen(m2, v);
    RunUnfold(m0, Start, v);
    RunUnfold(m0, Single, v);
    RunUnfold(m1, Default, v);
    RunUnfold(m2, Dollars, v);
  }

  /** As written, "five foo dollars" is no amount: the unit before the unrecognised word is dropped. */
  lemma FiveFooDollars(ws: seq<string>)
    requires ws == ["five", "foo", "dollars"]
    ensures ParseWords(ws) == (0, None)
  {
    ItemsIndex(ws);
    UnitWords(5);
    TableWord("foo");
    DollarMarkers();
    UnitUnknownDollarsRun(Items(ws), AsWritten);
    RunWordsDollars(ws, AsWritten, 0);
  }

}
