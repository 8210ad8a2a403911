/** The word tables of the numerizer and the classification of one word into a typed item. */
module Lexicon {

  /** The categories a word can fall into; EOL and ErrorItem are never produced by NewItem. */
  datatype ItemType =
    | ErrorItem
    | DollarsItem
    | CentsItem
    | ZeroItem
    | HundredItem
    | SingleItem
    | DirectItem
    | TenPrefixItem
    | LargeItem
    | EOL
    | DefaultItem

  /** A classified word: its category, its text and its numeric weight (0 when it has none). */
  datatype Item = Item(typ: ItemType, key: string, val: int)

  /** Units one to nine. */
  const SingleNumbers: map<string, int> := map[
    "one" := 1, "two" := 2, "three" := 3, "four" := 4, "five" := 5,
    "six" := 6, "seven" := 7, "eight" := 8, "nine" := 9]

  /** Ten to nineteen, which never combine with a following unit. */
  const DirectNumbers: map<string, int> := map[
    "ten" := 10, "eleven" := 11, "twelve" := 12, "thirteen" := 13, "fourteen" := 14,
    "fifteen" := 15, "sixteen" := 16, "seventeen" := 17, "eighteen" := 18, "nineteen" := 19]

  /** The multiples of ten from twenty to ninety, which may take a following unit. */
  const TenPrefixNumbers: map<string, int> := map[
    "twenty" := 20, "thirty" := 30, "forty" := 40, "fifty" := 50,
    "sixty" := 60, "seventy" := 70, "eighty" := 80, "ninety" := 90]

  /** Scale words; there is no entry above a billion. */
  const LargeNumbers: map<string, int> := map[
    "thousand" := 1000, "million" := 1000000, "billion" := 1000000000]

  /** `sub` starts at position `k` of `s`. */
  predicate OccursAt(s: string, sub: string, k: int)
  {
    0 <= k <= |s| - |sub| && s[k..k + |sub|] == sub
  }

  /** `sub` occurs somewhere in `s`, as an unanchored pattern match finds it. */
  predicate Contains(s: string, sub: string)
  {
    exists k | 0 <= k <= |s| - |sub| :: OccursAt(s, sub, k)
  }

  /** A word that lacks one of the letters of `sub` does not contain `sub`. */
  lemma MissingLetter(s: string, sub: string, c: char)
    requires c in sub && c !in s
    ensures !Contains(s, sub)
  {
  }

  /** The pattern `dollars?.?`: every word containing "dollar" matches it. */
  predicate IsDollarWord(s: string) { Contains(s, "dollar") }

  /** The pattern `cents?.?`: every word containing "cent" matches it. */
  predicate IsCentWord(s: string) { Contains(s, "cent") }

  /** A word without a 'c', and without a 'd' or an 'l', is neither a dollars nor a cents marker. */
  lemma NotMarker(s: string)
    requires 'c' !in s && ('d' !in s || 'l' !in s)
    ensures !IsDollarWord(s) && !IsCentWord(s)
  {
    MissingLetter(s, "cent", 'c');
    if 'd' !in s {
      MissingLetter(s, "dollar", 'd');
    } else {
      MissingLetter(s, "dollar", 'l');
    }
  }

  /** Classifies a word that is not zero, hundred or a currency marker by table lookup. */
  function NewItemFromMap(s: string): (r: Item)
    ensures r.key == s
    ensures r.typ == SingleItem <==> s in SingleNumbers
    ensures r.typ == DirectItem <==> s !in SingleNumbers && s in DirectNumbers
    ensures r.typ == TenPrefixItem <==> s !in SingleNumbers && s !in DirectNumbers && s in TenPrefixNumbers
    ensures r.typ == LargeItem <==>
      s !in SingleNumbers && s !in DirectNumbers && s !in TenPrefixNumbers && s in LargeNumbers
    ensures r.typ == DefaultItem <==>
      s !in SingleNumbers && s !in DirectNumbers && s !in TenPrefixNumbers && s !in LargeNumbers
    ensures r.typ == SingleItem ==> 1 <= r.val <= 9
    ensures r.typ == DirectItem ==> 10 <= r.val <= 19
    ensures r.typ == TenPrefixItem ==> 20 <= r.val <= 90 && r.val % 10 == 0
    ensures r.typ == LargeItem ==> r.val in {1000, 1000000, 1000000000}
    ensures r.typ == DefaultItem ==> r.val == 0
  {
    if s in SingleNumbers then Item(SingleItem, s, SingleNumbers[s])
    else if s in DirectNumbers then Item(DirectItem, s, DirectNumbers[s])
    else if s in TenPrefixNumbers then Item(TenPrefixItem, s, TenPrefixNumbers[s])
    else if s in LargeNumbers then Item(LargeItem, s, LargeNumbers[s])
    else Item(DefaultItem, s, 0)
  }

  /** A word that is neither zero nor hundred and lacks the letters that would make it a currency
      marker. */
  predicate Plain(w: string)
  {
    w != "zero" && w != "hundred" && 'c' !in w && ('d' !in w || 'l' !in w)
  }

  /** A plain word is classified by the tables. */
  lemma TableWord(w: string)
    requires Plain(w)
    ensures NewItem(w) == NewItemFromMap(w)
  {
    NotMarker(w);
  }

  /** Classifies one word; the zero and hundred tests come first, then the dollar test, then the cent test,
      and only then the tables. */
  function NewItem(s: string): (r: Item)
    ensures r.key == s
    ensures r.typ != ErrorItem && r.typ != EOL
    ensures r.typ == ZeroItem <==> s == "zero"
    ensures r.typ == HundredItem <==> s == "hundred"
    ensures r.typ == HundredItem ==> r.val == 100
    ensures r.typ == DollarsItem <==> s != "zero" && s != "hundred" && IsDollarWord(s)
    ensures r.typ == CentsItem <==> s != "zero" && s != "hundred" && !IsDollarWord(s) && IsCentWord(s)
    ensures r.val >= 0
    ensures r.typ in {SingleItem, DirectItem, TenPrefixItem, LargeItem, DefaultItem} ==> r == NewItemFromMap(s)
  {
    if s == "zero" then Item(ZeroItem, s, 0)
    else if s == "hundred" then Item(HundredItem, s, 100)
    else if IsDollarWord(s) then Item(DollarsItem, s, 0)
    else if IsCentWord(s) then Item(CentsItem, s, 0)
    else NewItemFromMap(s)
  }

  /** "dollar" and "dollars" are dollars markers. */
  lemma DollarMarkers()
    ensures NewItem("dollars") == Item(DollarsItem, "dollars", 0)
    ensures NewItem("dollar") == Item(DollarsItem, "dollar", 0)
  {
    assert OccursAt("dollars", "dollar", 0);
    assert OccursAt("dollar", "dollar", 0);
  }

  /** "cent" and "cents" are cents markers. */
  lemma CentMarkers()
    ensures NewItem("cents") == Item(CentsItem, "cents", 0)
    ensures NewItem("cent") == Item(CentsItem, "cent", 0)
  {
    assert OccursAt("cents", "cent", 0);
    assert OccursAt("cent", "cent", 0);
    MissingLetter("cents", "dollar", 'd');
    MissingLetter("cent", "dollar", 'd');
  }
}
