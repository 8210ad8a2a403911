# numerizer in Dafny

A model of the numerizer package, which turns an English money phrase such as "two hundred four
dollars and eighteen cents" into a whole number of cents (20418). The pipeline has four stages:

- **Normalisation** (`normalize.dfy`, module `Normalize`). The phrase is lower-cased, commas and
  periods are deleted, and hyphens become spaces. It is then split into fields at runs of white
  space.
- **Lexicon** (`lexicon.dfy`, module `Lexicon`). Each field is classified into a typed item:
  - zero, hundred, a dollars marker or a cents marker, tested in that order;
  - otherwise unit, teen, tens word or scale word, by table lookup;
  - anything else (including "and") is an unrecognised word.
- **State machine** (`numerizer.dfy`, module `Numerizer`). Every parse state appears twice:
  - a pure step function on a `Machine` value, which the lemmas reason about;
  - a method of the mutable `Parser` class, whose fields are the cursor and the accumulators
    `prev`, `sum`, `dollars`, `cents`, `dollarsDone` and `err`.

  Each method is proved to perform exactly its step function. The function-valued states of the
  original become the `State` datatype; `Halt` stands for the nil state. The driver loop
  `RunStates` is proved to end in the state that the function `Run` computes. `Parse` is proved to
  return `Numerize(s)`: no amount on an error, otherwise dollars times 100 plus cents.
- **Properties**, proved about the pure model:
  - `Steps`: what each state does with the successors that amounts, unrecognised words and the end
    of input put after it, and, for every state that consumes a word, which successors it rejects
    with an error.
  - `Spelling`: a reference grammar of amounts spelled out in words, with their values.
  - `RoundTrip` and `Amounts`: parsing the words of any valid amount, followed by a dollars marker
    and optionally a cents phrase, gives back its value.
  - `Facts`: general properties — no marker means no amount, the amount is never negative, the
    error cases, and that hyphens and punctuation are harmless.
  - `Findings`: the one discrepancy found.
  - `Examples`: the rows of the package's test table, as lemmas.

The parser is modelled in two variants (`Variant`). `AsWritten` is the code as it stands.
`KeepPending` is the correction recorded under Findings. Every class method and every example
lemma uses `AsWritten`.

Some behaviours of the code that a reader might not expect:
- it has no "trillion" entry and no misspelling aliases;
- "and" alone, or any phrase of unrecognised words only, yields 0 without an error (`Facts.AllUnknown`);
- a phrase without a currency marker yields 0 (`Facts.NoMarkerNoAmount`);
- a number after the dollars marker without a cents marker becomes the cents only when an
  unrecognised word ends the input (`Steps.DefaultAtEnd`, `Examples.FiveDollarsTwentyThreeFoo`);
- arithmetic is never checked for overflow.

## Model

| member | source | states |
|---|---|---|
| Lexicon.NewItem | numerizer.go:79-91 | a word becomes zero exactly when it is "zero", hundred (weight 100) exactly when it is "hundred", a dollars marker exactly when it is neither and contains "dollar", a cents marker exactly when it is none of these and contains "cent", and otherwise the table classification; never an error or end-of-input item; the key is the word; the weight is never negative |
| Lexicon.NewItemFromMap | numerizer.go:93-104 | the table lookup in order units, teens, tens, scales, each category exactly when the word is in that table and no earlier one; units weigh 1-9, teens 10-19, tens a multiple of ten in 20-90, scales one of a thousand, a million, a billion; anything else is unrecognised with weight 0 |
| Lexicon.DollarMarkers | numerizer.go:75 | "dollar" and "dollars" are dollars markers |
| Lexicon.CentMarkers | numerizer.go:76 | "cent" and "cents" are cents markers |
| Lexicon.NotMarker | numerizer.go:85-88 | a word without a 'c', and without a 'd' or an 'l', matches neither marker pattern |
| Lexicon.TableWord | numerizer.go:79-90 | a word that is not zero or hundred and cannot be a marker is classified by the tables alone |
| Normalize.ToLower | numerizer.go:141 | same length; every ASCII upper-case letter becomes its lower-case letter and every other character is kept |
| Normalize.RemoveAll | numerizer.go:142-143 | the deleted character no longer occurs; every other character of the input, and only those, remains |
| Normalize.ReplaceAll | numerizer.go:144 | same length; each occurrence of the character is replaced and every other position is kept |
| Normalize.Preprocess | numerizer.go:140-146 | the normalised text holds no upper-case ASCII letter, comma, period or hyphen |
| Normalize.PreprocessAppend | numerizer.go:140-146 | normalising a concatenation is concatenating the normalised parts |
| Normalize.PreprocessUnchanged | numerizer.go:140-146 | text with nothing to rewrite is left unchanged |
| Normalize.PreprocessIdempotent | numerizer.go:140-146 | normalising twice is normalising once |
| Normalize.WordLength | numerizer.go:119 | the longest prefix free of white space ends at the end of the text or at a white-space character |
| Normalize.Fields | numerizer.go:119 | every field is a non-empty run of non-white-space characters |
| Normalize.FieldsJoin | numerizer.go:119 | splitting words joined by single spaces gives back exactly those words |
| Normalize.FieldsOfWord | numerizer.go:119 | a single non-empty run without white space is its own only field |
| Normalize.FieldsSplit | numerizer.go:119 | a white-space character separates fields: the fields of text around it are the fields before it followed by the fields after it, so runs of white space, leading and trailing white space and tabs yield no empty fields |
| Numerizer.LookAt | numerizer.go:133-138 | the item at the cursor, or an end-of-input item with empty key and weight 0 at or past the end |
| Numerizer.ErrorFor | numerizer.go:386-398 | a bad number exactly when the item is of the error category, an unexpected start exactly when it is not but the item it follows is, otherwise an unexpected key after the preceding key; the key is always the item's |
| Numerizer.Transition | numerizer.go:165-384 | one state keeps the items; the start dispatch, the cents state and the halted state keep the cursor; the tens state advances it by one or two; every other state by exactly one; a continuing run stays within the items; the cursor advances or the state rank falls; a newly recorded error halts |
| Numerizer.Run | numerizer.go:153-155 | running states until the machine halts never changes the items (termination by cursor and state rank) |
| Numerizer.Items | numerizer.go:120-123 | one item per field |
| Numerizer.ItemsIndex | numerizer.go:120-123 | the item at each position is the classification of the field at that position |
| Numerizer.Parser.constructor | numerizer.go:117-125 | the items are the classified fields of the normalised phrase, in order, and every accumulator starts at zero with no error |
| Numerizer.Parser.Peek | numerizer.go:133-138 | the current item without moving; end-of-input at or past the end |
| Numerizer.Parser.Next | numerizer.go:127-131 | returns the current item and advances the cursor by one, changing nothing else |
| Numerizer.Parser.ParseError | numerizer.go:386-398 | records the error for the item after the preceding item and stops |
| Numerizer.Parser.ParseStart | numerizer.go:165-180 | performs exactly the start dispatch step |
| Numerizer.Parser.ParseZero | numerizer.go:182-194 | performs exactly the zero step |
| Numerizer.Parser.ParseSingle | numerizer.go:196-219 | performs exactly the unit step as written |
| Numerizer.Parser.ParseDirect | numerizer.go:221-241 | performs exactly the teen step as written |
| Numerizer.Parser.ParseTenPrefix | numerizer.go:243-283 | performs exactly the tens step as written |
| Numerizer.Parser.ParseHundred | numerizer.go:285-305 | performs exactly the hundred step |
| Numerizer.Parser.ParseLarge | numerizer.go:307-325 | performs exactly the scale step |
| Numerizer.Parser.ParseDollars | numerizer.go:327-347 | performs exactly the dollars step |
| Numerizer.Parser.ParseCents | numerizer.go:349-355 | performs exactly the cents step |
| Numerizer.Parser.ParseDefault | numerizer.go:357-384 | performs exactly the unrecognised-word step |
| Numerizer.Parser.Step | numerizer.go:148 | running a state performs exactly that state's transition |
| Numerizer.Parser.RunStates | numerizer.go:153-155 | the driver loop terminates in the machine that the run from the start dispatch halts in |
| Numerizer.Parser.Result | numerizer.go:156-162 | returns no amount and the error if one was recorded, otherwise dollars times 100 plus cents |
| Numerizer.Parse | numerizer.go:151-163 | the parser object returns exactly the value of the pure model on the phrase |
| Steps.StartOk | numerizer.go:165-178 | the start dispatch hands a zero, unit, teen, tens or unrecognised first word to its state and consumes nothing |
| Steps.ZeroThen | numerizer.go:182-191 | "zero" before a marker hands the marker on unchanged |
| Steps.WordBeforeScale | numerizer.go:204-206 | a unit, teen or tens word before a scale word becomes the pending group (as written) or is added to it (corrected) |
| Steps.WordBeforeMarker | numerizer.go:207-212 | a unit, teen or tens word before a marker is added, with the pending group, to the sum |
| Steps.CompoundBeforeScale | numerizer.go:247-257 | a tens word and a unit before a scale word are both consumed and added to the pending group |
| Steps.CompoundBeforeMarker | numerizer.go:258-263 | a tens word and a unit before a marker are added, with the pending group, to the sum |
| Steps.UnitBeforeHundred | numerizer.go:200-203 | a unit before "hundred" folds the pending group into the sum and becomes the new pending group |
| Steps.HundredThen | numerizer.go:285-302 | "hundred" multiplies the pending group by 100 and hands on the next word |
| Steps.HundredBeforeDollars | numerizer.go:298-300 | "hundred" before the dollars marker multiplies the pending group and adds it to the sum |
| Steps.ScaleThen | numerizer.go:307-322 | a scale word adds the pending group times its weight to the sum, clears the pending group and hands on the next word |
| Steps.SkipWord | numerizer.go:357-376 | an unrecognised word changes nothing and hands on the next word |
| Steps.DollarsThen | numerizer.go:327-345 | the dollars marker sets the done flag, freezes the sum as the dollars, clears sum and pending group, and hands on the next word or halts at the end |
| Steps.CentsHalts | numerizer.go:349-355 | the cents marker freezes the sum as the cents, clears sum and pending group, and halts |
| Steps.MarkerIgnoresPrev | numerizer.go:327-352 | a run entering a currency marker ends the same whatever the pending group |
| Steps.ZeroAtEnd | numerizer.go:190-191 | "zero" as the last word halts without touching the accumulators |
| Steps.UnitAtEnd | numerizer.go:215-216 | a unit as the last word halts without adding it, or the pending group, to the sum |
| Steps.WordBeforeUnknown | numerizer.go:213-214 | a unit, teen or tens word before an unrecognised word goes to the unrecognised-word state without adding itself or the pending group to the sum (also lines 237-238 and 273-274) |
| Steps.TeenBeforeHundred | numerizer.go:225-227 | a teen before "hundred" replaces the pending group and goes to the scale-word state |
| Steps.CompoundBeforeHundred | numerizer.go:247-255 | a tens word and a unit before "hundred" add their sum, with the pending group, times one hundred to the sum, clear the pending group and go to the hundred state |
| Steps.CompoundBeforeUnknown | numerizer.go:264-266 | a tens word and a unit before an unrecognised word are added, with the pending group, to the sum |
| Steps.CompoundFallThrough | numerizer.go:267-268 | after a tens word and a unit, any other token (the end of input included) goes to the unit state with both words added to the pending group and nothing added to the sum |
| Steps.DefaultAtEnd | numerizer.go:377-381 | an unrecognised word as the last word halts; after a dollars marker the running sum becomes the cents, otherwise nothing changes |
| Steps.ErrorExit | numerizer.go:182-384 | each state that consumes a word records the error naming the next token and the word before it, and halts, exactly when the next token is not among the successors it accepts; otherwise the recorded error is unchanged |
| Amounts.DollarsRoundTrip | numerizer.go:151-384 | the words of any valid amount up to the billions, followed by a dollars marker, parse to 100 cents per dollar and no error: always in the corrected reading, and as written whenever no group before a scale word has both hundreds and a remainder of 1-19 or a round ten |
| Amounts.DollarsAndCentsRoundTrip | numerizer.go:151-384 | the same amount, a dollars marker, an optional "and", a number from 1 to 99 and a cents marker parse to the dollars in cents plus the cents |
| Amounts.CentsRoundTrip | numerizer.go:349-355 | a number from 1 to 99 followed by a cents marker parses to that many cents |
| Amounts.ZeroRoundTrip | numerizer.go:182-194 | "zero" followed by either marker parses to 0 without an error |
| Amounts.ZeroDollarsAndCents | numerizer.go:182-194 | "zero", a dollars marker and a cents phrase parse to the cents |
| Facts.UnpaidStep | numerizer.go:165-384 | while no marker lies ahead, every state keeps both amounts at zero and never enters a marker state |
| Facts.UnpaidRun | numerizer.go:327-381 | a run with no marker ahead ends with no dollars and no cents |
| Facts.NoMarkerNoAmount | numerizer.go:156-162 | a phrase with no dollars or cents marker yields an amount of 0, with or without an error |
| Facts.NonNegativeStep | numerizer.go:165-384 | no state makes an accumulator negative |
| Facts.NonNegativeRun | numerizer.go:153-155 | a run keeps every accumulator non-negative |
| Facts.AmountNonNegative | numerizer.go:160-162 | the parse never yields a negative number of cents |
| Facts.EmptyInput | numerizer.go:165-179 | no fields: an unexpected start with an empty key |
| Facts.NumerizeBlank | numerizer.go:117-125 | a phrase that normalises to no fields is rejected as an unexpected start |
| Facts.BadStart | numerizer.go:165-179 | a first word that is "hundred", a scale word or a marker is rejected as an unexpected start naming that word |
| Facts.DanglingHundred | numerizer.go:285-305 | "hundred" as the last word halts with an error saying end of input may not follow it |
| Facts.DanglingScale | numerizer.go:307-325 | a scale word as the last word halts with an error saying end of input may not follow it |
| Facts.AllUnknown | numerizer.go:357-384 | a non-empty phrase of unrecognised words only (such as "and") yields 0 with no error |
| Facts.NumerizeJoin | numerizer.go:117-125 | words that normalisation leaves alone, joined by single spaces, are parsed word by word |
| Facts.HyphenIsSpace | numerizer.go:144 | a hyphen parses exactly as a space |
| Facts.PunctuationIgnored | numerizer.go:142-143 | a comma or a period parses as if it were absent |
| Findings.HundredsThenScaleRun | numerizer.go:196-206 | on "a hundred b, scale, dollars" the dollars are b times the scale as written, and (a hundred plus b) times the scale when corrected |
| Findings.ThreeHundredOneThousandAsWritten | numerizer.go:204-206 | as written, "three hundred one thousand dollars" parses to 100000 cents |
| Findings.ThreeHundredOneThousandCorrected | numerizer.go:204-206 | corrected, "three hundred one thousand dollars" parses to 30100000 cents |
| Examples.ZeroDollarsAndThirtyFourCents | numerizer_test.go:10 | the words of "zero dollars and thirty four cents" parse to 34 cents with no error |
| Examples.ZeroDollars | numerizer_test.go:11 | the words of "zero dollars" parse to 0 cents with no error |
| Examples.OneDollar | numerizer_test.go:12 | the words of "one dollar" parse to 100 cents with no error |
| Examples.ElevenDollars | numerizer_test.go:14 | the words of "eleven dollars" parse to 1100 cents with no error |
| Examples.SixtyDollars | numerizer_test.go:16 | the words of "sixty dollars" parse to 6000 cents with no error |
| Examples.OneHundredDollars | numerizer_test.go:17 | the words of "one hundred dollars" parse to 10000 cents with no error |
| Examples.FourMillionDollars | numerizer_test.go:20 | the words of "four million dollars" parse to 400000000 cents with no error |
| Examples.FiveBillionDollars | numerizer_test.go:21 | the words of "five billion dollars" parse to 500000000000 cents with no error |
| Examples.TwoHundredFourDollars | numerizer_test.go:22 | the words of "two hundred four dollars" parse to 20400 cents with no error |
| Examples.TwoHundredFourDollarsAndCents | numerizer_test.go:23 | the words of "two hundred four dollars and eighteen cents" parse to 20418 cents with no error |
| Examples.TwoHundredAndFourDollars | numerizer_test.go:24 | the words of "two hundred and four dollars" parse to 20400 cents with no error |
| Examples.ThreeThousandFourDollars | numerizer_test.go:26 | the words of "three thousand four dollars" parse to 300400 cents with no error |
| Examples.ThreeThousandAndFourDollars | numerizer_test.go:27 | the words of "three thousand and four dollars" parse to 300400 cents with no error |
| Examples.ThreeThousandAndSixteenDollars | numerizer_test.go:29 | the words of "three thousand and sixteen dollars" parse to 301600 cents with no error |
| Examples.ThreeThousandAndThirtyDollars | numerizer_test.go:31 | the words of "three thousand and thirty dollars" parse to 303000 cents with no error |
| Examples.ThreeThousandThirtyThreeDollarsAndCents | numerizer_test.go:33 | the words of "three thousand thirty three dollars and twenty cents" parse to 303320 cents with no error |
| Examples.ThreeThousandAndFourHundredDollars | numerizer_test.go:35 | the words of "three thousand and four hundred dollars" parse to 340000 cents with no error |
| Examples.ThreeThousandFiveHundredAndOneDollars | numerizer_test.go:37 | the words of "three thousand five hundred and one dollars" parse to 350100 cents with no error |
| Examples.ThreeThousandSixHundredTwelveDollarsAndCents | numerizer_test.go:39 | the words of "three thousand six hundred twelve dollars and sixty one cents" parse to 361261 cents with no error |
| Examples.ThreeThousandSixHundredAndEightyFourDollars | numerizer_test.go:44 | the words of "three thousand six hundred and eighty four dollars" parse to 368400 cents with no error |
| Examples.TenThousandDollars | numerizer_test.go:45 | the words of "ten thousand dollars" parse to 1000000 cents with no error |
| Examples.TenThousandDollarsAndCents | numerizer_test.go:46 | the words of "ten thousand dollars and two cents" parse to 1000002 cents with no error |
| Examples.TwentyThousandDollars | numerizer_test.go:47 | the words of "twenty thousand dollars" parse to 2000000 cents with no error |
| Examples.ThreeHundredThousandDollars | numerizer_test.go:48 | the words of "three hundred thousand dollars" parse to 30000000 cents with no error |
| Examples.FortyFiveDollars | numerizer_test.go:49 | the words of "forty five dollars" parse to 4500 cents with no error |
| Examples.FortyFiveThousandDollarsAndOneCent | numerizer_test.go:52 | the words of "forty five thousand dollars and one cent" parse to 4500001 cents with no error |
| Examples.NineHundredNinetyNineThousandDollars | numerizer_test.go:53 | the words of "nine hundred ninety nine thousand nine hundred ninety nine dollars" parse to 99999900 cents with no error |
| Examples.NineHundredNinetyNineMillionDollarsAndCents | numerizer_test.go:55 | the words of "nine hundred ninety nine million nine hundred ninety nine thousand nine hundred ninety nine dollars and ninety nine cents" parse to 99999999999 cents with no error |
| Examples.FourThousandFourHundredDollars | numerizer_test.go:57 | the words of "four thousand four hundred dollars" parse to 440000 cents with no error |
| Examples.FourThousandFourHundredThirtyTwoDollars | numerizer_test.go:58 | the words of "four thousand four hundred thirty two dollars" parse to 443200 cents with no error |
| Examples.SeventeenHundredDollars | numerizer_test.go:25 | the words of "seventeen hundred dollars" parse to 170000 cents with no error |
| Examples.FortyFiveHundredDollars | numerizer_test.go:50 | the words of "forty five hundred dollars" parse to 450000 cents with no error |
| Examples.FortyHyphenFiveDollars | numerizer_test.go:56 | the phrase "forty-five dollars" parses to 4500 cents with no error |
| Examples.FourThousandCommaFourHundredDollars | numerizer_test.go:57 | the phrase "four thousand, four hundred dollars" parses to 440000 cents with no error |
| Examples.FourThousandCommaFourHundredThirtyHyphenTwoDollars | numerizer_test.go:58 | the phrase "four thousand, four hundred thirty-two dollars" parses to 443200 cents with no error |
| Examples.OneHundredDangling | numerizer.go:285-305 | the words "one hundred" with nothing after them are rejected with an error naming "hundred" |
| Examples.ThreeThousandDangling | numerizer.go:307-325 | the words "three thousand" with nothing after them are rejected with an error naming "thousand" |
| Examples.FortyTwoUnmarked | numerizer.go:243-269 | the words "forty two" without a marker yield 0 and no error |
| Examples.AndAlone | numerizer.go:176-177 | the word "and" alone yields 0 and no error |
| Examples.FiveDollarsTwentyThreeFoo | numerizer.go:377-381 | the words "five dollars twenty three foo" yield 523 cents: without a cents marker, the number after the dollars marker becomes the cents at the end of input |
| Examples.FiveFooDollars | numerizer.go:213-214 | the words "five foo dollars" yield 0 and no error, because the unit is dropped before the unrecognised word |

## Left out

- The regular expressions `dollars?.?` and `cents?.?` are modelled as substring tests for "dollar" and "cent". Matched unanchored, they accept exactly the words containing those substrings.
- `Normalize.ToLower` maps only ASCII letters; Unicode case mapping beyond ASCII is not modelled.
- `Normalize.Fields` splits at Unicode white space by code point; invalid UTF-8 is not modelled, because strings are sequences of characters.
- Go's 64-bit `int` wrap-around is not modelled: all accumulators are unbounded integers. The code performs no overflow checks, so amounts above the 64-bit range are out of scope.
- Error messages are the `Error` datatype (the offending key, and the key it followed) rather than formatted text. A bad number is never produced, because no item of the error category is ever created.
- The test harness and its reporting are not modelled. Some rows of its table are not restated as lemmas: numerizer_test.go lines 13, 15, 18, 19, 28, 30, 32, 34, 36, 38, 40-43, 51 and 54. They are instances of `Amounts.DollarsRoundTrip` or `Amounts.DollarsAndCentsRoundTrip` of the same shape as the rows that are.
- Amounts.DollarsRoundTrip: as written, it is proved only for amounts where no group before a scale word has both a hundreds digit and a remainder of 1-19 or a round ten. For those, the parser as written loses the hundreds (see Findings).
- Amounts.DollarsAndCentsRoundTrip: carries the same restriction for the code as written.
- The round-trip theorems cover amounts in the reference grammar: groups of hundreds and a remainder, an optional "and" after "hundred" or before a group, and strictly decreasing scales. "Hundred" after a teen or a compound tens word ("seventeen hundred", "forty five hundred") is covered only by the examples.

## Findings

| source | as written | input that shows it | evidently intended | confidence | as-written member | corrected member |
|---|---|---|---|---|---|---|
| numerizer.go:204-206 (also 228-230 and 270-272) | a unit, teen or tens word followed by a scale word replaces the pending group, so a preceding "N hundred" is lost | "three hundred one thousand dollars" gives 100000 cents | 30100000 cents: the word is added to the pending group | not executed | Findings.ThreeHundredOneThousandAsWritten | Findings.ThreeHundredOneThousandCorrected |
