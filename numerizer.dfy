/** The state-machine parser that turns a money phrase into a count of cents.

    Each parse state of the machine is a constructor of `State`; the function-valued states of the
    original design become a dispatch in `Parser.Step`. Every state is given twice: once as a pure
    step function on a `Machine` value (`ZeroStep`, `SingleStep`, ...), which the lemmas reason about,
    and once as a method of the mutable `Parser` class (`ParseZero`, `ParseSingle`, ...), which is
    proved to perform exactly that step. */
module Numerizer {
  import opened Lexicon
  import opened Normalize

  datatype Option<T> = None | Some(value: T)

  /** The single error a parse can record. */
  datatype Error =
    | BadNumber(key: string)                   // a token of the error category (never produced)
    | UnexpectedStart(key: string)             // the first token cannot start a number
    | Unexpected(key: string, after: string)   // `key` may not follow `after`

  /** The parse states; `Halt` stands for the nil state that ends the driver loop. */
  datatype State =
    | Start | Zero | Single | Direct | TenPrefix | Hundred | Large | Dollars | Cents | Default | Halt

  /** The parser as written, or with the correction recorded under findings: a unit, teen or tens word
      that precedes a scale word is added to the pending group instead of replacing it. */
  datatype Variant = AsWritten | KeepPending

  /** A snapshot of the parser's fields. */
  datatype Machine = Machine(
    items: seq<Item>,
    pos: nat,
    prev: int,
    sum: int,
    dollars: int,
    cents: int,
    dollarsDone: bool,
    err: Option<Error>)

  /** The zero value of an item, used as the "after" item of an error at the start. */
  const NoItem: Item := Item(ErrorItem, "", 0)

  /** The item at `pos`, or an end-of-input item at or past the end. */
  function LookAt(items: seq<Item>, pos: nat): (i: Item)
    ensures pos < |items| ==> i == items[pos]
    ensures pos >= |items| ==> i.typ == EOL && i.key == "" && i.val == 0
  {
    if pos >= |items| then Item(EOL, "", 0) else items[pos]
  }

  /** The error recorded when item `i` is not allowed after item `after`. */
  function ErrorFor(i: Item, after: Item): (e: Error)
    ensures i.typ == ErrorItem <==> e.BadNumber?
    ensures i.typ != ErrorItem && after.typ == ErrorItem <==> e.UnexpectedStart?
    ensures e.key == i.key
    ensures e.Unexpected? ==> e.after == after.key
  {
    if i.typ == ErrorItem then BadNumber(i.key)
    else if after.typ == ErrorItem then UnexpectedStart(i.key)
    else Unexpected(i.key, after.key)
  }

  function Initial(items: seq<Item>): Machine
  {
    Machine(items, 0, 0, 0, 0, 0, false, None)
  }

  // ---------------------------------------------------------------------------------------------
  // The step of each state, on values.

  /** The pending group when a word of value `val` meets a scale word: as written the word's value
      replaces the pending group; the corrected variant adds it. */
  function Pending(prev: int, val: int, v: Variant): int
  {
    match v
    case AsWritten => val
    case KeepPending => prev + val
  }

  function FailStep(m: Machine, i: Item, after: Item): (Machine, State)
  {
    (m.(err := Some(ErrorFor(i, after))), Halt)
  }

  /** The start dispatch: looks at the first token without consuming it. */
  function StartStep(m: Machine): (Machine, State)
  {
    var i := LookAt(m.items, m.pos);
    match i.typ
    case ZeroItem => (m, Zero)
    case SingleItem => (m, Single)
    case DirectItem => (m, Direct)
    case TenPrefixItem => (m, TenPrefix)
    case DefaultItem => (m, Default)
    case _ => FailStep(m, i, NoItem)
  }

  function ZeroStep(m: Machine): (Machine, State)
  {
    var i := LookAt(m.items, m.pos);
    var m := m.(pos := m.pos + 1);
    var next := LookAt(m.items, m.pos);
    match next.typ
    case DollarsItem => (m, Dollars)
    case CentsItem => (m, Cents)
    case EOL => (m, Halt)
    case _ => FailStep(m, next, i)
  }

  function SingleStep(m: Machine, v: Variant): (Machine, State)
  {
    var i := LookAt(m.items, m.pos);
    var m := m.(pos := m.pos + 1);
    var next := LookAt(m.items, m.pos);
    match next.typ
    case HundredItem => (m.(sum := m.sum + m.prev, prev := i.val), Hundred)
    case LargeItem => (m.(prev := Pending(m.prev, i.val, v)), Large)
    case DollarsItem => (m.(sum := m.sum + m.prev + i.val), Dollars)
    case CentsItem => (m.(sum := m.sum + m.prev + i.val), Cents)
    case DefaultItem => (m, Default)
    case EOL => (m, Halt)
    case _ => FailStep(m, next, i)
  }

  /** Ten to nineteen; a following "hundred" is handed to the scale-word state. */
  function DirectStep(m: Machine, v: Variant): (Machine, State)
  {
    var i := LookAt(m.items, m.pos);
    var m := m.(pos := m.pos + 1);
    var next := LookAt(m.items, m.pos);
    match next.typ
    case HundredItem => (m.(prev := i.val), Large)
    case LargeItem => (m.(prev := Pending(m.prev, i.val, v)), Large)
    case DollarsItem => (m.(sum := m.sum + m.prev + i.val), Dollars)
    case CentsItem => (m.(sum := m.sum + m.prev + i.val), Cents)
    case DefaultItem => (m, Default)
    case _ => FailStep(m, next, i)
  }

  /** A multiple of ten; a following unit is consumed here as well, and whatever comes after that
      unit, if nothing more specific applies, is handed to the unit state. */
  function TenPrefixStep(m: Machine, v: Variant): (Machine, State)
  {
    var i := LookAt(m.items, m.pos);
    var m := m.(pos := m.pos + 1);
    var next := LookAt(m.items, m.pos);
    match next.typ
    case SingleItem =>
      var m := m.(prev := m.prev + i.val + next.val, pos := m.pos + 1);
      var ahead := LookAt(m.items, m.pos);
      (match ahead.typ
       case HundredItem => (m.(sum := m.sum + m.prev * ahead.val, prev := 0), Hundred)
       case LargeItem => (m, Large)
       case DollarsItem => (m.(sum := m.sum + m.prev), Dollars)
       case CentsItem => (m.(sum := m.sum + m.prev), Cents)
       case DefaultItem => (m.(sum := m.sum + m.prev), Default)
       case _ => (m, Single))
    case LargeItem => (m.(prev := Pending(m.prev, i.val, v)), Large)
    case DefaultItem => (m, Default)
    case DollarsItem => (m.(sum := m.sum + m.prev + i.val), Dollars)
    case CentsItem => (m.(sum := m.sum + m.prev + i.val), Cents)
    case _ => FailStep(m, next, i)
  }

  function HundredStep(m: Machine): (Machine, State)
  {
    var i := LookAt(m.items, m.pos);
    var m := m.(pos := m.pos + 1, prev := m.prev * i.val);
    var next := LookAt(m.items, m.pos);
    match next.typ
    case SingleItem => (m, Single)
    case DirectItem => (m, Direct)
    case TenPrefixItem => (m, TenPrefix)
    case LargeItem => (m, Large)
    case DollarsItem => (m.(sum := m.sum + m.prev), Dollars)
    case DefaultItem => (m, Default)
    case _ => FailStep(m, next, i)
  }

  function LargeStep(m: Machine): (Machine, State)
  {
    var i := LookAt(m.items, m.pos);
    var m := m.(pos := m.pos + 1, sum := m.sum + m.prev * i.val, prev := 0);
    var next := LookAt(m.items, m.pos);
    match next.typ
    case SingleItem => (m, Single)
    case DirectItem => (m, Direct)
    case TenPrefixItem => (m, TenPrefix)
    case DollarsItem => (m, Dollars)
    case DefaultItem => (m, Default)
    case _ => FailStep(m, next, i)
  }

  /** The dollars marker freezes the running sum as the dollar amount. */
  function DollarsStep(m: Machine): (Machine, State)
  {
    var m := m.(dollarsDone := true, dollars := m.sum, sum := 0, prev := 0);
    var i := LookAt(m.items, m.pos);
    var m := m.(pos := m.pos + 1);
    var next := LookAt(m.items, m.pos);
    match next.typ
    case SingleItem => (m, Single)
    case DirectItem => (m, Direct)
    case TenPrefixItem => (m, TenPrefix)
    case DefaultItem => (m, Default)
    case EOL => (m, Halt)
    case _ => FailStep(m, next, i)
  }

  /** The cents marker freezes the running sum as the cents amount and stops, consuming nothing. */
  function CentsStep(m: Machine): (Machine, State)
  {
    (m.(cents := m.sum, sum := 0, prev := 0), Halt)
  }

  /** An unrecognised word is skipped; at the end of input after a dollars marker the running sum
      becomes the cents amount. */
  function DefaultStep(m: Machine): (Machine, State)
  {
    var i := LookAt(m.items, m.pos);
    var m := m.(pos := m.pos + 1);
    var next := LookAt(m.items, m.pos);
    match next.typ
    case ZeroItem => (m, Zero)
    case SingleItem => (m, Single)
    case DirectItem => (m, Direct)
    case TenPrefixItem => (m, TenPrefix)
    case HundredItem => (m, Hundred)
    case DefaultItem => (m, Default)
    case DollarsItem => (m, Dollars)
    case CentsItem => (m, Cents)
    case EOL => (if m.dollarsDone then m.(cents := m.sum) else m, Halt)
    case _ => FailStep(m, next, i)
  }

  /** The second component of the termination measure: only the start dispatch and the cents state
      keep the cursor where it is; the start dispatch never leads to the cents state, and the
      cents state always halts. */
  function Rank(st: State): nat
  {
    match st
    case Start => 2
    case Halt => 0
    case _ => 1
  }

  /** One run of a state. */
  function Transition(m: Machine, st: State, v: Variant): (r: (Machine, State))
    ensures r.0.items == m.items
    ensures st in {Start, Cents, Halt} ==> r.0.pos == m.pos
    ensures st == TenPrefix ==> r.0.pos == m.pos + 1 || r.0.pos == m.pos + 2
    ensures st in {Zero, Single, Direct, Hundred, Large, Dollars, Default} ==> r.0.pos == m.pos + 1
    ensures r.1 != Halt ==> r.0.pos <= |m.items|
    ensures st != Halt ==> m.pos < r.0.pos || (m.pos == r.0.pos && Rank(r.1) < Rank(st))
    ensures m.err == None && r.0.err != None ==> r.1 == Halt
  {
    match st
    case Start => StartStep(m)
    case Zero => ZeroStep(m)
    case Single => SingleStep(m, v)
    case Direct => DirectStep(m, v)
    case TenPrefix => TenPrefixStep(m, v)
    case Hundred => HundredStep(m)
    case Large => LargeStep(m)
    case Dollars => DollarsStep(m)
    case Cents => CentsStep(m)
    case Default => DefaultStep(m)
    case Halt => (m, Halt)
  }

  /** Runs states from `st` until the machine halts. */
  function Run(m: Machine, st: State, v: Variant): (r: Machine)
    requires st != Halt ==> m.pos <= |m.items|
    ensures r.items == m.items
    decreases |m.items| + 1 - m.pos, Rank(st)
  {
    if st == Halt then m
    else
      var (m', st') := Transition(m, st, v);
      Run(m', st', v)
  }

  /** One state of a run, followed by the rest of the run. */
  lemma RunUnfold(m: Machine, st: State, v: Variant)
    requires st != Halt && m.pos <= |m.items|
    ensures Run(m, st, v) == Run(Transition(m, st, v).0, Transition(m, st, v).1, v)
  {
  }

  /** What the parse returns: no amount on an error, otherwise dollars times one hundred plus cents. */
  function Outcome(m: Machine): (int, Option<Error>)
  {
    if m.err.Some? then (0, m.err) else (m.dollars * 100 + m.cents, None)
  }

  /** The items of a sequence of words, one per word, in order. */
  function Items(words: seq<string>): (items: seq<Item>)
    ensures |items| == |words|
  {
    if words == [] then [] else [NewItem(words[0])] + Items(words[1..])
  }

  /** Every field becomes exactly the item its word classifies to. */
  lemma {:induction false} ItemsIndex(words: seq<string>)
    ensures forall k :: 0 <= k < |words| ==> Items(words)[k] == NewItem(words[k])
  {
    if words != [] {
      ItemsIndex(words[1..]);
      forall k | 0 < k < |words|
        ensures Items(words)[k] == NewItem(words[k])
      {
        assert Items(words)[k] == Items(words[1..])[k - 1];
      }
    }
  }

  /** The parse of a sequence of already-split words by either variant. */
  function RunWords(words: seq<string>, v: Variant): (int, Option<Error>)
  {
    Outcome(Run(Initial(Items(words)), Start, v))
  }

  /** The parse of a sequence of already-split words, as written. */
  function ParseWords(words: seq<string>): (int, Option<Error>)
  {
    RunWords(words, AsWritten)
  }

  /** The parse of a phrase: normalise, split into fields, classify, run. */
  function Numerize(s: string): (int, Option<Error>)
  {
    ParseWords(Fields(Preprocess(s)))
  }

  // ---------------------------------------------------------------------------------------------
  // The parser object.

  class Parser {
    const items: seq<Item>
    var pos: nat
    var prev: int
    var sum: int
    var dollars: int
    var cents: int
    var dollarsDone: bool
    var err: Option<Error>

    function Snapshot(): Machine
      reads this
    {
      Machine(items, pos, prev, sum, dollars, cents, dollarsDone, err)
    }

    /** Normalises and splits the phrase and classifies every field; all accumulators start at zero. */
    constructor (s: string)
      ensures Snapshot() == Initial(Items(Fields(Preprocess(s))))
    {
      var parts := Fields(Preprocess(s));
      var list: seq<Item> := [];
      for k := 0 to |parts|
        invariant |list| == k
        invariant forall j :: 0 <= j < k ==> list[j] == NewItem(parts[j])
      {
        list := list + [NewItem(parts[k])];
      }
      ItemsIndex(parts);
      items := list;
      pos, prev, sum, dollars, cents, dollarsDone, err := 0, 0, 0, 0, 0, false, None;
    }

    /** The current token; an end-of-input item at or past the end. */
    method Peek() returns (i: Item)
      ensures pos >= |items| ==> i.typ == EOL
      ensures pos < |items| ==> i == items[pos]
      ensures i == LookAt(items, pos)
    {
      if pos >= |items| {
        i := Item(EOL, "", 0);
      } else {
        i := items[pos];
      }
    }

    /** Consumes the current token. */
    method Next() returns (i: Item)
      modifies this`pos
      ensures i == LookAt(items, old(pos))
      ensures pos == old(pos) + 1
      ensures Snapshot() == old(Snapshot()).(pos := old(pos) + 1)
    {
      i := Peek();
      pos := pos + 1;
    }

    /** Records the error for `i` after `after` and stops. */
    method ParseError(i: Item, after: Item) returns (next: State)
      modifies this`err
      ensures err == Some(ErrorFor(i, after))
      ensures next == Halt
    {
      if i.typ == ErrorItem {
        err := Some(BadNumber(i.key));
      } else if after.typ == ErrorItem {
        err := Some(UnexpectedStart(i.key));
      } else {
        err := Some(Unexpected(i.key, after.key));
      }
      next := Halt;
    }

    method ParseStart() returns (next: State)
      modifies this
      ensures (Snapshot(), next) == StartStep(old(Snapshot()))
    {
      var i := Peek();
      match i.typ {
        case ZeroItem => next := Zero;
        case SingleItem => next := Single;
        case DirectItem => next := Direct;
        case TenPrefixItem => next := TenPrefix;
        case DefaultItem => next := Default;
        case _ => next := ParseError(i, NoItem);
      }
    }

    method ParseZero() returns (next: State)
      modifies this
      ensures (Snapshot(), next) == ZeroStep(old(Snapshot()))
    {
      var i := Next();
      var nx := Peek();
      match nx.typ {
        case DollarsItem => next := Dollars;
        case CentsItem => next := Cents;
        case EOL => next := Halt;
        case _ => next := ParseError(nx, i);
      }
    }

    method ParseSingle() returns (next: State)
      modifies this
      ensures (Snapshot(), next) == SingleStep(old(Snapshot()), AsWritten)
    {
      var i := Next();
      var nx := Peek();
      match nx.typ {
        case HundredItem =>
          sum := sum + prev;
          prev := i.val;
          next := Hundred;
        case LargeItem =>
          prev := i.val;
          next := Large;
        case DollarsItem =>
          sum := sum + prev + i.val;
          next := Dollars;
        case CentsItem =>
          sum := sum + prev + i.val;
          next := Cents;
        case DefaultItem => next := Default;
        case EOL => next := Halt;
        case _ => next := ParseError(nx, i);
      }
    }

    method ParseDirect() returns (next: State)
      modifies this
      ensures (Snapshot(), next) == DirectStep(old(Snapshot()), AsWritten)
    {
      var i := Next();
      var nx := Peek();
      match nx.typ {
        case HundredItem =>
          prev := i.val;
          next := Large;
        case LargeItem =>
          prev := i.val;
          next := Large;
        case DollarsItem =>
          sum := sum + prev + i.val;
          next := Dollars;
        case CentsItem =>
          sum := sum + prev + i.val;
          next := Cents;
        case DefaultItem => next := Default;
        case _ => next := ParseError(nx, i);
      }
    }

    method ParseTenPrefix() returns (next: State)
      modifies this
      ensures (Snapshot(), next) == TenPrefixStep(old(Snapshot()), AsWritten)
    {
      var i := Next();
      var nx := Peek();
      match nx.typ {
        case SingleItem =>
          prev := prev + i.val + nx.val;
          var _ := Next();
          var ahead := Peek();
          match ahead.typ {
            case HundredItem =>
              sum := sum + prev * ahead.val;
              prev := 0;
              next := Hundred;
            case LargeItem => next := Large;
            case DollarsItem =>
              sum := sum + prev;
              next := Dollars;
            case CentsItem =>
              sum := sum + prev;
              next := Cents;
            case DefaultItem =>
              sum := sum + prev;
              next := Default;
            case _ => next := Single;
          }
        case LargeItem =>
          prev := i.val;
          next := Large;
        case DefaultItem => next := Default;
        case DollarsItem =>
          sum := sum + prev + i.val;
          next := Dollars;
        case CentsItem =>
          sum := sum + prev + i.val;
          next := Cents;
        case _ => next := ParseError(nx, i);
      }
    }

    method ParseHundred() returns (next: State)
      modifies this
      ensures (Snapshot(), next) == HundredStep(old(Snapshot()))
    {
      var i := Next();
      prev := prev * i.val;
      var nx := Peek();
      match nx.typ {
        case SingleItem => next := Single;
        case DirectItem => next := Direct;
        case TenPrefixItem => next := TenPrefix;
        case LargeItem => next := Large;
        case DollarsItem =>
          sum := sum + prev;
          next := Dollars;
        case DefaultItem => next := Default;
        case _ => next := ParseError(nx, i);
      }
    }

    method ParseLarge() returns (next: State)
      modifies this
      ensures (Snapshot(), next) == LargeStep(old(Snapshot()))
    {
      var i := Next();
      sum := sum + prev * i.val;
      prev := 0;
      var nx := Peek();
      match nx.typ {
        case SingleItem => next := Single;
        case DirectItem => next := Direct;
        case TenPrefixItem => next := TenPrefix;
        case DollarsItem => next := Dollars;
        case DefaultItem => next := Default;
        case _ => next := ParseError(nx, i);
      }
    }

    method ParseDollars() returns (next: State)
      modifies this
      ensures (Snapshot(), next) == DollarsStep(old(Snapshot()))
    {
      dollarsDone := true;
      dollars := sum;
      sum := 0;
      prev := 0;
      var i := Next();
      var nx := Peek();
      match nx.typ {
        case SingleItem => next := Single;
        case DirectItem => next := Direct;
        case TenPrefixItem => next := TenPrefix;
        case DefaultItem => next := Default;
        case EOL => next := Halt;
        case _ => next := ParseError(nx, i);
      }
    }

    method ParseCents() returns (next: State)
      modifies this
      ensures (Snapshot(), next) == CentsStep(old(Snapshot()))
    {
      cents := sum;
      sum := 0;
      prev := 0;
      next := Halt;
    }

    method ParseDefault() returns (next: State)
      modifies this
      ensures (Snapshot(), next) == DefaultStep(old(Snapshot()))
    {
      var i := Next();
      var nx := Peek();
      match nx.typ {
        case ZeroItem => next := Zero;
        case SingleItem => next := Single;
        case DirectItem => next := Direct;
        case TenPrefixItem => next := TenPrefix;
        case HundredItem => next := Hundred;
        case DefaultItem => next := Default;
        case DollarsItem => next := Dollars;
        case CentsItem => next := Cents;
        case EOL =>
          if dollarsDone {
            cents := sum;
          }
          next := Halt;
        case _ => next := ParseError(nx, i);
      }
    }

    /** The driver loop: runs states from the start dispatch until one returns no successor. */
    method RunStates()
      requires pos <= |items|
      modifies this
      ensures Snapshot() == Run(old(Snapshot()), Start, AsWritten)
    {
      ghost var final := Run(Snapshot(), Start, AsWritten);
      var state := Start;
      while state != Halt
        invariant state != Halt ==> pos <= |items|
        invariant Run(Snapshot(), state, AsWritten) == final
        decreases |items| + 1 - pos, Rank(state)
      {
        RunUnfold(Snapshot(), state, AsWritten);
        state := Step(state);
      }
    }

    /** What the parse returns once the states have halted: the error if one was recorded, otherwise
        the dollars in cents plus the cents. */
    method Result() returns (amount: int, e: Option<Error>)
      ensures (amount, e) == Outcome(Snapshot())
    {
      if err.Some? {
        return 0, err;
      }
      amount := dollars * 100;
      amount := amount + cents;
      e := None;
    }

    /** Runs the state `st` once. */
    method Step(st: State) returns (next: State)
      modifies this
      ensures (Snapshot(), next) == Transition(old(Snapshot()), st, AsWritten)
    {
      match st {
        case Start => next := ParseStart();
        case Zero => next := ParseZero();
        case Single => next := ParseSingle();
        case Direct => next := ParseDirect();
        case TenPrefix => next := ParseTenPrefix();
        case Hundred => next := ParseHundred();
        case Large => next := ParseLarge();
        case Dollars => next := ParseDollars();
        case Cents => next := ParseCents();
        case Default => next := ParseDefault();
        case Halt => next := Halt;
      }
    }
  }

  /** The count of cents of a phrase is read off the machine its run halts in. */
  lemma NumerizeFinal(s: string, f: Machine)
    requires f == Run(Initial(Items(Fields(Preprocess(s)))), Start, AsWritten)
    ensures Numerize(s) == Outcome(f)
  {
  }

  /** Parses a phrase into a count of cents: runs states from the start dispatch until one halts. */
  method Parse(s: string) returns (amount: int, err: Option<Error>)
    ensures (amount, err) == Numerize(s)
  {
    var p := new Parser(s);
    p.RunStates();
    NumerizeFinal(s, p.Snapshot());
    amount, err := p.Result();
  }
}
