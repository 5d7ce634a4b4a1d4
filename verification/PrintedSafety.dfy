/** Printed read queries pass the read policy, unless a string carries a dynamic marker. */
module PrintedSafety {
  import opened Spelling
  import opened GremlinScanner
  import opened GremlinPolicy
  import opened GroovyPrinter
  import opened PrintedTokens
  import opened PrintedQueries
  import opened PrintedMarkers

  // ---------- Walking over tokens ----------

  /** Apart from markers in strings, the analysis has no objection to token `i`. */
  ghost predicate Fine(shapes: seq<Shape>, i: nat)
    requires i < |shapes|
  {
    var report := ReportAt(shapes, i);
    && !report.writes && (report.doubtful <==> MarkedString(shapes[i]))
    && (forall name :: name in report.methods ==> IsReadMethod(name))
    && shapes[i].value != "{" && shapes[i].value != "}"
    && (shapes[i].value == "." ==> i + 1 < |shapes| && shapes[i + 1].kind == Identifier)
  }

  /** Both bracket checks get from token `i` to token `j`, turning the stack `s` into `t`. */
  ghost predicate Moves(shapes: seq<Shape>, i: nat, j: nat, s: seq<string>, t: seq<string>) {
    && 1 <= i <= j <= |shapes|
    && AdjacencyRefused(shapes, i, s) == AdjacencyRefused(shapes, j, t)
    && Nested(shapes, i, s) == Nested(shapes, j, t)
    && forall k :: i <= k < j ==> Fine(shapes, k)
  }

  lemma MovesJoin(shapes: seq<Shape>, i: nat, j: nat, k: nat, s: seq<string>, t: seq<string>, u: seq<string>)
    requires Moves(shapes, i, j, s, t) && Moves(shapes, j, k, t, u)
    ensures Moves(shapes, i, k, s, u)
  {
  }

  lemma MoveOne(shapes: seq<Shape>, i: nat, s: seq<string>)
    requires 1 <= i < |shapes| && AdjacentAt(shapes, i, s) == Continue && Fine(shapes, i)
    requires shapes[i].kind == PunctuationToken <==> |shapes[i].value| == 1 && IsSafePunctuation(shapes[i].value[0])
    requires IsCloser(shapes[i].value) ==> s != [] && s[|s| - 1] == OpenerOf(shapes[i].value)
    ensures Moves(shapes, i, i + 1, s, AdjacencyStack(shapes[i].value, s))
  {
  }

  /** A mark after which a value may begin. */
  ghost predicate Ready(shape: Shape) {
    shape.kind == PunctuationToken && shape.value in {"(", "[", ",", ":"}
  }

  /** The last token of a value. */
  ghost predicate Ended(shape: Shape) {
    (IsValueKind(shape.kind) || shape.value == "]") && shape.value !in {"(", "[", "{", ",", ":", "}"}
  }

  ghost predicate Starts(shape: Shape) {
    shape.value !in {",", ":", ")", "]", "}", "(", "."}
  }

  lemma StepOpen(shapes: seq<Shape>, i: nat, s: seq<string>)
    requires 1 <= i < |shapes|
    requires (shapes[i] == Mark('[') && Ready(shapes[i - 1]))
             || (shapes[i] == Mark('(') && shapes[i - 1].kind == Identifier
                 && shapes[i - 1].value !in {")", "]", "}"} && !IsArgumentWord(Lower(shapes[i - 1].value)))
    ensures Moves(shapes, i, i + 1, s, s + [shapes[i].value])
  {
    MoveOne(shapes, i, s);
  }

  lemma StepClose(shapes: seq<Shape>, i: nat, s: seq<string>, open: char)
    requires 1 <= i < |shapes|
    requires (shapes[i] == Mark(']') && open == '[') || (shapes[i] == Mark(')') && open == '(')
    ensures Moves(shapes, i, i + 1, s + [[open]], s)
  {
    assert (s + [[open]])[..|s|] == s;
    MoveOne(shapes, i, s + [[open]]);
  }

  lemma StepComma(shapes: seq<Shape>, i: nat, s: seq<string>)
    requires 1 <= i && i + 1 < |shapes| && shapes[i] == Mark(',')
    requires s != [] && Ended(shapes[i - 1]) && Starts(shapes[i + 1])
    ensures Moves(shapes, i, i + 1, s, s)
  {
  }

  lemma StepColon(shapes: seq<Shape>, i: nat, s: seq<string>)
    requires 1 <= i && i + 1 < |shapes| && shapes[i] == Mark(':')
    requires s != [] && s[|s| - 1] == "[" && Starts(shapes[i + 1])
    requires shapes[i - 1].kind == StringToken && Ended(shapes[i - 1]) && !IsCloser(shapes[i - 1].value)
    ensures Moves(shapes, i, i + 1, s, s)
  {
  }

  lemma StepMinus(shapes: seq<Shape>, i: nat, s: seq<string>)
    requires 1 <= i && i + 1 < |shapes| && shapes[i] == Mark('-') && shapes[i + 1].kind == NumberToken
    requires Ready(shapes[i - 1])
    ensures Moves(shapes, i, i + 1, s, s)
  {
    MoveOne(shapes, i, s);
  }

  lemma StepDot(shapes: seq<Shape>, i: nat, s: seq<string>)
    requires 1 <= i && i + 1 < |shapes| && shapes[i] == Mark('.') && shapes[i + 1].kind == Identifier
    ensures Moves(shapes, i, i + 1, s, s)
  {
  }

  /** The name of a read step, spelled in letters. */
  ghost predicate IsStepName(name: string) {
    && IsName(name) && IsReadMethod(Lower(name)) && !IsWriteMethod(Lower(name)) && !IsArgumentWord(Lower(name))
  }

  /** A token that is no mark. */
  ghost predicate Solid(shape: Shape) {
    IsValueKind(shape.kind) && shape.value != "" && shape.value[0] !in ".,()[]{}:-"
  }

  lemma StepName(shapes: seq<Shape>, i: nat, s: seq<string>)
    requires 1 <= i && i + 1 < |shapes| && shapes[i].kind == Identifier && IsStepName(shapes[i].value)
    requires shapes[i + 1] == Mark('(')
    requires shapes[i - 1] == Mark('.') || (Ready(shapes[i - 1]) && IsAnonymousStep(Lower(shapes[i].value)))
    ensures Moves(shapes, i, i + 1, s, s)
  {
    MoveOne(shapes, i, s);
  }

  lemma StepAtom(shapes: seq<Shape>, i: nat, s: seq<string>)
    requires 1 <= i && i + 1 < |shapes| && Solid(shapes[i])
    requires shapes[i].kind == Identifier ==> IsArgumentWord(Lower(shapes[i].value))
    requires Ready(shapes[i - 1]) || (shapes[i - 1] == Mark('-') && shapes[i].kind == NumberToken)
    requires shapes[i + 1].value != "("
    ensures Moves(shapes, i, i + 1, s, s)
  {
    hide Lower, IsWriteMethod;
    MoveOne(shapes, i, s);
  }

  // ---------- Values ----------

  lemma WordsAreLower()
    ensures Lower("null") == "null" && Lower("true") == "true" && Lower("false") == "false"
  {
  }

  lemma WordsAreSolid()
    ensures Solid(Word("null")) && Solid(Word("true")) && Solid(Word("false"))
  {
  }

  lemma AtomsSolid(s: string, n: nat)
    ensures Solid(Quoted(s)) && Solid(Shape(NumberToken, Decimal(n)))
    ensures Solid(Word("null")) && Solid(Word("true")) && Solid(Word("false"))
    ensures Lower("null") == "null" && Lower("true") == "true" && Lower("false") == "false"
  {
    hide Lower;
    WordsAreLower();
    WordsAreSolid();
    DecimalIsDigits(n);
    assert Decimal(n)[0] in Decimal(n);
  }

  lemma ValueEnds(value: Value)
    ensures var shapes := ValueShapes(value); |shapes| > 0 && Starts(shapes[0]) && Ended(shapes[|shapes| - 1])
  {
    hide Decimal, Quote, EntryShapes, ItemShapes;
    AtomsSolid(if value.Text? then value.s else "",
               if value.Integer? then (if value.n < 0 then -value.n else value.n) else 0);
  }

  /** Where a value stands: after a mark that calls for one, before one that can follow it. */
  ghost predicate InPlace(shapes: seq<Shape>, i: nat, j: nat) {
    1 <= i <= j < |shapes| && Ready(shapes[i - 1]) && shapes[j] in [Mark(','), Mark(')'), Mark(']')]
  }

  lemma {:induction false} ValueMoves(shapes: seq<Shape>, i: nat, value: Value, s: seq<string>)
    requires Spells(shapes, i, ValueShapes(value)) && InPlace(shapes, i, i + |ValueShapes(value)|)
    ensures Moves(shapes, i, i + |ValueShapes(value)|, s, s)
    decreases value, 1
  {
    hide Moves, Decimal, Quote, EntryShapes, ItemShapes, Lower, Solid;
    match value
    case Text(text) =>
      SpellsAt(shapes, i, ValueShapes(value), 0);
      AtomsSolid(text, 0);
      StepAtom(shapes, i, s);
    case Map(entries) =>
      BracketsStand(shapes, i, EntryShapes(entries), s);
      EntriesMove(shapes, i + 1, entries, s + ["["]);
      BracketsMove(shapes, i, EntryShapes(entries), s);
    case Array(items) =>
      BracketsStand(shapes, i, ItemShapes(items), s);
      ItemsMove(shapes, i + 1, items, s + ["["]);
      BracketsMove(shapes, i, ItemShapes(items), s);
    case Null =>
      SpellsAt(shapes, i, ValueShapes(value), 0);
      AtomsSolid("", 0);
      StepAtom(shapes, i, s);
    case Boolean(b) =>
      SpellsAt(shapes, i, ValueShapes(value), 0);
      AtomsSolid("", 0);
      StepAtom(shapes, i, s);
    case Integer(n) => IntegerMoves(shapes, i, n, s);
  }

  lemma IntegerMoves(shapes: seq<Shape>, i: nat, n: int, s: seq<string>)
    requires Spells(shapes, i, ValueShapes(Integer(n))) && InPlace(shapes, i, i + |ValueShapes(Integer(n))|)
    ensures Moves(shapes, i, i + |ValueShapes(Integer(n))|, s, s)
  {
    hide Moves, Decimal, Lower, Solid;
    AtomsSolid("", if n < 0 then -n else n);
    SpellsAt(shapes, i, ValueShapes(Integer(n)), 0);
    if n < 0 {
      SpellsAt(shapes, i, ValueShapes(Integer(n)), 1);
      StepMinus(shapes, i, s);
      StepAtom(shapes, i + 1, s);
      MovesJoin(shapes, i, i + 1, i + 2, s, s, s);
    } else {
      StepAtom(shapes, i, s);
    }
  }

  lemma BracketsStand(shapes: seq<Shape>, i: nat, inner: seq<Shape>, s: seq<string>)
    requires Spells(shapes, i, [Mark('[')] + inner + [Mark(']')]) && 1 <= i && Ready(shapes[i - 1])
    ensures var close := i + 1 + |inner|;
            && close < |shapes| && shapes[i] == Mark('[') && shapes[close] == Mark(']') && Spells(shapes, i + 1, inner)
            && Moves(shapes, i, i + 1, s, s + ["["]) && Moves(shapes, close, close + 1, s + ["["], s)
  {
    hide Moves;
    var close := i + 1 + |inner|;
    SpellsJoin(shapes, i, [Mark('[')] + inner, [Mark(']')]);
    SpellsJoin(shapes, i, [Mark('[')], inner);
    SpellsAt(shapes, i, [Mark('[')], 0);
    SpellsAt(shapes, close, [Mark(']')], 0);
    StepOpen(shapes, i, s);
    StepClose(shapes, close, s, '[');
  }

  lemma BracketsMove(shapes: seq<Shape>, i: nat, inner: seq<Shape>, s: seq<string>)
    requires var close := i + 1 + |inner|;
             && Moves(shapes, i, i + 1, s, s + ["["]) && Moves(shapes, i + 1, close, s + ["["], s + ["["])
             && Moves(shapes, close, close + 1, s + ["["], s)
    ensures Moves(shapes, i, i + |[Mark('[')] + inner + [Mark(']')]|, s, s)
  {
  }

  lemma MovesNowhere(shapes: seq<Shape>, i: nat, s: seq<string>)
    requires 1 <= i <= |shapes|
    ensures Moves(shapes, i, i, s, s)
  {
  }

  /** An item, a comma, and the tokens of the remaining items. */
  lemma CommaMoves(shapes: seq<Shape>, i: nat, first: seq<Shape>, rest: seq<Shape>, s: seq<string>)
    requires Spells(shapes, i, first + ([Mark(',')] + rest)) && s != []
    requires first != [] && Ended(first[|first| - 1]) && rest != [] && Starts(rest[0])
    ensures var comma := i + |first|;
            && Spells(shapes, i, first) && comma + 1 < |shapes| && shapes[comma] == Mark(',')
            && Spells(shapes, comma + 1, rest) && Moves(shapes, comma, comma + 1, s, s)
  {
    hide Moves;
    var comma := i + |first|;
    SpellsJoin(shapes, i, first, [Mark(',')] + rest);
    SpellsJoin(shapes, comma, [Mark(',')], rest);
    SpellsAt(shapes, comma, [Mark(',')], 0);
    SpellsAt(shapes, i, first, |first| - 1);
    SpellsAt(shapes, comma + 1, rest, 0);
    StepComma(shapes, comma, s);
  }

  lemma ItemsStart(items: seq<Value>)
    requires items != []
    ensures ItemShapes(items) != [] && Starts(ItemShapes(items)[0])
  {
    hide ValueShapes;
    ValueEnds(items[0]);
  }

  lemma {:induction false} ItemsMove(shapes: seq<Shape>, i: nat, items: seq<Value>, s: seq<string>)
    requires Spells(shapes, i, ItemShapes(items)) && InPlace(shapes, i, i + |ItemShapes(items)|) && s != []
    ensures Moves(shapes, i, i + |ItemShapes(items)|, s, s)
    decreases items, 0
  {
    hide Moves, ValueShapes, Spells, Starts, Ended;
    if items == [] {
      MovesNowhere(shapes, i, s);
    } else if |items| == 1 {
      assert ItemShapes(items) == ValueShapes(items[0]);
      ValueMoves(shapes, i, items[0], s);
    } else {
      var first, rest := ValueShapes(items[0]), ItemShapes(items[1..]);
      var comma, end := i + |first|, i + |ItemShapes(items)|;
      assert ItemShapes(items) == first + ([Mark(',')] + rest);
      ValueEnds(items[0]);
      ItemsStart(items[1..]);
      CommaMoves(shapes, i, first, rest, s);
      assert end == comma + 1 + |rest|;
      ValueMoves(shapes, i, items[0], s);
      ItemsMove(shapes, comma + 1, items[1..], s);
      MovesJoin(shapes, i, comma, comma + 1, s, s, s);
      MovesJoin(shapes, i, comma + 1, end, s, s, s);
    }
  }

  lemma EntryEnds(e: Entry)
    ensures var shapes := EntryShape(e); |shapes| > 0 && Starts(shapes[0]) && Ended(shapes[|shapes| - 1])
  {
    hide ValueShapes, Quote;
    AtomsSolid(e.key, 0);
    ValueEnds(e.value);
  }

  lemma {:induction false} EntryMoves(shapes: seq<Shape>, i: nat, e: Entry, s: seq<string>)
    requires Spells(shapes, i, EntryShape(e)) && InPlace(shapes, i, i + |EntryShape(e)|)
    requires s != [] && s[|s| - 1] == "["
    ensures Moves(shapes, i, i + |EntryShape(e)|, s, s)
    decreases e, 2
  {
    hide Moves, ValueShapes, Quote, Lower, Solid;
    SpellsJoin(shapes, i, [Quoted(e.key)] + [Mark(':')], ValueShapes(e.value));
    KeyMoves(shapes, i, e, s);
    ValueMoves(shapes, i + 2, e.value, s);
    MovesJoin(shapes, i, i + 1, i + 2, s, s, s);
    MovesJoin(shapes, i, i + 2, i + |EntryShape(e)|, s, s, s);
  }

  lemma KeyMoves(shapes: seq<Shape>, i: nat, e: Entry, s: seq<string>)
    requires Spells(shapes, i, [Quoted(e.key)] + [Mark(':')]) && Spells(shapes, i + 2, ValueShapes(e.value))
    requires 1 <= i && Ready(shapes[i - 1]) && s != [] && s[|s| - 1] == "["
    ensures i + 2 < |shapes| && shapes[i + 1] == Mark(':')
    ensures Moves(shapes, i, i + 1, s, s) && Moves(shapes, i + 1, i + 2, s, s)
  {
    hide Moves, ValueShapes, Quote, Lower;
    SpellsJoin(shapes, i, [Quoted(e.key)], [Mark(':')]);
    SpellsAt(shapes, i, [Quoted(e.key)], 0);
    SpellsAt(shapes, i + 1, [Mark(':')], 0);
    AtomsSolid(e.key, 0);
    ValueEnds(e.value);
    SpellsAt(shapes, i + 2, ValueShapes(e.value), 0);
    StepAtom(shapes, i, s);
    StepColon(shapes, i + 1, s);
  }

  lemma EntriesStart(entries: seq<Entry>)
    requires entries != []
    ensures EntryShapes(entries) != [] && Starts(EntryShapes(entries)[0])
  {
  }

  lemma {:induction false} EntriesMove(shapes: seq<Shape>, i: nat, entries: seq<Entry>, s: seq<string>)
    requires Spells(shapes, i, EntryShapes(entries)) && InPlace(shapes, i, i + |EntryShapes(entries)|)
    requires s != [] && s[|s| - 1] == "["
    ensures Moves(shapes, i, i + |EntryShapes(entries)|, s, s)
    decreases entries, 0
  {
    hide Moves, EntryShape, EntryShapes, Spells, Starts, Ended;
    EntriesUnfold(entries);
    if entries == [] {
      MovesNowhere(shapes, i, s);
    } else if |entries| == 1 {
      EntryMoves(shapes, i, entries[0], s);
    } else {
      var first, rest := EntryShape(entries[0]), EntryShapes(entries[1..]);
      var comma, end := i + |first|, i + |EntryShapes(entries)|;
      EntryEnds(entries[0]);
      EntriesStart(entries[1..]);
      CommaMoves(shapes, i, first, rest, s);
      assert end == comma + 1 + |rest|;
      EntryMoves(shapes, i, entries[0], s);
      EntriesMove(shapes, comma + 1, entries[1..], s);
      MovesJoin(shapes, i, comma, comma + 1, s, s, s);
      MovesJoin(shapes, i, comma + 1, end, s, s, s);
    }
  }

  // ---------- Calls ----------

  lemma CallOpens(shapes: seq<Shape>, i: nat, name: string, arguments: seq<Shape>, s: seq<string>)
    requires Spells(shapes, i, CallShapes(name, arguments)) && 1 <= i && IsStepName(name)
    ensures var close := i + 3 + |arguments|;
            && close < |shapes| && shapes[i + 2] == Mark('(') && Spells(shapes, i + 3, arguments)
            && shapes[close] == Mark(')')
            && Moves(shapes, i, i + 3, s, s + ["("]) && Moves(shapes, close, close + 1, s + ["("], s)
  {
    hide Moves, IsReadMethod, IsWriteMethod;
    var close := i + 3 + |arguments|;
    var open := [Mark('.')] + [Word(name)] + [Mark('(')];
    SpellsJoin(shapes, i, open + arguments, [Mark(')')]);
    SpellsJoin(shapes, i, open, arguments);
    SpellsAt(shapes, i, open, 0);
    SpellsAt(shapes, i, open, 1);
    SpellsAt(shapes, i, open, 2);
    SpellsAt(shapes, close, [Mark(')')], 0);
    StepDot(shapes, i, s);
    StepName(shapes, i + 1, s);
    StepOpen(shapes, i + 2, s);
    MovesJoin(shapes, i, i + 1, i + 2, s, s, s);
    MovesJoin(shapes, i, i + 2, i + 3, s, s, s + ["("]);
    StepClose(shapes, close, s, '(');
  }

  lemma CallMoves(shapes: seq<Shape>, i: nat, name: string, arguments: seq<Shape>, s: seq<string>)
    requires Spells(shapes, i, CallShapes(name, arguments)) && 1 <= i && IsStepName(name)
    requires Moves(shapes, i + 3, i + 3 + |arguments|, s + ["("], s + ["("])
    ensures Moves(shapes, i, i + |CallShapes(name, arguments)|, s, s)
  {
    hide Moves, IsStepName;
    var close := i + 3 + |arguments|;
    CallOpens(shapes, i, name, arguments, s);
    MovesJoin(shapes, i, i + 3, close, s, s + ["("], s + ["("]);
    MovesJoin(shapes, i, close, close + 1, s, s + ["("], s);
  }

  lemma ValueCallMoves(shapes: seq<Shape>, i: nat, name: string, value: Value, s: seq<string>)
    requires Spells(shapes, i, CallShapes(name, ValueShapes(value))) && 1 <= i && IsStepName(name)
    ensures Moves(shapes, i, i + |CallShapes(name, ValueShapes(value))|, s, s)
  {
    hide Moves, IsStepName, CallShapes, ValueShapes;
    CallOpens(shapes, i, name, ValueShapes(value), s);
    ValueMoves(shapes, i + 3, value, s + ["("]);
    CallMoves(shapes, i, name, ValueShapes(value), s);
  }

  lemma EmptyCallMoves(shapes: seq<Shape>, i: nat, name: string, s: seq<string>)
    requires Spells(shapes, i, CallShapes(name, [])) && 1 <= i && IsStepName(name)
    ensures Moves(shapes, i, i + |CallShapes(name, [])|, s, s)
  {
    hide Moves, IsStepName, CallShapes;
    CallOpens(shapes, i, name, [], s);
    MovesNowhere(shapes, i + 3, s + ["("]);
    CallMoves(shapes, i, name, [], s);
  }

  const STEP_NAMES := ["V", "hasLabel", "hasId", "has", "outE", "where", "inV", "count", "limit", "id"]

  lemma LoweredNames()
    ensures Lower("V") == "v" && Lower("hasLabel") == "haslabel" && Lower("hasId") == "hasid" && Lower("has") == "has"
    ensures Lower("outE") == "oute" && Lower("where") == "where" && Lower("inV") == "inv"
    ensures Lower("count") == "count" && Lower("limit") == "limit" && Lower("id") == "id"
  {
  }

  lemma StepNames()
    ensures forall name :: name in STEP_NAMES ==> IsStepName(name)
    ensures Lower("inV") == "inv"
  {
    hide Lower;
    LoweredNames();
  }

  /** `'key',value` between the parentheses of `has`. */
  lemma PairMoves(shapes: seq<Shape>, i: nat, e: Entry, s: seq<string>)
    requires Spells(shapes, i, [Quoted(e.key)] + [Mark(',')] + ValueShapes(e.value)) && s != []
    requires InPlace(shapes, i, i + 2 + |ValueShapes(e.value)|)
    ensures Moves(shapes, i, i + 2 + |ValueShapes(e.value)|, s, s)
  {
    hide Moves, ValueShapes, Quote, Lower;
    SpellsJoin(shapes, i, [Quoted(e.key)] + [Mark(',')], ValueShapes(e.value));
    SpellsJoin(shapes, i, [Quoted(e.key)], [Mark(',')]);
    SpellsAt(shapes, i, [Quoted(e.key)], 0);
    SpellsAt(shapes, i + 1, [Mark(',')], 0);
    ValueEnds(e.value);
    SpellsAt(shapes, i + 2, ValueShapes(e.value), 0);
    AtomsSolid(e.key, 0);
    StepAtom(shapes, i, s);
    StepComma(shapes, i + 1, s);
    ValueMoves(shapes, i + 2, e.value, s);
    MovesJoin(shapes, i, i + 1, i + 2, s, s, s);
    MovesJoin(shapes, i, i + 2, i + 2 + |ValueShapes(e.value)|, s, s, s);
  }

  lemma HasCallMoves(shapes: seq<Shape>, i: nat, e: Entry, s: seq<string>)
    requires Spells(shapes, i, CallShapes("has", [Quoted(e.key)] + [Mark(',')] + ValueShapes(e.value))) && 1 <= i
    ensures Moves(shapes, i, i + |CallShapes("has", [Quoted(e.key)] + [Mark(',')] + ValueShapes(e.value))|, s, s)
  {
    hide Moves, IsStepName, CallShapes, ValueShapes, Quote, Lower;
    var arguments := [Quoted(e.key)] + [Mark(',')] + ValueShapes(e.value);
    StepNames();
    CallOpens(shapes, i, "has", arguments, s);
    PairMoves(shapes, i + 3, e, s + ["("]);
    CallMoves(shapes, i, "has", arguments, s);
  }

  lemma {:induction false} StepsMove(shapes: seq<Shape>, i: nat, criteria: seq<Entry>, s: seq<string>)
    requires Spells(shapes, i, StepsShapes(criteria)) && 1 <= i
    ensures Moves(shapes, i, i + |StepsShapes(criteria)|, s, s)
    decreases criteria
  {
    hide Moves, Spells, CallShapes, ValueShapes;
    SpellsWithin(shapes, i, StepsShapes(criteria));
    if criteria == [] {
      MovesNowhere(shapes, i, s);
    } else {
      var e := criteria[0];
      var next := i + |StepShapes(e)|;
      SpellsJoin(shapes, i, StepShapes(e), StepsShapes(criteria[1..]));
      if e.key == "id" {
        StepNames();
        ValueCallMoves(shapes, i, "hasId", e.value, s);
      } else {
        HasCallMoves(shapes, i, e, s);
      }
      StepsMove(shapes, next, criteria[1..], s);
      MovesJoin(shapes, i, next, i + |StepsShapes(criteria)|, s, s, s);
    }
  }

  lemma SelectMoves(shapes: seq<Shape>, i: nat, name: Value, criteria: seq<Entry>, s: seq<string>)
    requires Spells(shapes, i, SelectShapes(name, criteria)) && 1 <= i
    ensures Moves(shapes, i, i + |SelectShapes(name, criteria)|, s, s)
  {
    hide Moves, IsStepName, CallShapes, ValueShapes, StepsShapes, Lower;
    var call := CallShapes("hasLabel", ValueShapes(name));
    SpellsJoin(shapes, i, call, StepsShapes(criteria));
    StepNames();
    ValueCallMoves(shapes, i, "hasLabel", name, s);
    StepsMove(shapes, i + |call|, criteria, s);
    MovesJoin(shapes, i, i + |call|, i + |SelectShapes(name, criteria)|, s, s, s);
  }

  lemma TargetMoves(shapes: seq<Shape>, i: nat, name: Value, criteria: seq<Entry>, s: seq<string>)
    requires Spells(shapes, i, TargetShapes(name, criteria)) && 1 <= i && shapes[i - 1] == Mark('(')
    ensures Moves(shapes, i, i + |TargetShapes(name, criteria)|, s, s)
  {
    hide Moves, SelectShapes, IsReadMethod, IsWriteMethod, Lower;
    var start := [Word("inV")] + [Mark('(')] + [Mark(')')];
    SpellsJoin(shapes, i, start, SelectShapes(name, criteria));
    SpellsAt(shapes, i, start, 0);
    SpellsAt(shapes, i, start, 1);
    SpellsAt(shapes, i, start, 2);
    StepNames();
    assert "inV" in STEP_NAMES;
    StepName(shapes, i, s);
    StepOpen(shapes, i + 1, s);
    StepClose(shapes, i + 2, s, '(');
    SelectMoves(shapes, i + 3, name, criteria, s);
    MovesJoin(shapes, i, i + 1, i + 2, s, s, s + ["("]);
    MovesJoin(shapes, i, i + 2, i + 3, s, s + ["("], s);
    MovesJoin(shapes, i, i + 3, i + |TargetShapes(name, criteria)|, s, s, s);
  }

  lemma EdgeTailMoves(shapes: seq<Shape>, i: nat, edge: Value, targetLabel: Value, target: seq<Entry>, s: seq<string>)
    requires Spells(shapes, i, EdgeTailShapes(edge, targetLabel, target)) && 1 <= i
    ensures Moves(shapes, i, i + |EdgeTailShapes(edge, targetLabel, target)|, s, s)
  {
    hide Moves, IsStepName, CallShapes, ValueShapes, TargetShapes, Lower;
    var out, inner := CallShapes("outE", ValueShapes(edge)), TargetShapes(targetLabel, target);
    var j := i + |out|;
    SpellsJoin(shapes, i, out, CallShapes("where", inner));
    StepNames();
    ValueCallMoves(shapes, i, "outE", edge, s);
    CallOpens(shapes, j, "where", inner, s);
    TargetMoves(shapes, j + 3, targetLabel, target, s + ["("]);
    CallMoves(shapes, j, "where", inner, s);
    MovesJoin(shapes, i, j, i + |EdgeTailShapes(edge, targetLabel, target)|, s, s, s);
  }

  lemma SuffixMoves(shapes: seq<Shape>, i: nat, suffix: Suffix)
    requires Spells(shapes, i, SuffixShapes(suffix)) && 1 <= i
    ensures Moves(shapes, i, i + |SuffixShapes(suffix)|, [], [])
  {
    hide Moves, IsStepName, CallShapes, Lower, Spells;
    StepNames();
    match suffix
    case Count =>
      EmptyCallMoves(shapes, i, "count", []);
    case LimitedIds =>
      var two := [Shape(NumberToken, "2")];
      var limit, id := CallShapes("limit", two), CallShapes("id", []);
      SpellsJoin(shapes, i, limit, id);
      CallOpens(shapes, i, "limit", two, []);
      SpellsAt(shapes, i + 3, two, 0);
      StepAtom(shapes, i + 3, [] + ["("]);
      CallMoves(shapes, i, "limit", two, []);
      EmptyCallMoves(shapes, i + |limit|, "id", []);
      MovesJoin(shapes, i, i + |limit|, i + |limit + id|, [], [], []);
  }

  /** The fixed start of every printed query. */
  ghost predicate StartsAtVertices(shapes: seq<Shape>) {
    |shapes| >= 5 && shapes[0] == Word("g") && shapes[1] == Mark('.') && shapes[2] == Word("V")
    && shapes[3] == Mark('(')
  }

  lemma VertexMoves(shapes: seq<Shape>, name: Value, criteria: seq<Entry>)
    requires Spells(shapes, 0, VertexShapes(name, criteria))
    ensures StartsAtVertices(shapes)
    ensures Moves(shapes, 1, |VertexShapes(name, criteria)|, [], [])
  {
    hide Moves, IsStepName, SelectShapes, Lower;
    var root := [Word("g")] + CallShapes("V", []);
    SpellsJoin(shapes, 0, root, SelectShapes(name, criteria));
    SpellsJoin(shapes, 0, [Word("g")], CallShapes("V", []));
    SpellsAt(shapes, 0, root, 0);
    SpellsAt(shapes, 0, root, 1);
    SpellsAt(shapes, 0, root, 2);
    SpellsAt(shapes, 0, root, 3);
    StepNames();
    EmptyCallMoves(shapes, 1, "V", []);
    SelectMoves(shapes, 5, name, criteria, []);
    MovesJoin(shapes, 1, 5, |VertexShapes(name, criteria)|, [], [], []);
  }

  // ---------- The verdict ----------

  lemma {:induction false} MethodsRead(shapes: seq<Shape>, n: nat)
    requires 1 <= n <= |shapes| && ReportAt(shapes, 0).methods == [] && forall k :: 1 <= k < n ==> Fine(shapes, k)
    ensures forall name :: name in Methods(shapes, n) ==> IsReadMethod(name)
  {
    hide ReportAt, IsReadMethod;
    if n > 1 {
      MethodsRead(shapes, n - 1);
      assert Fine(shapes, n - 1);
    } else {
      assert Methods(shapes, 0) == [];
    }
  }

  lemma RootIsFine(shapes: seq<Shape>)
    requires StartsAtVertices(shapes)
    ensures |shapes| >= 5 && ReportAt(shapes, 0) == Report([], false, false) && !MarkedString(shapes[0])
    ensures Rooted(shapes) && Nested(shapes, 0, []) == Nested(shapes, 1, [])
  {
    assert Lower("g") == "g" && Lower("V") == "v";
  }

  lemma TokensFine(shapes: seq<Shape>)
    requires StartsAtVertices(shapes) && forall k :: 1 <= k < |shapes| ==> Fine(shapes, k)
    ensures !Writes(shapes) && Braceless(shapes) && DotsNamed(shapes)
    ensures Doubtful(shapes) <==> AnyMarked(shapes)
    ensures forall name :: name in Methods(shapes, |shapes|) ==> IsReadMethod(name)
  {
    hide ReportAt, MarkedString, IsReadMethod, Fine, StartsAtVertices;
    RootIsFine(shapes);
    MethodsRead(shapes, |shapes|);
    forall i | 0 <= i < |shapes|
      ensures !ReportAt(shapes, i).writes && (ReportAt(shapes, i).doubtful <==> MarkedString(shapes[i]))
      ensures shapes[i].value != "{" && shapes[i].value != "}"
    {
      EachFine(shapes, i);
    }
    forall i | 0 <= i < |shapes| && shapes[i].value == "."
      ensures i + 1 < |shapes| && shapes[i + 1].kind == Identifier
    {
      EachFine(shapes, i);
    }
  }

  lemma EachFine(shapes: seq<Shape>, i: nat)
    requires StartsAtVertices(shapes) && i < |shapes| && (i > 0 ==> Fine(shapes, i))
    ensures !ReportAt(shapes, i).writes && (ReportAt(shapes, i).doubtful <==> MarkedString(shapes[i]))
    ensures shapes[i].value != "{" && shapes[i].value != "}"
    ensures shapes[i].value == "." ==> i + 1 < |shapes| && shapes[i + 1].kind == Identifier
  {
  }

  /** A query whose tokens the checks walk through is safe exactly when no string is marked. */
  lemma SafeUnlessMarked(query: string, shapes: seq<Shape>)
    requires query != "" && query[0] == 'g'
    requires Shapes(Lex(query).tokens) == shapes && Lex(query).valid && Clean(Lex(query).normalized)
    requires StartsAtVertices(shapes) && Moves(shapes, 1, |shapes|, [], [])
    ensures Classify(query) == if AnyMarked(shapes) then Uncertain else Safe
  {
    hide IsReadMethod, Lex, Clean, ReportAt, Fine, Rooted, Writes, Doubtful, DotsNamed, Braceless, AnyMarked, Methods;
    RootIsFine(shapes);
    TokensFine(shapes);
    CleanHasNoMarker(Lex(query).normalized);
    assert !IsBlank(query);
  }

  /** The vertex and endpoint match queries, with either suffix, are safe exactly when no
      string in them carries a dynamic marker, and are otherwise uncertain, never unsafe. */
  lemma VertexQueriesPass(name: Value, criteria: seq<Entry>, suffix: Suffix)
    ensures Classify(VertexQuery(name, criteria) + SuffixText(suffix))
            == if Marked(name) || CriteriaMarked(criteria) then Uncertain else Safe
  {
    hide Moves, Classify, Lex, AnyMarked, Marked, CriteriaMarked, VertexShapes, SuffixShapes, SuffixText, Clean;
    VertexQueryTokens(name, criteria, suffix);
    var vertex, tail := VertexShapes(name, criteria), SuffixShapes(suffix);
    var shapes := vertex + tail;
    assert Spells(shapes, 0, vertex + tail);
    SpellsJoin(shapes, 0, vertex, tail);
    VertexMoves(shapes, name, criteria);
    VertexIsLong(name, criteria);
    SuffixMoves(shapes, |vertex|, suffix);
    MovesJoin(shapes, 1, |vertex|, |shapes|, [], [], []);
    SafeUnlessMarked(VertexQuery(name, criteria) + SuffixText(suffix), shapes);
    VertexMarks(name, criteria);
    SuffixMarks(suffix);
    AnyMarkedJoins(vertex, tail);
  }

  lemma VertexIsLong(name: Value, criteria: seq<Entry>)
    ensures |VertexShapes(name, criteria)| >= 1
    ensures VertexQuery(name, criteria) != "" && VertexQuery(name, criteria)[0] == 'g'
  {
  }

  /** The edge match query likewise. */
  lemma EdgeQueriesPass(sourceLabel: Value, source: seq<Entry>, edge: Value,
                        targetLabel: Value, target: seq<Entry>, suffix: Suffix)
    ensures Classify(EdgeQuery(sourceLabel, source, edge, targetLabel, target) + SuffixText(suffix))
            == if Marked(sourceLabel) || CriteriaMarked(source) || Marked(edge) || Marked(targetLabel)
                  || CriteriaMarked(target)
               then Uncertain else Safe
  {
    hide Moves, Classify, Lex, AnyMarked, Marked, CriteriaMarked, Clean;
    hide VertexShapes, EdgeTailShapes, SuffixShapes, SuffixText, VertexQuery;
    EdgeQueryTokens(sourceLabel, source, edge, targetLabel, target, suffix);
    var a, b, c := VertexShapes(sourceLabel, source), EdgeTailShapes(edge, targetLabel, target), SuffixShapes(suffix);
    var shapes := a + b + c;
    assert Spells(shapes, 0, a + b + c);
    SpellsJoin(shapes, 0, a + b, c);
    SpellsJoin(shapes, 0, a, b);
    VertexMoves(shapes, sourceLabel, source);
    VertexIsLong(sourceLabel, source);
    EdgeTailMoves(shapes, |a|, edge, targetLabel, target, []);
    SuffixMoves(shapes, |a + b|, suffix);
    MovesJoin(shapes, 1, |a|, |a + b|, [], [], []);
    MovesJoin(shapes, 1, |a + b|, |shapes|, [], [], []);
    SafeUnlessMarked(EdgeQuery(sourceLabel, source, edge, targetLabel, target) + SuffixText(suffix), shapes);
    VertexMarks(sourceLabel, source);
    EdgeTailMarks(edge, targetLabel, target);
    SuffixMarks(suffix);
    AnyMarkedJoins(a + b, c);
    AnyMarkedJoins(a, b);
  }
}
