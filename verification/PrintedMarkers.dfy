/** Which printed values carry a dynamic marker, and where it shows among the tokens. */
module PrintedMarkers {
  import opened GremlinScanner
  import opened GremlinPolicy
  import opened GroovyPrinter
  import opened PrintedTokens
  import opened PrintedQueries

  // ---------- Markers ----------

  /** Some string in the value carries a dynamic marker. */
  predicate Marked(value: Value) {
    match value
    case Text(s) => HasMarker(s)
    case Map(entries) => EntriesMarked(entries)
    case Array(items) => ItemsMarked(items)
    case _ => false
  }

  predicate ItemsMarked(items: seq<Value>) {
    items != [] && (Marked(items[0]) || ItemsMarked(items[1..]))
  }

  predicate EntriesMarked(entries: seq<Entry>) {
    entries != [] && (HasMarker(entries[0].key) || Marked(entries[0].value) || EntriesMarked(entries[1..]))
  }

  /** As above, for match criteria: the key `id` selects by identifier and is not printed. */
  predicate CriteriaMarked(criteria: seq<Entry>) {
    criteria != []
    && ((criteria[0].key != "id" && HasMarker(criteria[0].key)) || Marked(criteria[0].value)
        || CriteriaMarked(criteria[1..]))
  }

  predicate MarkedString(shape: Shape) {
    shape.kind == StringToken && HasMarker(shape.value)
  }

  predicate AnyMarked(shapes: seq<Shape>) {
    exists k :: 0 <= k < |shapes| && MarkedString(shapes[k])
  }

  lemma AnyMarkedJoins(first: seq<Shape>, second: seq<Shape>)
    ensures AnyMarked(first + second) <==> AnyMarked(first) || AnyMarked(second)
  {
    var both := first + second;
    if k :| 0 <= k < |first| && MarkedString(first[k]) {
      assert MarkedString(both[k]);
    } else if k :| 0 <= k < |second| && MarkedString(second[k]) {
      assert MarkedString(both[|first| + k]);
    }
  }

  lemma AnyMarkedOne(shape: Shape)
    ensures AnyMarked([shape]) <==> MarkedString(shape)
  {
    assert [shape][0] == shape;
  }

  /** Where the marker of a joined text lies. */
  lemma MarkerJoins(first: string, second: string)
    ensures HasMarker(first + second) <==>
              HasMarker(first) || HasMarker(second)
              || (first != "" && second != "" && MarkerAt(first[|first| - 1], second[0]))
  {
    var both := first + second;
    if k :| 0 <= k < |first| - 1 && MarkerAt(first[k], first[k + 1]) {
      assert MarkerAt(both[k], both[k + 1]);
    } else if k :| 0 <= k < |second| - 1 && MarkerAt(second[k], second[k + 1]) {
      assert MarkerAt(both[|first| + k], both[|first| + k + 1]);
    } else if first != "" && second != "" && MarkerAt(first[|first| - 1], second[0]) {
      assert MarkerAt(both[|first| - 1], both[|first|]);
    }
  }

  lemma EscapedCharFacts(c: char)
    ensures var e := EscapeChar(c);
            && |e| > 0 && !HasMarker(e)
            && (e[0] == c || (e[0] == '\\' && c !in "{>"))
            && (e[|e| - 1] == c || (e[|e| - 1] !in "$#-" && c !in "$#-"))
  {
  }

  /** Escaping neither makes nor hides a marker. */
  lemma {:induction false} EscapeKeepsMarkers(s: string)
    ensures HasMarker(Escape(s)) <==> HasMarker(s)
    ensures s != "" ==> Escape(s) != "" && (Escape(s)[0] == s[0] || (Escape(s)[0] == '\\' && s[0] !in "{>"))
  {
    hide EscapeChar, HasMarker;
    if s == "" {
      EmptyEscape();
    } else {
      var e := EscapeChar(s[0]);
      EscapedCharFacts(s[0]);
      EscapeKeepsMarkers(s[1..]);
      MarkerJoins(e, Escape(s[1..]));
      MarkerJoins([s[0]], s[1..]);
      SingleHasNoMarker(s[0]);
      assert [s[0]] + s[1..] == s;
    }
  }

  lemma SingleHasNoMarker(c: char)
    ensures !HasMarker([c])
  {
  }

  lemma QuoteKeepsMarkers(s: string)
    ensures HasMarker(Quote(s)) <==> HasMarker(s)
  {
    hide Escape, HasMarker;
    EscapeKeepsMarkers(s);
    SingleHasNoMarker('\'');
    MarkerJoins("'", Escape(s));
    MarkerJoins("'" + Escape(s), "'");
  }

  lemma {:induction false} ValueMarks(value: Value)
    ensures AnyMarked(ValueShapes(value)) <==> Marked(value)
    decreases value, 1
  {
    hide AnyMarked, HasMarker, Decimal, Quote;
    match value
    case Text(s) =>
      AnyMarkedOne(Quoted(s));
      QuoteKeepsMarkers(s);
    case Map(entries) =>
      EntriesMark(entries);
      BracketsMark(EntryShapes(entries));
    case Array(items) =>
      ItemsMark(items);
      BracketsMark(ItemShapes(items));
    case Null =>
      AnyMarkedOne(Word("null"));
    case Boolean(b) =>
      AnyMarkedOne(Word(if b then "true" else "false"));
    case Integer(n) =>
      if n < 0 {
        AnyMarkedOne(Mark('-'));
        AnyMarkedOne(Shape(NumberToken, Decimal(-n)));
        AnyMarkedJoins([Mark('-')], [Shape(NumberToken, Decimal(-n))]);
      } else {
        AnyMarkedOne(Shape(NumberToken, Decimal(n)));
      }
  }

  lemma BracketsMark(inner: seq<Shape>)
    ensures AnyMarked([Mark('[')] + inner + [Mark(']')]) <==> AnyMarked(inner)
  {
    hide AnyMarked;
    AnyMarkedOne(Mark('['));
    AnyMarkedOne(Mark(']'));
    AnyMarkedJoins([Mark('[')], inner);
    AnyMarkedJoins([Mark('[')] + inner, [Mark(']')]);
  }

  lemma {:induction false} ItemsMark(items: seq<Value>)
    ensures AnyMarked(ItemShapes(items)) <==> ItemsMarked(items)
    decreases items, 0
  {
    hide AnyMarked, ValueShapes, Marked;
    if items == [] {
      NothingMarked();
    } else {
      ValueMarks(items[0]);
      ItemsMark(items[1..]);
      AnyMarkedOne(Mark(','));
      AnyMarkedJoins([Mark(',')], ItemShapes(items[1..]));
      AnyMarkedJoins(ValueShapes(items[0]), [Mark(',')] + ItemShapes(items[1..]));
      assert ValueShapes(items[0]) + [] == ValueShapes(items[0]);
    }
  }

  lemma NothingMarked()
    ensures !AnyMarked([])
  {
  }

  lemma {:induction false} EntryMarks(e: Entry)
    ensures AnyMarked(EntryShape(e)) <==> HasMarker(e.key) || Marked(e.value)
    decreases e, 2
  {
    hide AnyMarked, HasMarker, Quote, ValueShapes, Marked;
    ValueMarks(e.value);
    QuoteKeepsMarkers(e.key);
    AnyMarkedOne(Quoted(e.key));
    AnyMarkedOne(Mark(':'));
    AnyMarkedJoins([Quoted(e.key)], [Mark(':')]);
    AnyMarkedJoins([Quoted(e.key)] + [Mark(':')], ValueShapes(e.value));
  }

  lemma {:induction false} EntriesMark(entries: seq<Entry>)
    ensures AnyMarked(EntryShapes(entries)) <==> EntriesMarked(entries)
    decreases entries, 0
  {
    hide AnyMarked, EntryShape, EntryShapes, HasMarker, Marked;
    EntriesUnfold(entries);
    if entries == [] {
      NothingMarked();
    } else {
      EntryMarks(entries[0]);
      EntriesMark(entries[1..]);
      AnyMarkedOne(Mark(','));
      AnyMarkedJoins([Mark(',')], EntryShapes(entries[1..]));
      AnyMarkedJoins(EntryShape(entries[0]), [Mark(',')] + EntryShapes(entries[1..]));
      if |entries| == 1 {
        EntriesUnfold(entries[1..]);
        NothingMarked();
      }
    }
  }

  lemma CallMarks(name: string, arguments: seq<Shape>)
    ensures AnyMarked(CallShapes(name, arguments)) <==> AnyMarked(arguments)
  {
    hide AnyMarked;
    AnyMarkedOne(Mark('.'));
    AnyMarkedOne(Word(name));
    AnyMarkedOne(Mark('('));
    AnyMarkedOne(Mark(')'));
    AnyMarkedJoins([Mark('.')], [Word(name)]);
    AnyMarkedJoins([Mark('.')] + [Word(name)], [Mark('(')]);
    AnyMarkedJoins([Mark('.')] + [Word(name)] + [Mark('(')], arguments);
    AnyMarkedJoins([Mark('.')] + [Word(name)] + [Mark('(')] + arguments, [Mark(')')]);
  }

  lemma StepMarks(e: Entry)
    ensures AnyMarked(StepShapes(e)) <==> (e.key != "id" && HasMarker(e.key)) || Marked(e.value)
  {
    hide AnyMarked, HasMarker, Quote, ValueShapes, Marked, CallShapes;
    ValueMarks(e.value);
    if e.key == "id" {
      CallMarks("hasId", ValueShapes(e.value));
    } else {
      var arguments := [Quoted(e.key)] + [Mark(',')] + ValueShapes(e.value);
      CallMarks("has", arguments);
      QuoteKeepsMarkers(e.key);
      AnyMarkedOne(Quoted(e.key));
      AnyMarkedOne(Mark(','));
      AnyMarkedJoins([Quoted(e.key)], [Mark(',')]);
      AnyMarkedJoins([Quoted(e.key)] + [Mark(',')], ValueShapes(e.value));
    }
  }

  lemma {:induction false} StepsMark(criteria: seq<Entry>)
    ensures AnyMarked(StepsShapes(criteria)) <==> CriteriaMarked(criteria)
  {
    hide AnyMarked, StepShapes, HasMarker, Marked;
    if criteria == [] {
      NothingMarked();
    } else {
      StepMarks(criteria[0]);
      StepsMark(criteria[1..]);
      AnyMarkedJoins(StepShapes(criteria[0]), StepsShapes(criteria[1..]));
    }
  }

  lemma SelectMarks(name: Value, criteria: seq<Entry>)
    ensures AnyMarked(SelectShapes(name, criteria)) <==> Marked(name) || CriteriaMarked(criteria)
  {
    hide AnyMarked, CallShapes, Marked, CriteriaMarked, ValueShapes;
    ValueMarks(name);
    CallMarks("hasLabel", ValueShapes(name));
    StepsMark(criteria);
    AnyMarkedJoins(CallShapes("hasLabel", ValueShapes(name)), StepsShapes(criteria));
  }

  lemma VertexMarks(name: Value, criteria: seq<Entry>)
    ensures AnyMarked(VertexShapes(name, criteria)) <==> Marked(name) || CriteriaMarked(criteria)
  {
    hide AnyMarked, CallShapes, SelectShapes;
    SelectMarks(name, criteria);
    NothingMarked();
    CallMarks("V", []);
    AnyMarkedOne(Word("g"));
    AnyMarkedJoins([Word("g")], CallShapes("V", []));
    AnyMarkedJoins([Word("g")] + CallShapes("V", []), SelectShapes(name, criteria));
  }

  lemma EdgeTailMarks(edge: Value, targetLabel: Value, target: seq<Entry>)
    ensures AnyMarked(EdgeTailShapes(edge, targetLabel, target))
            <==> Marked(edge) || Marked(targetLabel) || CriteriaMarked(target)
  {
    hide AnyMarked, CallShapes, SelectShapes, ValueShapes, Marked, CriteriaMarked;
    ValueMarks(edge);
    CallMarks("outE", ValueShapes(edge));
    SelectMarks(targetLabel, target);
    AnyMarkedOne(Word("inV"));
    AnyMarkedOne(Mark('('));
    AnyMarkedOne(Mark(')'));
    AnyMarkedJoins([Word("inV")], [Mark('(')]);
    AnyMarkedJoins([Word("inV")] + [Mark('(')], [Mark(')')]);
    AnyMarkedJoins([Word("inV")] + [Mark('(')] + [Mark(')')], SelectShapes(targetLabel, target));
    CallMarks("where", TargetShapes(targetLabel, target));
    AnyMarkedJoins(CallShapes("outE", ValueShapes(edge)), CallShapes("where", TargetShapes(targetLabel, target)));
  }

  lemma SuffixMarks(suffix: Suffix)
    ensures !AnyMarked(SuffixShapes(suffix))
  {
  }
}
