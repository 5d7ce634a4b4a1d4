/** Read queries built by the printer, and their way through the scanner and the read policy. */
module PrintedQueries {
  import opened Spelling
  import opened GremlinScanner
  import opened GremlinPolicy
  import opened GroovyPrinter
  import opened PrintedTokens

  // ---------- The tokens of a query ----------

  /** `.name(arguments)`. */
  function CallText(name: string, arguments: string): string {
    "." + name + "(" + arguments + ")"
  }

  function CallShapes(name: string, arguments: seq<Shape>): seq<Shape> {
    [Mark('.')] + [Word(name)] + [Mark('(')] + arguments + [Mark(')')]
  }

  lemma CallStands(query: string, i: nat, name: string, arguments: string)
    requires Spells(query, i, CallText(name, arguments)) && IsName(name)
    ensures var inner := i + |name| + 2;
            && Emits(query, i, inner, [Mark('.')] + [Word(name)] + [Mark('(')])
            && Spells(query, inner, arguments)
            && Stops(query, inner + |arguments|) && query[inner + |arguments|] == ')'
            && Emits(query, inner + |arguments|, inner + |arguments| + 1, [Mark(')')])
  {
    hide Emits, Spells, IsName;
    var inner := i + |name| + 2;
    SpellsJoin(query, i, "." + name + "(" + arguments, ")");
    SpellsJoin(query, i, "." + name + "(", arguments);
    SpellsJoin(query, i, "." + name, "(");
    SpellsJoin(query, i, ".", name);
    EmitSpelled(query, i, '.');
    EmitSpelled(query, inner - 1, '(');
    EmitSpelled(query, inner + |arguments|, ')');
    EmitName(query, i + 1, name);
    EmitsJoin(query, i, i + 1, inner - 1, [Mark('.')], [Word(name)]);
    EmitsJoin(query, i, inner - 1, inner, [Mark('.')] + [Word(name)], [Mark('(')]);
  }

  lemma CallEmits(query: string, i: nat, name: string, arguments: string, shapes: seq<Shape>)
    requires Spells(query, i, CallText(name, arguments)) && IsName(name)
    requires Emits(query, i + |name| + 2, i + |name| + 2 + |arguments|, shapes)
    ensures Emits(query, i, i + |CallText(name, arguments)|, CallShapes(name, shapes))
  {
    hide Emits;
    var inner := i + |name| + 2;
    CallStands(query, i, name, arguments);
    EmitsJoin(query, i, inner, inner + |arguments|, [Mark('.')] + [Word(name)] + [Mark('(')], shapes);
    EmitsJoin(query, i, inner + |arguments|, inner + |arguments| + 1,
              [Mark('.')] + [Word(name)] + [Mark('(')] + shapes, [Mark(')')]);
  }

  lemma ValueCallEmits(query: string, i: nat, name: string, value: Value)
    requires Spells(query, i, CallText(name, Print(value))) && IsName(name)
    ensures Emits(query, i, i + |CallText(name, Print(value))|, CallShapes(name, ValueShapes(value)))
  {
    hide Emits, Print, CallShapes;
    CallStands(query, i, name, Print(value));
    ValueEmits(query, i + |name| + 2, value);
    CallEmits(query, i, name, Print(value), ValueShapes(value));
  }

  lemma EmptyCallEmits(query: string, i: nat, name: string)
    requires Spells(query, i, CallText(name, "")) && IsName(name)
    ensures Emits(query, i, i + |CallText(name, "")|, CallShapes(name, []))
  {
    hide Emits;
    CallStands(query, i, name, "");
    EmitsNothing(query, i + |name| + 2);
    CallEmits(query, i, name, "", []);
  }

  function StepShapes(e: Entry): seq<Shape> {
    if e.key == "id" then CallShapes("hasId", ValueShapes(e.value))
    else CallShapes("has", [Quoted(e.key)] + [Mark(',')] + ValueShapes(e.value))
  }

  function StepsShapes(criteria: seq<Entry>): seq<Shape> {
    if criteria == [] then [] else StepShapes(criteria[0]) + StepsShapes(criteria[1..])
  }

  lemma HasCallEmits(query: string, i: nat, e: Entry)
    requires Spells(query, i, CallText("has", Quote(e.key) + "," + Print(e.value)))
    ensures Emits(query, i, i + |CallText("has", Quote(e.key) + "," + Print(e.value))|,
                  CallShapes("has", [Quoted(e.key)] + [Mark(',')] + ValueShapes(e.value)))
  {
    hide Emits, Print, Quote, CallShapes;
    var inner := i + 5;
    var comma := inner + |Quote(e.key)|;
    var arguments := Quote(e.key) + "," + Print(e.value);
    CallStands(query, i, "has", arguments);
    SpellsJoin(query, inner, Quote(e.key) + ",", Print(e.value));
    SpellsJoin(query, inner, Quote(e.key), ",");
    EmitSpelled(query, comma, ',');
    EmitLiteral(query, inner, e.key);
    ValueEmits(query, comma + 1, e.value);
    EmitsJoin(query, inner, comma, comma + 1, [Quoted(e.key)], [Mark(',')]);
    EmitsJoin(query, inner, comma + 1, inner + |arguments|, [Quoted(e.key)] + [Mark(',')], ValueShapes(e.value));
    CallEmits(query, i, "has", arguments, [Quoted(e.key)] + [Mark(',')] + ValueShapes(e.value));
  }

  lemma StepText(e: Entry)
    ensures HasStep(e.key, e.value) ==
              if e.key == "id" then CallText("hasId", Print(e.value))
              else CallText("has", Quote(e.key) + "," + Print(e.value))
  {
  }

  lemma {:induction false} StepsEmit(query: string, i: nat, criteria: seq<Entry>)
    requires Spells(query, i, HasSteps(criteria))
    ensures Emits(query, i, i + |HasSteps(criteria)|, StepsShapes(criteria))
    decreases criteria
  {
    hide Emits, Spells, HasStep, CallText, CallShapes, Print, Quote;
    if criteria == [] {
      SpellsWithin(query, i, HasSteps(criteria));
      EmitsNothing(query, i);
    } else {
      var e := criteria[0];
      var next := i + |HasStep(e.key, e.value)|;
      StepText(e);
      SpellsJoin(query, i, HasStep(e.key, e.value), HasSteps(criteria[1..]));
      if e.key == "id" {
        ValueCallEmits(query, i, "hasId", e.value);
      } else {
        HasCallEmits(query, i, e);
      }
      StepsEmit(query, next, criteria[1..]);
      EmitsJoin(query, i, next, i + |HasSteps(criteria)|, StepShapes(e), StepsShapes(criteria[1..]));
    }
  }

  /** `.hasLabel(name)` and the match steps, as every element of a query is selected. */
  function SelectText(name: Value, criteria: seq<Entry>): string {
    CallText("hasLabel", Print(name)) + HasSteps(criteria)
  }

  function SelectShapes(name: Value, criteria: seq<Entry>): seq<Shape> {
    CallShapes("hasLabel", ValueShapes(name)) + StepsShapes(criteria)
  }

  lemma SelectEmits(query: string, i: nat, name: Value, criteria: seq<Entry>)
    requires Spells(query, i, SelectText(name, criteria))
    ensures Emits(query, i, i + |SelectText(name, criteria)|, SelectShapes(name, criteria))
  {
    hide Emits, CallText, CallShapes, HasSteps, StepsShapes;
    var call := CallText("hasLabel", Print(name));
    SpellsJoin(query, i, call, HasSteps(criteria));
    ValueCallEmits(query, i, "hasLabel", name);
    StepsEmit(query, i + |call|, criteria);
    EmitsJoin(query, i, i + |call|, i + |SelectText(name, criteria)|,
              CallShapes("hasLabel", ValueShapes(name)), StepsShapes(criteria));
  }

  function VertexShapes(name: Value, criteria: seq<Entry>): seq<Shape> {
    [Word("g")] + CallShapes("V", []) + SelectShapes(name, criteria)
  }

  lemma VertexText(name: Value, criteria: seq<Entry>)
    ensures VertexQuery(name, criteria) == "g" + CallText("V", "") + SelectText(name, criteria)
  {
  }

  lemma VertexEmits(query: string, name: Value, criteria: seq<Entry>)
    requires Spells(query, 0, VertexQuery(name, criteria))
    ensures Emits(query, 0, |VertexQuery(name, criteria)|, VertexShapes(name, criteria))
  {
    hide Emits, SelectText, SelectShapes, CallShapes, VertexQuery;
    VertexText(name, criteria);
    var root := CallText("V", "");
    SpellsJoin(query, 0, "g" + root, SelectText(name, criteria));
    SpellsJoin(query, 0, "g", root);
    SpellsAt(query, 1, root, 0);
    EmitName(query, 0, "g");
    EmptyCallEmits(query, 1, "V");
    SelectEmits(query, 5, name, criteria);
    EmitsJoin(query, 0, 1, 5, [Word("g")], CallShapes("V", []));
    EmitsJoin(query, 0, 5, |VertexQuery(name, criteria)|, [Word("g")] + CallShapes("V", []),
              SelectShapes(name, criteria));
  }

  /** `inV()` and the selection of the edge's target. */
  function TargetText(name: Value, criteria: seq<Entry>): string {
    "inV()" + SelectText(name, criteria)
  }

  function TargetShapes(name: Value, criteria: seq<Entry>): seq<Shape> {
    [Word("inV")] + [Mark('(')] + [Mark(')')] + SelectShapes(name, criteria)
  }

  lemma TargetEmits(query: string, i: nat, name: Value, criteria: seq<Entry>)
    requires Spells(query, i, TargetText(name, criteria))
    ensures Emits(query, i, i + |TargetText(name, criteria)|, TargetShapes(name, criteria))
  {
    hide Emits, SelectText, SelectShapes;
    SpellsJoin(query, i, "inV()", SelectText(name, criteria));
    assert "inV()" == "inV" + "(" + ")";
    SpellsJoin(query, i, "inV" + "(", ")");
    SpellsJoin(query, i, "inV", "(");
    EmitSpelled(query, i + 3, '(');
    EmitSpelled(query, i + 4, ')');
    EmitName(query, i, "inV");
    SelectEmits(query, i + 5, name, criteria);
    EmitsJoin(query, i, i + 3, i + 4, [Word("inV")], [Mark('(')]);
    EmitsJoin(query, i, i + 4, i + 5, [Word("inV")] + [Mark('(')], [Mark(')')]);
    EmitsJoin(query, i, i + 5, i + |TargetText(name, criteria)|,
              [Word("inV")] + [Mark('(')] + [Mark(')')], SelectShapes(name, criteria));
  }

  function EdgeTailText(edge: Value, targetLabel: Value, target: seq<Entry>): string {
    CallText("outE", Print(edge)) + CallText("where", TargetText(targetLabel, target))
  }

  function EdgeTailShapes(edge: Value, targetLabel: Value, target: seq<Entry>): seq<Shape> {
    CallShapes("outE", ValueShapes(edge)) + CallShapes("where", TargetShapes(targetLabel, target))
  }

  lemma EdgeTailEmits(query: string, i: nat, edge: Value, targetLabel: Value, target: seq<Entry>)
    requires Spells(query, i, EdgeTailText(edge, targetLabel, target))
    ensures Emits(query, i, i + |EdgeTailText(edge, targetLabel, target)|, EdgeTailShapes(edge, targetLabel, target))
  {
    hide Emits, CallText, CallShapes, TargetText, TargetShapes, Print;
    var out, inner := CallText("outE", Print(edge)), TargetText(targetLabel, target);
    var j := i + |out|;
    SpellsJoin(query, i, out, CallText("where", inner));
    ValueCallEmits(query, i, "outE", edge);
    CallStands(query, j, "where", inner);
    TargetEmits(query, j + 7, targetLabel, target);
    CallEmits(query, j, "where", inner, TargetShapes(targetLabel, target));
    EmitsJoin(query, i, j, i + |EdgeTailText(edge, targetLabel, target)|,
              CallShapes("outE", ValueShapes(edge)), CallShapes("where", TargetShapes(targetLabel, target)));
  }

  lemma Regroup(a: string, b: string, c: string, name: string, p: string, steps: string)
    ensures (a + b + c) + name + p + steps + p == a + (b + ((c + name + p) + steps)) + p
  {
  }

  lemma WhereText(name: Value, criteria: seq<Entry>)
    ensures ".where(inV().hasLabel(" + Print(name) + ")" + HasSteps(criteria) + ")"
            == CallText("where", TargetText(name, criteria))
  {
    hide Print, HasSteps;
    assert ".where(inV().hasLabel(" == ".where(" + "inV()" + ".hasLabel(";
    assert ".where(" == "." + "where" + "(" && ".hasLabel(" == "." + "hasLabel" + "(";
    Regroup(".where(", "inV()", ".hasLabel(", Print(name), ")", HasSteps(criteria));
  }

  lemma EdgeText(sourceLabel: Value, source: seq<Entry>, edge: Value, targetLabel: Value, target: seq<Entry>)
    ensures EdgeQuery(sourceLabel, source, edge, targetLabel, target)
            == VertexQuery(sourceLabel, source) + EdgeTailText(edge, targetLabel, target)
  {
    hide Print, HasSteps, VertexQuery, TargetText;
    WhereText(targetLabel, target);
    var vertex, out := VertexQuery(sourceLabel, source), CallText("outE", Print(edge));
    var inside := CallText("where", TargetText(targetLabel, target));
    assert ".outE(" == "." + "outE" + "(";
    assert vertex + ".outE(" + Print(edge) + ")" == vertex + out;
    TailJoins(vertex + out, ".where(inV().hasLabel(", Print(targetLabel), ")", HasSteps(target), ")");
    assert (vertex + out) + inside == vertex + (out + inside);
  }

  /** Concatenation from the left is concatenation with the rest. */
  lemma TailJoins(head: string, a: string, b: string, c: string, d: string, e: string)
    ensures head + a + b + c + d + e == head + (a + b + c + d + e)
  {
  }

  function SuffixShapes(suffix: Suffix): seq<Shape> {
    match suffix
    case Count => CallShapes("count", [])
    case LimitedIds => CallShapes("limit", [Shape(NumberToken, "2")]) + CallShapes("id", [])
  }

  lemma SuffixEmits(query: string, i: nat, suffix: Suffix)
    requires Spells(query, i, SuffixText(suffix))
    ensures Emits(query, i, i + |SuffixText(suffix)|, SuffixShapes(suffix))
  {
    hide Emits, CallShapes, Spells, CallText;
    SuffixSpelled();
    match suffix
    case Count => EmptyCallEmits(query, i, "count");
    case LimitedIds => LimitedIdsEmit(query, i);
  }

  lemma SuffixSpelled()
    ensures SuffixText(Count) == CallText("count", "")
    ensures SuffixText(LimitedIds) == CallText("limit", "2") + CallText("id", "")
    ensures |CallText("limit", "2")| == 9 && |CallText("id", "")| == 5
    ensures IsName("count") && IsName("limit") && IsName("id")
  {
  }

  lemma LimitedIdsEmit(query: string, i: nat)
    requires Spells(query, i, CallText("limit", "2") + CallText("id", ""))
    ensures Emits(query, i, i + 14, CallShapes("limit", [Shape(NumberToken, "2")]) + CallShapes("id", []))
  {
    hide Emits, CallShapes, Spells, CallText, IsName;
    SuffixSpelled();
    SpellsJoin(query, i, CallText("limit", "2"), CallText("id", ""));
    CallStands(query, i, "limit", "2");
    EmitNumber(query, i + 7, "2");
    CallEmits(query, i, "limit", "2", [Shape(NumberToken, "2")]);
    EmptyCallEmits(query, i + 9, "id");
    EmitsJoin(query, i, i + 9, i + 14, CallShapes("limit", [Shape(NumberToken, "2")]), CallShapes("id", []));
  }

  /** The tokens of a vertex query: each value gives its own tokens and nothing leaks out of a
      string, whatever it contains. */
  lemma VertexQueryTokens(name: Value, criteria: seq<Entry>, suffix: Suffix)
    ensures var lexed := Lex(VertexQuery(name, criteria) + SuffixText(suffix));
            && Shapes(lexed.tokens) == VertexShapes(name, criteria) + SuffixShapes(suffix)
            && lexed.valid && Clean(lexed.normalized)
  {
    hide Emits, Lex, VertexQuery, SuffixText, VertexShapes, SuffixShapes;
    var vertex, tail := VertexQuery(name, criteria), SuffixText(suffix);
    var query := vertex + tail;
    assert Spells(query, 0, vertex + tail);
    SpellsJoin(query, 0, vertex, tail);
    VertexEmits(query, name, criteria);
    SuffixEmits(query, |vertex|, suffix);
    EmitsJoin(query, 0, |vertex|, |query|, VertexShapes(name, criteria), SuffixShapes(suffix));
    EmittedWhole(query, VertexShapes(name, criteria) + SuffixShapes(suffix));
  }

  lemma EdgeQueryTokens(sourceLabel: Value, source: seq<Entry>, edge: Value,
                        targetLabel: Value, target: seq<Entry>, suffix: Suffix)
    ensures var lexed := Lex(EdgeQuery(sourceLabel, source, edge, targetLabel, target) + SuffixText(suffix));
            && Shapes(lexed.tokens) ==
                 VertexShapes(sourceLabel, source) + EdgeTailShapes(edge, targetLabel, target) + SuffixShapes(suffix)
            && lexed.valid && Clean(lexed.normalized)
  {
    hide Emits, Lex, VertexQuery, EdgeQuery, EdgeTailText, SuffixText, VertexShapes, EdgeTailShapes, SuffixShapes;
    EdgeText(sourceLabel, source, edge, targetLabel, target);
    var vertex, middle, tail := VertexQuery(sourceLabel, source), EdgeTailText(edge, targetLabel, target),
                                SuffixText(suffix);
    var a, b, c := VertexShapes(sourceLabel, source), EdgeTailShapes(edge, targetLabel, target), SuffixShapes(suffix);
    var query := vertex + middle + tail;
    assert Spells(query, 0, vertex + middle + tail);
    SpellsJoin(query, 0, vertex + middle, tail);
    SpellsJoin(query, 0, vertex, middle);
    VertexEmits(query, sourceLabel, source);
    EdgeTailEmits(query, |vertex|, edge, targetLabel, target);
    SuffixEmits(query, |vertex| + |middle|, suffix);
    EmitsJoin(query, 0, |vertex|, |vertex| + |middle|, a, b);
    EmitsJoin(query, 0, |vertex| + |middle|, |query|, a + b, c);
    EmittedWhole(query, a + b + c);
  }
}
