/** Which queries are safe, said without any loop: of the tokens one by one, of the brackets as a
    whole, and of each pair of neighbours. */
module ReadSafety {
  import opened GremlinScanner
  import opened GremlinPolicy
  import opened Spelling
  import opened SafeStructure
  import opened UnsafeQueries

  // ---------- Tokens one by one ----------

  const MOVING :=
    {"v", "e", "out", "in", "both", "oute", "ine", "bothe", "outv", "inv", "bothv", "otherv", "path", "simplepath",
     "cyclicpath"}
  const READING := {"id", "label", "keys", "properties", "values", "valuemap", "elementmap", "count", "explain",
                    "profile"}
  const CHOOSING := {"has", "haslabel", "hasid", "where", "not", "and", "or", "limit", "range", "skip", "tail",
                     "sample", "dedup"}
  const SHAPING :=
    {"order", "by", "group", "groupcount", "as", "select", "unfold", "coalesce", "optional", "repeat", "times", "until",
     "emit", "tolist", "toset"}

  /** The steps of a read query move, read, choose or shape. */
  lemma ReadStepsExactly(name: string)
    ensures IsReadMethod(name) <==> name in MOVING || name in READING || name in CHOOSING || name in SHAPING
  {
  }

  /** The token is an argument, harmless punctuation, or a name that is known where it stands. */
  predicate Explained(shapes: seq<Shape>, i: nat)
    requires i < |shapes|
  {
    var Shape(kind, value) := shapes[i];
    match kind
    case UnknownToken => false
    case NumberToken => true
    case StringToken => !HasMarker(value)
    case PunctuationToken => value !in [";", "+", "=", "?", "!", "*", "%", "/"]
    case Identifier =>
      var name := Lower(value);
      var afterDot := i > 0 && shapes[i - 1].value == ".";
      var called := i + 1 < |shapes| && shapes[i + 1].value == "(";
      if afterDot then called && IsReadMethod(name)
      else if called then name in ["outv", "inv", "bothv", "otherv"]
      else (i == 0 && name == "g") || name in ["true", "false", "null"]
  }

  // ---------- Neighbours ----------

  predicate Opens(value: string) {
    value in ["(", "[", "{"]
  }

  predicate Closes(value: string) {
    value in [")", "]", "}"]
  }

  /** The brackets open before token `k`, outermost first. */
  function OpenBefore(shapes: seq<Shape>, k: nat): seq<string>
    requires k <= |shapes|
  {
    if k <= 1 then []
    else
      var open, value := OpenBefore(shapes, k - 1), shapes[k - 1].value;
      if Opens(value) then open + [value] else if Closes(value) && open != [] then open[..|open| - 1] else open
  }

  /** A value that is no name of a step: nothing may be opened after it. */
  predicate IsAtom(shape: Shape) {
    shape.kind == NumberToken || shape.kind == StringToken
    || (shape.kind == Identifier && Lower(shape.value) in ["true", "false", "null"])
  }

  /** The colon of an empty map `[:]`. */
  predicate EmptyMapAt(shapes: seq<Shape>, k: nat)
    requires k < |shapes|
  {
    && 2 <= k < |shapes| - 1 && shapes[k - 1].value == "[" && shapes[k].value == ":" && shapes[k + 1].value == "]"
  }

  /** Token `k` may not stand where it does. */
  predicate Misplaced(shapes: seq<Shape>, k: nat)
    requires 1 <= k < |shapes|
  {
    var previous, current, open := shapes[k - 1], shapes[k], OpenBefore(shapes, k);
    var ends := k + 1 == |shapes|;
    || (Closes(previous.value) && !Closes(current.value) && current.value != "." && current.value != ",")
    || (IsValueKind(previous.kind) && IsValueKind(current.kind))
    || (IsAtom(previous) && Opens(current.value))
    || (current.value == ","
        && (open == [] || Opens(previous.value) || previous.value in [",", ":"] || ends
            || Closes(shapes[k + 1].value) || shapes[k + 1].value in [",", ":"]))
    || (current.value == ":"
        && (open == [] || open[|open| - 1] != "[" || previous.value in ["(", "{", ",", ":"] || ends
            || (previous.value == "[") != (shapes[k + 1].value == "]")
            || shapes[k + 1].value in [")", "}", ",", ":"]))
    || (current.value == "-" && (ends || shapes[k + 1].kind != NumberToken))
  }

  lemma OpenBrackets(shapes: seq<Shape>, k: nat)
    requires 1 <= k < |shapes|
    ensures OpenBefore(shapes, k + 1) == AdjacencyStack(shapes[k].value, OpenBefore(shapes, k))
  {
  }

  /** Inside an empty map the innermost open bracket is its own. */
  lemma InnermostIsPrevious(shapes: seq<Shape>, k: nat)
    requires 2 <= k < |shapes| && shapes[k - 1].value == "["
    ensures var open := OpenBefore(shapes, k); open != [] && open[|open| - 1] == "["
  {
  }

  lemma PlaceDecides(shapes: seq<Shape>, k: nat)
    requires 1 <= k < |shapes|
    ensures AdjacentAt(shapes, k, OpenBefore(shapes, k)) == Refuse <==> Misplaced(shapes, k)
    ensures AdjacentAt(shapes, k, OpenBefore(shapes, k)) == Accept <==> !Misplaced(shapes, k) && EmptyMapAt(shapes, k)
  {
    hide OpenBefore, Lower;
    if k >= 2 && shapes[k - 1].value == "[" {
      InnermostIsPrevious(shapes, k);
    }
    FirstOpens(shapes);
  }

  /** No token from `i` on is misplaced, up to the first empty map. */
  ghost predicate SpacedFrom(shapes: seq<Shape>, i: nat)
    requires i >= 1
  {
    forall k :: i <= k < |shapes| && NoEmptyMapIn(shapes, i, k) ==> !Misplaced(shapes, k)
  }

  ghost predicate NoEmptyMapIn(shapes: seq<Shape>, i: nat, k: nat)
    requires k <= |shapes|
  {
    forall j :: i <= j < k ==> !EmptyMapAt(shapes, j)
  }

  lemma SpacedStep(shapes: seq<Shape>, i: nat)
    requires 1 <= i < |shapes|
    ensures SpacedFrom(shapes, i) <==>
              !Misplaced(shapes, i) && (EmptyMapAt(shapes, i) || SpacedFrom(shapes, i + 1))
  {
    hide Misplaced, EmptyMapAt;
    assert NoEmptyMapIn(shapes, i, i);
    if !EmptyMapAt(shapes, i) {
      assert forall k :: i + 1 <= k < |shapes| ==> (NoEmptyMapIn(shapes, i, k) <==> NoEmptyMapIn(shapes, i + 1, k));
    } else {
      assert forall k :: i + 1 <= k < |shapes| ==> !NoEmptyMapIn(shapes, i, k);
    }
  }

  /** The adjacency check refuses exactly the sequences with a misplaced token before any empty map. */
  lemma {:induction false} SpacedExactly(shapes: seq<Shape>, i: nat)
    requires 1 <= i <= |shapes|
    ensures AdjacencyRefused(shapes, i, OpenBefore(shapes, i)) <==> !SpacedFrom(shapes, i)
    decreases |shapes| - i
  {
    hide Misplaced, EmptyMapAt, OpenBefore, AdjacentAt, SpacedFrom;
    if i < |shapes| {
      PlaceDecides(shapes, i);
      SpacedStep(shapes, i);
      OpenBrackets(shapes, i);
      SpacedExactly(shapes, i + 1);
    } else {
      NothingLeft(shapes);
    }
  }

  lemma NothingLeft(shapes: seq<Shape>)
    requires |shapes| >= 1
    ensures SpacedFrom(shapes, |shapes|)
  {
  }

  // ---------- Brackets as a whole ----------

  lemma {:induction false} ForestNests(shapes: seq<Shape>, i: nat, forest: seq<Tree>, stack: seq<string>)
    requires Spells(shapes, i, Flatten(forest)) && WellNested(forest)
    ensures i + |Flatten(forest)| <= |shapes|
    ensures Nested(shapes, i, stack) == Nested(shapes, i + |Flatten(forest)|, stack)
    decreases forest, 0
  {
    hide Nested;
    if forest != [] {
      SpellsJoin(shapes, i, FlattenTree(forest[0]), Flatten(forest[1..]));
      TreeNests(shapes, i, forest[0], stack);
      ForestNests(shapes, i + |FlattenTree(forest[0])|, forest[1..], stack);
    }
  }

  lemma {:induction false} TreeNests(shapes: seq<Shape>, i: nat, tree: Tree, stack: seq<string>)
    requires Spells(shapes, i, FlattenTree(tree)) && TreeNested(tree)
    ensures i + |FlattenTree(tree)| <= |shapes|
    ensures Nested(shapes, i, stack) == Nested(shapes, i + |FlattenTree(tree)|, stack)
    decreases tree, 1
  {
    match tree
    case Leaf(shape) =>
      SpellsAt(shapes, i, [shape], 0);
    case Group(open, children, close) =>
      GroupStands(shapes, i, tree);
      assert (stack + [open.value])[..|stack|] == stack;
      ForestNests(shapes, i + 1, children, stack + [open.value]);
  }

  lemma WholeSpelled(shapes: seq<Shape>, flat: seq<Shape>)
    requires flat == shapes
    ensures Spells(shapes, 0, flat)
  {
  }

  /** Without braces, the brackets check accepts exactly the texts of the grammar. */
  lemma NestedExactly(shapes: seq<Shape>)
    requires Braceless(shapes)
    ensures Nested(shapes, 0, []) <==> exists forest :: WellNested(forest) && Flatten(forest) == shapes
  {
    hide Nested, WellNested, Flatten, Braceless, Spells;
    if Nested(shapes, 0, []) {
      var forest := BalancedParses(shapes);
    }
    if forest :| WellNested(forest) && Flatten(forest) == shapes {
      WholeSpelled(shapes, Flatten(forest));
      ForestNests(shapes, 0, forest, []);
      NestedAtEnd(shapes);
    }
  }

  lemma NestedAtEnd(shapes: seq<Shape>)
    ensures Nested(shapes, |shapes|, [])
  {
  }

  // ---------- Safe, exactly ----------

  /** `g`, a dot, V or E, and an opening bracket. */
  predicate StartsTraversal(shapes: seq<Shape>) {
    && |shapes| >= 4
    && shapes[0].kind == Identifier && Lower(shapes[0].value) == "g" && shapes[1].value == "."
    && shapes[2].kind == Identifier && Lower(shapes[2].value) in ["v", "e"] && shapes[3].value == "("
  }

  lemma ReportsMean(shapes: seq<Shape>, i: nat)
    requires i < |shapes|
    ensures Explained(shapes, i) <==>
              !ReportAt(shapes, i).doubtful && !ReportAt(shapes, i).writes
              && forall name :: name in ReportAt(shapes, i).methods ==> IsReadMethod(name)
  {
  }

  lemma {:induction false} MethodsMean(shapes: seq<Shape>, n: nat)
    requires n <= |shapes|
    ensures (forall name :: name in Methods(shapes, n) ==> IsReadMethod(name))
            <==> forall i, name :: 0 <= i < n && name in ReportAt(shapes, i).methods ==> IsReadMethod(name)
  {
    hide ReportAt, IsReadMethod;
    if n > 0 {
      MethodsMean(shapes, n - 1);
    }
  }

  lemma TokensMean(shapes: seq<Shape>)
    ensures (forall i :: 0 <= i < |shapes| ==> Explained(shapes, i)) <==>
              !Doubtful(shapes) && !Writes(shapes)
              && forall name :: name in Methods(shapes, |shapes|) ==> IsReadMethod(name)
  {
    hide ReportAt, Explained, IsReadMethod;
    MethodsMean(shapes, |shapes|);
    forall i | 0 <= i < |shapes|
      ensures Explained(shapes, i) <==>
                !ReportAt(shapes, i).doubtful && !ReportAt(shapes, i).writes
                && forall name :: name in ReportAt(shapes, i).methods ==> IsReadMethod(name)
    {
      ReportsMean(shapes, i);
    }
  }

  /** A query is safe exactly when it scans to its end, starts at `g.V(` or `g.E(`, has every
      token explained and every dot named, its brackets nested and its tokens spaced up to the
      first empty map, and shows no dynamic marker outside its literals. */
  lemma SafeExactly(query: string)
    ensures Classify(query) == Safe <==>
              var shapes := Shapes(Lex(query).tokens);
              && Lex(query).valid && !HasMarker(Lex(query).normalized) && StartsTraversal(shapes)
              && (forall i :: 0 <= i < |shapes| ==> Explained(shapes, i))
              && (forall i :: 0 <= i < |shapes| && shapes[i].value == "." ==>
                    i + 1 < |shapes| && shapes[i + 1].kind == Identifier)
              && (exists forest :: WellNested(forest) && Flatten(forest) == shapes)
              && SpacedFrom(shapes, 1)
  {
    hide ReportAt, Explained, IsReadMethod, Nested, AdjacencyRefused, SpacedFrom, Lex, Methods, Doubtful, Writes;
    hide Braceless, WellNested, Flatten, HasMarker;
    var shapes := Shapes(Lex(query).tokens);
    TokensMean(shapes);
    if forall i :: 0 <= i < |shapes| ==> Explained(shapes, i) {
      BracesUnexplained(query);
      NestedExactly(shapes);
    }
    if |shapes| >= 1 {
      SpacedExactly(shapes, 1);
      FirstOpens(shapes);
    }
    if IsBlank(query) {
      BlankHasNoTokens(query);
    }
  }

  lemma FirstOpens(shapes: seq<Shape>)
    requires |shapes| >= 1
    ensures OpenBefore(shapes, 1) == []
  {
  }

  predicate BraceIsUnknown(shape: Shape) {
    shape.value in ["{", "}"] ==> shape.kind == UnknownToken
  }

  lemma {:induction false} BracesUnknownFrom(query: string, i: nat)
    requires i <= |query|
    ensures forall t :: t in TokensFrom(query, i) ==> BraceIsUnknown(t.shape)
    decreases |query| - i
  {
    if i < |query| {
      BracesUnknownFrom(query, LexemeAt(query, i).end);
    }
  }

  /** Braces are no tokens of their own kind, so explained tokens have none. */
  lemma BracesUnexplained(query: string)
    requires var shapes := Shapes(Lex(query).tokens); forall i :: 0 <= i < |shapes| ==> Explained(shapes, i)
    ensures Braceless(Shapes(Lex(query).tokens))
  {
    BracesUnknownFrom(query, 0);
    var shapes := Shapes(Lex(query).tokens);
    forall k | 0 <= k < |shapes|
      ensures shapes[k].value != "{" && shapes[k].value != "}"
    {
      assert Lex(query).tokens[k] in Lex(query).tokens && Explained(shapes, k);
    }
  }
}
