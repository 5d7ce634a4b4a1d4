/** What the classification `safe` says about the structure of a query. */
module SafeStructure {
  import opened GremlinScanner
  import opened GremlinPolicy
  import opened Spelling

  // ---------- The grammar of nested tokens ----------

  datatype Tree = Leaf(shape: Shape) | Group(open: Shape, children: seq<Tree>, close: Shape)

  function FlattenTree(tree: Tree): seq<Shape>
    decreases tree, 1
  {
    match tree
    case Leaf(shape) => [shape]
    case Group(open, children, close) => [open] + Flatten(children) + [close]
  }

  function Flatten(forest: seq<Tree>): seq<Shape>
    decreases forest, 0
  {
    if forest == [] then [] else FlattenTree(forest[0]) + Flatten(forest[1..])
  }

  predicate IsBracket(shape: Shape) {
    shape.kind == PunctuationToken && (IsOpener(shape.value) || IsCloser(shape.value))
  }

  predicate Matching(open: Shape, close: Shape) {
    && open.kind == PunctuationToken && close.kind == PunctuationToken
    && ((open.value == "(" && close.value == ")") || (open.value == "[" && close.value == "]"))
  }

  /** Groups are matching `()` or `[]` pairs and brackets occur nowhere else. */
  predicate TreeNested(tree: Tree)
    decreases tree, 1
  {
    match tree
    case Leaf(shape) => !IsBracket(shape)
    case Group(open, children, close) => Matching(open, close) && WellNested(children)
  }

  predicate WellNested(forest: seq<Tree>)
    decreases forest, 0
  {
    forest == [] || (TreeNested(forest[0]) && WellNested(forest[1..]))
  }

  // ---------- Balanced brackets parse ----------

  lemma ForestCons(shapes: seq<Shape>, i: nat, tree: Tree, rest: seq<Tree>)
    requires Spells(shapes, i, FlattenTree(tree)) && Spells(shapes, i + |FlattenTree(tree)|, Flatten(rest))
    requires TreeNested(tree) && WellNested(rest)
    ensures Spells(shapes, i, Flatten([tree] + rest)) && WellNested([tree] + rest)
    ensures |Flatten([tree] + rest)| == |FlattenTree(tree)| + |Flatten(rest)|
  {
  }

  lemma GroupSpelled(shapes: seq<Shape>, i: nat, children: seq<Tree>)
    requires i < |shapes| && Spells(shapes, i + 1, Flatten(children)) && i + 1 + |Flatten(children)| < |shapes|
    ensures var close := i + 1 + |Flatten(children)|;
            var tree := Group(shapes[i], children, shapes[close]);
            Spells(shapes, i, FlattenTree(tree)) && i + |FlattenTree(tree)| == close + 1
  {
  }

  /** The bracket at `i` opens a group that ends where the parse of its children stopped. */
  lemma GroupCloses(shapes: seq<Shape>, i: nat, stack: seq<string>, children: seq<Tree>, close: nat)
    requires i < |shapes| && Braceless(shapes) && IsBracket(shapes[i]) && IsOpener(shapes[i].value)
    requires WellNested(children) && Spells(shapes, i + 1, Flatten(children))
             && close == i + 1 + |Flatten(children)| <= |shapes|
    requires Nested(shapes, close, stack + [shapes[i].value])
    requires close < |shapes| ==> IsBracket(shapes[close]) && IsCloser(shapes[close].value)
    ensures close < |shapes| && Nested(shapes, close + 1, stack)
    ensures var tree := Group(shapes[i], children, shapes[close]);
            TreeNested(tree) && Spells(shapes, i, FlattenTree(tree)) && i + |FlattenTree(tree)| == close + 1
  {
    hide Spells, Flatten, FlattenTree, WellNested;
    assert (stack + [shapes[i].value])[..|stack|] == stack;
    GroupSpelled(shapes, i, children);
  }

  lemma LeafSpelled(shapes: seq<Shape>, i: nat)
    requires i < |shapes|
    ensures Spells(shapes, i, FlattenTree(Leaf(shapes[i]))) && |FlattenTree(Leaf(shapes[i]))| == 1
  {
  }

  lemma NothingSpelled(shapes: seq<Shape>, i: nat)
    requires i <= |shapes|
    ensures Flatten([]) == [] && WellNested([]) && Spells(shapes, i, Flatten([]))
  {
  }

  /** The forest at `i`, up to the end or to the closer of the innermost open group. The
      bracket check succeeds only on texts of the grammar. */
  lemma {:induction false} Parse(shapes: seq<Shape>, i: nat, stack: seq<string>) returns (forest: seq<Tree>, j: nat)
    requires i <= |shapes| && Braceless(shapes) && Nested(shapes, i, stack)
    ensures WellNested(forest) && Spells(shapes, i, Flatten(forest)) && j == i + |Flatten(forest)| <= |shapes|
    ensures Nested(shapes, j, stack)
    ensures j < |shapes| ==> IsBracket(shapes[j]) && IsCloser(shapes[j].value)
    decreases |shapes| - i
  {
    hide Spells, Flatten, FlattenTree, WellNested;
    if i == |shapes| || (IsBracket(shapes[i]) && IsCloser(shapes[i].value)) {
      NothingSpelled(shapes, i);
      return [], i;
    }
    var shape := shapes[i];
    var tree, next;
    if !IsBracket(shape) {
      tree, next := Leaf(shape), i + 1;
      LeafSpelled(shapes, i);
    } else {
      var children, close := Parse(shapes, i + 1, stack + [shape.value]);
      GroupCloses(shapes, i, stack, children, close);
      tree, next := Group(shape, children, shapes[close]), close + 1;
    }
    var rest;
    rest, j := Parse(shapes, next, stack);
    ForestCons(shapes, i, tree, rest);
    forest := [tree] + rest;
  }

  lemma BalancedParses(shapes: seq<Shape>) returns (forest: seq<Tree>)
    requires Braceless(shapes) && Nested(shapes, 0, [])
    ensures WellNested(forest) && Flatten(forest) == shapes
  {
    var j;
    forest, j := Parse(shapes, 0, []);
    assert shapes[0..|shapes|] == shapes;
  }

  // ---------- Lexical facts ----------

  /** A token whose text is punctuation is a punctuation token. */
  predicate Lexical(shape: Shape) {
    |shape.value| > 0
    && (|shape.value| == 1 && IsSafePunctuation(shape.value[0]) ==> shape.kind == PunctuationToken)
  }

  lemma {:induction false} TokensLexical(query: string, i: nat)
    requires i <= |query|
    ensures forall t :: t in TokensFrom(query, i) ==> Lexical(t.shape)
    decreases |query| - i
  {
    if i < |query| {
      TokensLexical(query, LexemeAt(query, i).end);
    }
  }

  // ---------- The call chain ----------

  datatype Call = Call(dot: Shape, name: Shape, open: Shape, arguments: seq<Tree>, close: Shape)

  /** `.name(...)` with properly nested arguments. */
  ghost predicate IsMemberCall(c: Call) {
    && c.dot.value == "." && c.name.kind == Identifier
    && c.open.value == "(" && c.close.value == ")" && WellNested(c.arguments)
  }

  ghost predicate IsChain(calls: seq<Call>) {
    forall c :: c in calls ==> IsMemberCall(c)
  }

  lemma GroupStands(shapes: seq<Shape>, i: nat, group: Tree)
    requires group.Group? && Spells(shapes, i, FlattenTree(group))
    ensures var close := i + 1 + |Flatten(group.children)|;
            && close < |shapes| && shapes[i] == group.open && shapes[close] == group.close
            && Spells(shapes, i + 1, Flatten(group.children))
            && i + |FlattenTree(group)| == close + 1
  {
    var inner := Flatten(group.children);
    SpellsJoin(shapes, i, [group.open] + inner, [group.close]);
    SpellsJoin(shapes, i, [group.open], inner);
    SpellsAt(shapes, i, [group.open], 0);
    SpellsAt(shapes, i + 1 + |inner|, [group.close], 0);
  }

  /** What the policy establishes about the tokens of a query it calls safe. */
  ghost predicate SafeTokens(shapes: seq<Shape>) {
    && Braceless(shapes) && Nested(shapes, 0, []) && Rooted(shapes) && DotsNamed(shapes)
    && !Doubtful(shapes) && !Writes(shapes) && !AdjacencyRefused(shapes, 1, [])
    && (forall name :: name in Methods(shapes, |shapes|) ==> IsReadMethod(name))
    && (forall k :: 0 <= k < |shapes| ==> Lexical(shapes[k]))
  }

  lemma SafeMeans(query: string)
    requires Classify(query) == Safe
    ensures SafeTokens(Shapes(Lex(query).tokens))
  {
    TokensLexical(query, 0);
    var tokens := Lex(query).tokens;
    forall k | 0 <= k < |tokens|
      ensures Lexical(tokens[k].shape)
    {
      assert tokens[k] in tokens;
    }
  }

  /** A forest that reaches the end of the text, seen from its first token. */
  ghost predicate Rest(shapes: seq<Shape>, i: nat, forest: seq<Tree>) {
    WellNested(forest) && Spells(shapes, i, Flatten(forest)) && i + |Flatten(forest)| == |shapes|
  }

  lemma FirstTree(shapes: seq<Shape>, i: nat, forest: seq<Tree>)
    requires Rest(shapes, i, forest) && i < |shapes|
    ensures forest != [] && TreeNested(forest[0])
    ensures Spells(shapes, i, FlattenTree(forest[0])) && Rest(shapes, i + |FlattenTree(forest[0])|, forest[1..])
    ensures if IsBracket(shapes[i]) then forest[0].Group? && forest[0].open == shapes[i]
            else forest[0] == Leaf(shapes[i])
  {
    SpellsJoin(shapes, i, FlattenTree(forest[0]), Flatten(forest[1..]));
    SpellsAt(shapes, i, FlattenTree(forest[0]), 0);
  }

  function FlattenCall(c: Call): seq<Shape> {
    [c.dot] + [c.name] + FlattenTree(Group(c.open, c.arguments, c.close))
  }

  function FlattenCalls(calls: seq<Call>): seq<Shape> {
    if calls == [] then [] else FlattenCall(calls[0]) + FlattenCalls(calls[1..])
  }

  /** `g` and a non-empty chain of member calls that starts with V or E. */
  ghost predicate IsTraversal(shapes: seq<Shape>, calls: seq<Call>) {
    && |shapes| > 0 && shapes[0].kind == Identifier && Lower(shapes[0].value) == "g"
    && shapes == [shapes[0]] + FlattenCalls(calls)
    && calls != [] && IsChain(calls) && Lower(calls[0].name.value) in {"v", "e"}
  }

  lemma OneSpelled(shapes: seq<Shape>, i: nat)
    requires i < |shapes|
    ensures Spells(shapes, i, [shapes[i]])
  {
  }

  // ---------- Dots at depth 0 ----------

  /** Each bracket that closes at depth 0 ends the text or is followed by `.`. */
  predicate TopDotted(shapes: seq<Shape>, i: nat, depth: nat)
    requires i <= |shapes|
    decreases |shapes| - i
  {
    if i == |shapes| then true
    else if !IsBracket(shapes[i]) then TopDotted(shapes, i + 1, depth)
    else if IsOpener(shapes[i].value) then TopDotted(shapes, i + 1, depth + 1)
    else
      var outer := if depth == 0 then 0 else depth - 1;
      (outer == 0 && i + 1 < |shapes| ==> shapes[i + 1].value == ".") && TopDotted(shapes, i + 1, outer)
  }

  /** Inside a group nothing closes at depth 0. */
  lemma {:induction false} InsideForest(shapes: seq<Shape>, i: nat, forest: seq<Tree>, depth: nat)
    requires Spells(shapes, i, Flatten(forest)) && WellNested(forest) && depth > 0
    ensures i + |Flatten(forest)| <= |shapes|
    ensures TopDotted(shapes, i, depth) == TopDotted(shapes, i + |Flatten(forest)|, depth)
    decreases forest, 0
  {
    hide TopDotted;
    if forest != [] {
      SpellsJoin(shapes, i, FlattenTree(forest[0]), Flatten(forest[1..]));
      InsideTree(shapes, i, forest[0], depth);
      InsideForest(shapes, i + |FlattenTree(forest[0])|, forest[1..], depth);
    }
  }

  lemma {:induction false} InsideTree(shapes: seq<Shape>, i: nat, tree: Tree, depth: nat)
    requires Spells(shapes, i, FlattenTree(tree)) && TreeNested(tree) && depth > 0
    ensures i + |FlattenTree(tree)| <= |shapes|
    ensures TopDotted(shapes, i, depth) == TopDotted(shapes, i + |FlattenTree(tree)|, depth)
    decreases tree, 1
  {
    match tree
    case Leaf(shape) =>
      SpellsAt(shapes, i, [shape], 0);
    case Group(open, children, close) =>
      GroupStands(shapes, i, tree);
      InsideForest(shapes, i + 1, children, depth + 1);
  }

  lemma GroupAtTop(shapes: seq<Shape>, i: nat, group: Tree)
    requires group.Group? && Spells(shapes, i, FlattenTree(group)) && TreeNested(group)
    ensures var next := i + |FlattenTree(group)|;
            && next <= |shapes|
            && (TopDotted(shapes, i, 0)
                <==> (next < |shapes| ==> shapes[next].value == ".") && TopDotted(shapes, next, 0))
  {
    GroupStands(shapes, i, group);
    InsideForest(shapes, i + 1, group.children, 1);
  }

  /** A member call whose tokens are lexical is properly bracketed. */
  lemma CallAtTop(shapes: seq<Shape>, i: nat, c: Call)
    requires Spells(shapes, i, FlattenCall(c)) && IsMemberCall(c) && forall k ::
               0 <= k < |shapes| ==> Lexical(shapes[k])
    ensures var next := i + |FlattenCall(c)|;
            && next <= |shapes| && i < next && shapes[i].value == "."
            && (TopDotted(shapes, i, 0)
                <==> (next < |shapes| ==> shapes[next].value == ".") && TopDotted(shapes, next, 0))
  {
    hide Flatten, WellNested;
    var group := Group(c.open, c.arguments, c.close);
    SpellsJoin(shapes, i, [c.dot] + [c.name], FlattenTree(group));
    SpellsAt(shapes, i, [c.dot] + [c.name], 0);
    SpellsAt(shapes, i, [c.dot] + [c.name], 1);
    GroupStands(shapes, i + 2, group);
    assert Lexical(shapes[i]) && Lexical(c.open) && Lexical(c.close);
    GroupAtTop(shapes, i + 2, group);
  }

  lemma {:induction false} ChainDotted(shapes: seq<Shape>, i: nat, calls: seq<Call>)
    requires IsChain(calls) && Spells(shapes, i, FlattenCalls(calls)) && i + |FlattenCalls(calls)| == |shapes|
    requires forall k :: 0 <= k < |shapes| ==> Lexical(shapes[k])
    ensures TopDotted(shapes, i, 0) && (calls != [] ==> i < |shapes| && shapes[i].value == ".")
    decreases calls
  {
    hide TopDotted, FlattenCall, IsMemberCall, Spells;
    if calls == [] {
      NothingDotted(shapes);
    } else {
      assert calls[0] in calls;
      SpellsJoin(shapes, i, FlattenCall(calls[0]), FlattenCalls(calls[1..]));
      CallAtTop(shapes, i, calls[0]);
      ChainDotted(shapes, i + |FlattenCall(calls[0])|, calls[1..]);
    }
  }

  lemma NothingDotted(shapes: seq<Shape>)
    ensures TopDotted(shapes, |shapes|, 0)
  {
  }

  /** A dot of a safe query begins a member call. */
  lemma DotBeginsCall(shapes: seq<Shape>, i: nat)
    requires SafeTokens(shapes) && i < |shapes| && shapes[i].value == "."
    ensures i + 2 < |shapes| && !IsBracket(shapes[i])
    ensures shapes[i + 1].kind == Identifier && shapes[i + 2].value == "(" && IsBracket(shapes[i + 2])
    ensures TopDotted(shapes, i, 0) == TopDotted(shapes, i + 2, 0)
  {
    assert !ReportAt(shapes, i + 1).doubtful;
    assert Lexical(shapes[i]) && Lexical(shapes[i + 2]);
  }

  /** The next member call of the chain, and where it ends. */
  lemma NextCall(shapes: seq<Shape>, i: nat, forest: seq<Tree>) returns (call: Call, rest: seq<Tree>, next: nat)
    requires SafeTokens(shapes) && i < |shapes| && shapes[i].value == "." && TopDotted(shapes, i, 0)
    requires Rest(shapes, i, forest)
    ensures next == i + |FlattenCall(call)| <= |shapes|
    ensures IsMemberCall(call) && call.name == shapes[i + 1]
    ensures Spells(shapes, i, FlattenCall(call)) && Rest(shapes, next, rest)
    ensures TopDotted(shapes, next, 0) && (next < |shapes| ==> shapes[next].value == ".")
  {
    hide TopDotted, SafeTokens, Rest, Spells, Flatten;
    DotBeginsCall(shapes, i);
    FirstTree(shapes, i, forest);
    FirstTree(shapes, i + 1, forest[1..]);
    FirstTree(shapes, i + 2, forest[1..][1..]);
    var group := forest[1..][1..][0];
    rest := forest[1..][1..][1..];
    next := i + 2 + |FlattenTree(group)|;
    GroupStands(shapes, i + 2, group);
    GroupAtTop(shapes, i + 2, group);
    call := Call(shapes[i], shapes[i + 1], group.open, group.children, group.close);
    assert FlattenTree(Group(call.open, call.arguments, call.close)) == FlattenTree(group);
    OneSpelled(shapes, i);
    OneSpelled(shapes, i + 1);
    SpellsJoin(shapes, i, [call.dot], [call.name]);
    SpellsJoin(shapes, i, [call.dot] + [call.name], FlattenTree(group));
  }

  lemma {:induction false} ChainFrom(shapes: seq<Shape>, i: nat, forest: seq<Tree>) returns (calls: seq<Call>)
    requires SafeTokens(shapes) && i <= |shapes| && TopDotted(shapes, i, 0) && Rest(shapes, i, forest)
    requires i < |shapes| ==> shapes[i].value == "."
    ensures IsChain(calls) && Spells(shapes, i, FlattenCalls(calls)) && i + |FlattenCalls(calls)| == |shapes|
    ensures i < |shapes| ==> calls != [] && i + 1 < |shapes| && calls[0].name == shapes[i + 1]
    decreases |shapes| - i
  {
    hide SafeTokens, Rest, TopDotted;
    if i == |shapes| {
      return [];
    }
    var call, rest, next := NextCall(shapes, i, forest);
    var more := ChainFrom(shapes, next, rest);
    calls := [call] + more;
    assert calls[1..] == more;
    SpellsJoin(shapes, i, FlattenCall(call), FlattenCalls(more));
  }

  // ---------- Safe queries are chains ----------

  lemma RootIsDotted(shapes: seq<Shape>)
    requires SafeTokens(shapes)
    ensures |shapes| >= 4 && !IsBracket(shapes[0]) && shapes[1].value == "."
    ensures TopDotted(shapes, 0, 0) == TopDotted(shapes, 1, 0)
  {
  }

  lemma TraversalOf(query: string) returns (calls: seq<Call>)
    requires Classify(query) == Safe && TopDotted(Shapes(Lex(query).tokens), 0, 0)
    ensures IsTraversal(Shapes(Lex(query).tokens), calls)
  {
    hide TopDotted, Classify, Lex;
    SafeMeans(query);
    var shapes := Shapes(Lex(query).tokens);
    RootIsDotted(shapes);
    var forest := BalancedParses(shapes);
    assert shapes[0..|shapes|] == shapes;
    FirstTree(shapes, 0, forest);
    calls := ChainFrom(shapes, 1, forest[1..]);
    assert shapes == [shapes[0]] + shapes[1..|shapes|];
  }

  /** The structure of safe queries: a safe query is `g` and a non-empty chain of member calls
      that starts with V or E, with properly nested arguments, exactly when every bracket that
      closes at depth 0 ends the query or is followed by `.`. */
  lemma SafeChainsExactly(query: string)
    requires Classify(query) == Safe
    ensures (exists calls :: IsTraversal(Shapes(Lex(query).tokens), calls))
            <==> TopDotted(Shapes(Lex(query).tokens), 0, 0)
  {
    hide TopDotted, Classify, Lex;
    SafeMeans(query);
    var shapes := Shapes(Lex(query).tokens);
    RootIsDotted(shapes);
    if TopDotted(shapes, 0, 0) {
      var calls := TraversalOf(query);
    }
    if calls :| IsTraversal(shapes, calls) {
      assert shapes[1..|shapes|] == FlattenCalls(calls);
      ChainDotted(shapes, 1, calls);
    }
  }

  /** No `[` is followed directly by `:`. */
  predicate NoEmptyMap(shapes: seq<Shape>) {
    forall k :: 1 <= k < |shapes| && shapes[k].value == ":" ==> shapes[k - 1].value != "["
  }

  lemma AdjacencyContinues(shapes: seq<Shape>, i: nat, stack: seq<string>)
    requires 1 <= i < |shapes| && NoEmptyMap(shapes) && !AdjacencyRefused(shapes, i, stack)
    ensures AdjacentAt(shapes, i, stack) == Continue
    ensures !AdjacencyRefused(shapes, i + 1, AdjacencyStack(shapes[i].value, stack))
  {
  }

  ghost predicate Plain(shapes: seq<Shape>) {
    Braceless(shapes) && NoEmptyMap(shapes) && forall k :: 0 <= k < |shapes| ==> Lexical(shapes[k])
  }

  /** What one token does to the adjacency stack. */
  lemma AdjacencyStep(shapes: seq<Shape>, i: nat, stack: seq<string>)
    requires 1 <= i < |shapes| && Plain(shapes) && !AdjacencyRefused(shapes, i, stack)
    ensures !IsBracket(shapes[i]) ==> !AdjacencyRefused(shapes, i + 1, stack)
    ensures IsBracket(shapes[i]) && IsOpener(shapes[i].value) ==>
              !AdjacencyRefused(shapes, i + 1, stack + [shapes[i].value])
    ensures IsBracket(shapes[i]) && IsCloser(shapes[i].value) && stack != [] ==>
              !AdjacencyRefused(shapes, i + 1, stack[..|stack| - 1])
  {
  }

  /** Without an empty map the adjacency check is what puts the dots there. */
  lemma {:induction false} ContinuedDotted(shapes: seq<Shape>, i: nat, stack: seq<string>)
    requires Plain(shapes) && 1 <= i <= |shapes| && Nested(shapes, i, stack) && !AdjacencyRefused(shapes, i, stack)
    ensures TopDotted(shapes, i, |stack|)
    decreases |shapes| - i
  {
    hide AdjacencyRefused;
    if i < |shapes| {
      AdjacencyStep(shapes, i, stack);
      if !IsBracket(shapes[i]) {
        ContinuedDotted(shapes, i + 1, stack);
      } else if IsOpener(shapes[i].value) {
        ContinuedDotted(shapes, i + 1, stack + [shapes[i].value]);
      } else {
        ContinuedDotted(shapes, i + 1, stack[..|stack| - 1]);
        if |stack| == 1 && i + 1 < |shapes| {
          DotFollows(shapes, i + 1);
        }
      }
    }
  }

  /** After a completed expression at depth 0 only a dot can follow. */
  lemma DotFollows(shapes: seq<Shape>, i: nat)
    requires Plain(shapes) && 1 <= i < |shapes| && !AdjacencyRefused(shapes, i, []) && Nested(shapes, i, [])
    requires IsCloser(shapes[i - 1].value)
    ensures shapes[i].value == "."
  {
    AdjacencyContinues(shapes, i, []);
    assert Lexical(shapes[i]);
  }

  /** Every safe query that writes no empty map `[:]` is such a chain. */
  lemma SafeQueriesAreChains(query: string)
    requires Classify(query) == Safe && NoEmptyMap(Shapes(Lex(query).tokens))
    ensures TopDotted(Shapes(Lex(query).tokens), 0, 0)
    ensures exists calls :: IsTraversal(Shapes(Lex(query).tokens), calls)
  {
    hide TopDotted, Classify, Lex;
    SafeMeans(query);
    var shapes := Shapes(Lex(query).tokens);
    RootIsDotted(shapes);
    assert Nested(shapes, 1, []);
    ContinuedDotted(shapes, 1, []);
    SafeChainsExactly(query);
  }

  // ---------- Identifiers ----------

  lemma {:induction false} ReportedMethods(shapes: seq<Shape>, n: nat, i: nat)
    requires i < n <= |shapes|
    ensures forall name :: name in ReportAt(shapes, i).methods ==> name in Methods(shapes, n)
  {
    if i < n - 1 {
      ReportedMethods(shapes, n - 1, i);
    }
  }

  /** Every identifier of a safe query is the root, a known read call, an anonymous step call
      or an argument word, and none is the name of a write step. */
  lemma SafeIdentifiers(query: string, i: nat)
    requires Classify(query) == Safe && i < |Lex(query).tokens| && Lex(query).tokens[i].shape.kind == Identifier
    ensures var shapes := Shapes(Lex(query).tokens);
            var name := Lower(shapes[i].value);
            && (|| (i == 0 && name == "g")
                || (IsMember(shapes, i) && IsCall(shapes, i) && IsReadMethod(name))
                || (!IsMember(shapes, i) && IsCall(shapes, i) && IsAnonymousStep(name))
                || (!IsMember(shapes, i) && !IsCall(shapes, i) && IsArgumentWord(name)))
            && !IsWriteMethod(name)
  {
    SafeMeans(query);
    var shapes := Shapes(Lex(query).tokens);
    ReportedMethods(shapes, |shapes|, i);
    assert !ReportAt(shapes, i).doubtful && !ReportAt(shapes, i).writes;
  }

  /** The brackets of every safe query nest properly, empty maps or not. */
  lemma SafeQueriesNest(query: string) returns (forest: seq<Tree>)
    requires Classify(query) == Safe
    ensures WellNested(forest) && Flatten(forest) == Shapes(Lex(query).tokens)
  {
    SafeMeans(query);
    forest := BalancedParses(Shapes(Lex(query).tokens));
  }
}
