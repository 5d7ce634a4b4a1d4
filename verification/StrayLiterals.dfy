/** The limit of the adjacency check: an empty map `[:]` ends it, so whatever follows is not
    checked. A stray literal after a safe query stays safe exactly in that case. */
module StrayLiterals {
  import opened Characters
  import opened GremlinScanner
  import opened GremlinPolicy
  import opened SafeStructure
  import opened Spelling
  import opened PrintedTokens
  import opened PrintedQueries

  // ---------- Scanning a query with a new line appended ----------

  ghost predicate NewLine(suffix: string) {
    suffix != "" && suffix[0] == '\n'
  }

  lemma {:induction false} LineEndKept(query: string, suffix: string, i: nat)
    requires NewLine(suffix) && i <= |query|
    ensures LineEnd(query + suffix, i) == LineEnd(query, i)
    decreases |query| - i
  {
    if i < |query| && !IsLineBreak(query[i]) {
      LineEndKept(query, suffix, i + 1);
    }
  }

  lemma {:induction false} CommentCloseKept(query: string, suffix: string, i: nat)
    requires CommentClose(query, i).Some?
    ensures CommentClose(query + suffix, i) == CommentClose(query, i)
    decreases |query| - i
  {
    if !PairAt(query, i, '*', '/') {
      CommentCloseKept(query, suffix, i + 1);
    }
  }

  lemma TripleKept(query: string, suffix: string, i: nat, quote: char)
    requires NewLine(suffix) && i < |query| && IsQuote(quote)
    ensures TripleAt(query + suffix, i, quote) == TripleAt(query, i, quote)
  {
  }

  lemma {:induction false} LiteralEndKept(query: string, suffix: string, i: nat, quote: char, triple: bool)
    requires NewLine(suffix) && IsQuote(quote) && LiteralEnd(query, i, quote, triple).Some?
    ensures LiteralEnd(query + suffix, i, quote, triple) == LiteralEnd(query, i, quote, triple)
    decreases |query| - i
  {
    TripleKept(query, suffix, i, quote);
    if query[i] == '\\' {
      LiteralEndKept(query, suffix, i + 2, quote, triple);
    } else if (triple && !TripleAt(query, i, quote)) || (!triple && query[i] != quote) {
      LiteralEndKept(query, suffix, i + 1, quote, triple);
    }
  }

  lemma {:induction false} NameEndKept(query: string, suffix: string, i: nat)
    requires NewLine(suffix) && i <= |query|
    ensures NameEnd(query + suffix, i) == NameEnd(query, i)
    decreases |query| - i
  {
    if i < |query| && IsNamePart(query[i]) {
      NameEndKept(query, suffix, i + 1);
    }
  }

  lemma {:induction false} NumberEndKept(query: string, suffix: string, i: nat, seenDot: bool)
    requires NewLine(suffix) && i <= |query|
    ensures NumberEnd(query + suffix, i, seenDot) == NumberEnd(query, i, seenDot)
    decreases |query| - i
  {
    if i < |query| && IsDigit(query[i]) {
      NumberEndKept(query, suffix, i + 1, seenDot);
    } else if i < |query| && query[i] == '.' && !seenDot {
      NumberEndKept(query, suffix, i + 1, true);
    }
  }

  lemma LexemeKept(query: string, suffix: string, i: nat)
    requires NewLine(suffix) && i < |query| && !LexemeAt(query, i).kind.Broken?
    ensures LexemeAt(query + suffix, i) == LexemeAt(query, i)
  {
    var longer := query + suffix;
    if IsSpace(query[i]) {
    } else if PairAt(query, i, '/', '/') {
      LineEndKept(query, suffix, i + 2);
    } else if PairAt(query, i, '/', '*') {
      CommentCloseKept(query, suffix, i + 2);
      var close := CommentClose(query, i + 2).value;
      assert OpensInside(longer, i + 2, close) == OpensInside(query, i + 2, close) by {
        assert forall k :: 0 <= k && k + 2 <= close ==> PairAt(longer, k, '/', '*') == PairAt(query, k, '/', '*');
      }
    } else if IsQuote(query[i]) {
      TripleKept(query, suffix, i, query[i]);
      LiteralEndKept(query, suffix, i + DelimiterLength(query, i), query[i], TripleAt(query, i, query[i]));
    } else if IsNameStart(query[i]) {
      NameEndKept(query, suffix, i + 1);
    } else if IsDigit(query[i]) {
      NumberEndKept(query, suffix, i + 1, false);
    }
  }

  lemma LiteralOpensQuoted(query: string, i: nat)
    requires i < |query| && LexemeAt(query, i).kind.Literal?
    ensures IsQuote(query[i])
  {
  }

  lemma LexemeOutputsKept(query: string, suffix: string, l: Lexeme)
    requires NewLine(suffix) && l.start < |query| && l == LexemeAt(query, l.start) && !l.kind.Broken?
    requires LexemeAt(query + suffix, l.start) == l
    ensures TokensOf(query + suffix, l) == TokensOf(query, l) && TextOf(query + suffix, l) == TextOf(query, l)
  {
    hide LexemeAt, Masked, TripleAt;
    var longer := query + suffix;
    assert longer[l.start..l.end] == query[l.start..l.end];
    if l.kind.Literal? {
      LiteralFitsDelimiters(query, l.start);
      LiteralOpensQuoted(query, l.start);
      TripleKept(query, suffix, l.start, query[l.start]);
      var d := DelimiterLength(query, l.start);
      assert longer[l.start..l.start + d] == query[l.start..l.start + d];
      assert longer[l.start + d..l.end - d] == query[l.start + d..l.end - d];
      assert longer[l.end - d..l.end] == query[l.end - d..l.end];
    }
  }

  lemma {:induction false} LexKept(query: string, suffix: string, i: nat)
    requires NewLine(suffix) && i <= |query| && ValidFrom(query, i)
    ensures var longer := query + suffix;
            && TokensFrom(longer, i) == TokensFrom(query, i) + TokensFrom(longer, |query|)
            && TextFrom(longer, i) == TextFrom(query, i) + TextFrom(longer, |query|)
            && ValidFrom(longer, i) == ValidFrom(longer, |query|)
    decreases |query| - i
  {
    hide LexemeAt, TokensOf, TextOf;
    if i < |query| {
      var l := LexemeAt(query, i);
      LexemeKept(query, suffix, i);
      LexemeOutputsKept(query, suffix, l);
      LexKept(query, suffix, l.end);
    }
  }

  // ---------- A stray literal ----------

  const STRAY := "\ntrue"
  const STRAY_SHAPE := Shape(Identifier, "true")

  lemma StrayScans(query: string)
    requires ValidFrom(query, 0)
    ensures var lexed := Lex(query + STRAY);
            && Shapes(lexed.tokens) == Shapes(Lex(query).tokens) + [STRAY_SHAPE] && lexed.valid
    ensures exists rest :: Clean(rest) && Lex(query + STRAY).normalized == Lex(query).normalized + rest
  {
    hide TokensFrom, TextFrom, ValidFrom;
    var longer, n := query + STRAY, |query|;
    assert Spells(longer, n, STRAY);
    LexKept(query, STRAY, 0);
    StrayEmits(longer, n);
    NothingLeft(longer);
    assert Shapes(TokensFrom(longer, 0)) == Shapes(TokensFrom(query, 0)) + Shapes(TokensFrom(longer, n));
    assert Clean(TextFrom(longer, n));
  }

  lemma StrayEmits(longer: string, n: nat)
    requires Spells(longer, n, STRAY) && n + 5 == |longer|
    ensures Emits(longer, n, n + 5, [STRAY_SHAPE])
  {
    hide Emits;
    SpellsAt(longer, n, STRAY, 0);
    assert STRAY == "\n" + "true";
    SpellsJoin(longer, n, "\n", "true");
    EmitBlank(longer, n);
    EmitName(longer, n + 1, "true");
    EmitsJoin(longer, n, n + 1, n + 5, [], [STRAY_SHAPE]);
    assert [] + [STRAY_SHAPE] == [STRAY_SHAPE];
  }

  lemma NothingLeft(query: string)
    ensures TokensFrom(query, |query|) == [] && TextFrom(query, |query|) == "" && ValidFrom(query, |query|)
  {
  }

  lemma {:induction false} StrayKeepsNesting(shapes: seq<Shape>, i: nat, stack: seq<string>)
    requires i <= |shapes|
    ensures Nested(shapes + [STRAY_SHAPE], i, stack) == Nested(shapes, i, stack)
    decreases |shapes| - i
  {
    var longer := shapes + [STRAY_SHAPE];
    if i < |shapes| {
      assert longer[i] == shapes[i];
      if shapes[i].kind == PunctuationToken && IsOpener(shapes[i].value) {
        StrayKeepsNesting(shapes, i + 1, stack + [shapes[i].value]);
      } else if shapes[i].kind == PunctuationToken && IsCloser(shapes[i].value) {
        if stack != [] {
          StrayKeepsNesting(shapes, i + 1, stack[..|stack| - 1]);
        }
      } else {
        StrayKeepsNesting(shapes, i + 1, stack);
      }
    } else {
      assert longer[i] == STRAY_SHAPE;
      assert Nested(longer, i + 1, stack) == (stack == []);
    }
  }

  lemma StrayReports(shapes: seq<Shape>, i: nat)
    requires i < |shapes| && DotsNamed(shapes)
    ensures ReportAt(shapes + [STRAY_SHAPE], i) == ReportAt(shapes, i)
    ensures ReportAt(shapes + [STRAY_SHAPE], |shapes|) == Report([], false, false)
  {
    assert Lower("true") == "true";
  }

  lemma {:induction false} StrayMethods(shapes: seq<Shape>, n: nat)
    requires n <= |shapes| && DotsNamed(shapes)
    ensures Methods(shapes + [STRAY_SHAPE], n) == Methods(shapes, n)
  {
    hide ReportAt;
    if n > 0 {
      StrayMethods(shapes, n - 1);
      StrayReports(shapes, n - 1);
    }
  }

  /** Apart from adjacency, nothing in the analysis minds the stray literal. */
  lemma StrayOtherwiseFine(shapes: seq<Shape>)
    requires SafeTokens(shapes)
    ensures var longer := shapes + [STRAY_SHAPE];
            && Braceless(longer) && Nested(longer, 0, []) && Rooted(longer) && DotsNamed(longer)
            && !Doubtful(longer) && !Writes(longer)
            && forall name :: name in Methods(longer, |longer|) ==> IsReadMethod(name)
  {
    hide ReportAt, IsReadMethod;
    StrayKeepsNesting(shapes, 0, []);
    StrayMethods(shapes, |shapes|);
    StrayReports(shapes, 0);
    forall i | 0 <= i < |shapes|
      ensures ReportAt(shapes + [STRAY_SHAPE], i) == ReportAt(shapes, i)
    {
      StrayReports(shapes, i);
    }
  }

  /** Once the check meets an empty map it is over, and what is appended does not count. */
  lemma {:induction false} EmptyMapEndsCheck(shapes: seq<Shape>, i: nat, stack: seq<string>, k: nat)
    requires 1 <= i <= k < |shapes| && shapes[k].value == ":" && shapes[k - 1].value == "["
    requires !AdjacencyRefused(shapes, i, stack)
    ensures !AdjacencyRefused(shapes + [STRAY_SHAPE], i, stack)
    decreases k - i
  {
    var longer := shapes + [STRAY_SHAPE];
    if i == k {
      assert AdjacentAt(shapes, i, stack) == Accept;
    } else {
      assert i + 1 < |shapes| && AdjacentAt(longer, i, stack) == AdjacentAt(shapes, i, stack);
      if AdjacentAt(shapes, i, stack) == Continue {
        EmptyMapEndsCheck(shapes, i + 1, AdjacencyStack(shapes[i].value, stack), k);
      }
    }
  }

  /** Without an empty map the check reaches the stray literal and refuses it. */
  lemma {:induction false} StrayRefused(shapes: seq<Shape>, i: nat, stack: seq<string>)
    requires 1 <= i <= |shapes| && NoEmptyMap(shapes) && IsCloser(shapes[|shapes| - 1].value)
    requires !AdjacencyRefused(shapes, i, stack)
    ensures AdjacencyRefused(shapes + [STRAY_SHAPE], i, stack)
    decreases |shapes| - i
  {
    var longer := shapes + [STRAY_SHAPE];
    if i < |shapes| {
      AdjacencyContinues(shapes, i, stack);
      if i + 1 < |shapes| {
        assert AdjacentAt(longer, i, stack) == AdjacentAt(shapes, i, stack);
      }
      if AdjacentAt(longer, i, stack) == Continue {
        StrayRefused(shapes, i + 1, AdjacencyStack(shapes[i].value, stack));
      } else {
        assert longer[i] == shapes[i] && longer[i - 1] == shapes[i - 1];
      }
    }
  }

  lemma ChainEndsClosed(shapes: seq<Shape>, i: nat, calls: seq<Call>)
    requires calls != [] && IsChain(calls) && Spells(shapes, i, FlattenCalls(calls))
             && i + |FlattenCalls(calls)| == |shapes|
    ensures IsCloser(shapes[|shapes| - 1].value)
    decreases calls
  {
    var whole := FlattenCalls(calls);
    SpellsJoin(shapes, i, FlattenCall(calls[0]), FlattenCalls(calls[1..]));
    if |calls| > 1 {
      ChainEndsClosed(shapes, i + |FlattenCall(calls[0])|, calls[1..]);
    } else {
      assert calls[1..] == [] && whole == FlattenCall(calls[0]);
      SpellsAt(shapes, i, whole, |whole| - 1);
      assert calls[0] in calls;
    }
  }

  /** Appending a stray `true` to a safe query leaves it safe exactly when the query contains
      an empty map `[:]`, and a text that ends so is no chain of calls. */
  lemma StrayLiteralExactly(query: string)
    requires Classify(query) == Safe
    ensures Classify(query + STRAY) == Safe <==> !NoEmptyMap(Shapes(Lex(query).tokens))
  {
    hide UncertainTokens, Lex, AdjacencyRefused, Nested, Methods, Writes, Doubtful, Rooted, DotsNamed, Braceless,
         ValidFrom, Classify;
    SafeMeans(query);
    var shapes := Shapes(Lex(query).tokens);
    var longer := shapes + [STRAY_SHAPE];
    SafeText(query);
    StrayScans(query);
    StrayOtherwiseFine(shapes);
    if NoEmptyMap(shapes) {
      SafeQueriesAreChains(query);
      var calls := TraversalOf(query);
      assert shapes[1..|shapes|] == FlattenCalls(calls);
      ChainEndsClosed(shapes, 1, calls);
      StrayRefused(shapes, 1, []);
    } else {
      var k :| 1 <= k < |shapes| && shapes[k].value == ":" && shapes[k - 1].value == "[";
      EmptyMapEndsCheck(shapes, 1, [], k);
    }
    StrayDecides(query, longer);
  }

  lemma SafeText(query: string)
    requires Classify(query) == Safe
    ensures ValidFrom(query, 0) && !HasMarker(Lex(query).normalized) && !IsBlank(query)
  {
  }

  lemma StrayDecides(query: string, longer: seq<Shape>)
    requires !IsBlank(query) && !HasMarker(Lex(query).normalized)
    requires Shapes(Lex(query + STRAY).tokens) == longer && Lex(query + STRAY).valid
    requires exists rest :: Clean(rest) && Lex(query + STRAY).normalized == Lex(query).normalized + rest
    requires Braceless(longer) && Nested(longer, 0, []) && Rooted(longer) && DotsNamed(longer)
    requires !Doubtful(longer) && !Writes(longer)
    requires forall name :: name in Methods(longer, |longer|) ==> IsReadMethod(name)
    ensures Classify(query + STRAY) == Safe <==> !AdjacencyRefused(longer, 1, [])
  {
    hide Lex, Nested, Writes, Doubtful, DotsNamed, Braceless, Methods, IsReadMethod, AdjacencyRefused;
    var text := Lex(query).normalized;
    var rest :| Clean(rest) && Lex(query + STRAY).normalized == text + rest;
    StillUnmarked(text, rest);
    var k :| 0 <= k < |query| && !IsSpace(query[k]);
    assert (query + STRAY)[k] == query[k];
  }

  lemma StillUnmarked(text: string, rest: string)
    requires !HasMarker(text) && Clean(rest)
    ensures !HasMarker(text + rest)
  {
  }

  // ---------- A witness ----------

  const WITNESS := "g.V([:])"
  const WITNESS_SHAPES := [Shape(Identifier, "g")] + [Mark('.')] + [Shape(Identifier, "V")] + [Mark('(')] + [Mark('[')]
                          + [Mark(':')] + [Mark(']')] + [Mark(')')]

  lemma WitnessSpelled()
    ensures Spells(WITNESS, 0, "g") && Spells(WITNESS, 1, CallText("V", "[:]")) && |WITNESS| == 8
    ensures |CallText("V", "[:]")| == 7 && IsName("g") && IsName("V")
    ensures WITNESS[1] == '.' && WITNESS[4] == '[' && WITNESS[5] == ':' && WITNESS[6] == ']'
  {
  }

  lemma WitnessScans()
    ensures Shapes(Lex(WITNESS).tokens) == WITNESS_SHAPES && Lex(WITNESS).valid && Clean(Lex(WITNESS).normalized)
  {
    hide Emits, Lex, Spells, CallText;
    WitnessSpelled();
    EmitName(WITNESS, 0, "g");
    EmitMark(WITNESS, 4);
    EmitMark(WITNESS, 5);
    EmitMark(WITNESS, 6);
    EmitsJoin(WITNESS, 4, 5, 6, [Mark('[')], [Mark(':')]);
    EmitsJoin(WITNESS, 4, 6, 7, [Mark('[')] + [Mark(':')], [Mark(']')]);
    CallEmits(WITNESS, 1, "V", "[:]", [Mark('[')] + [Mark(':')] + [Mark(']')]);
    var call := CallShapes("V", [Mark('[')] + [Mark(':')] + [Mark(']')]);
    EmitsJoin(WITNESS, 0, 1, 8, [Word("g")], call);
    assert [Word("g")] + call == WITNESS_SHAPES;
    EmittedWhole(WITNESS, WITNESS_SHAPES);
  }

  lemma WitnessReports(i: nat)
    requires i < 8
    ensures ReportAt(WITNESS_SHAPES, i) == Report(if i == 2 then ["v"] else [], false, false)
    ensures WITNESS_SHAPES[i].value == "." ==> i == 1
  {
    assert Lower("g") == "g" && Lower("V") == "v";
  }

  lemma WitnessMethods()
    ensures Methods(WITNESS_SHAPES, 8) == ["v"]
  {
    hide ReportAt;
    var s := WITNESS_SHAPES;
    forall i | 0 <= i < 8
      ensures ReportAt(s, i).methods == if i == 2 then ["v"] else []
    {
      WitnessReports(i);
    }
    assert Methods(s, 0) == [] && Methods(s, 1) == [] && Methods(s, 2) == [] && Methods(s, 3) == ["v"];
    assert Methods(s, 4) == ["v"] && Methods(s, 5) == ["v"] && Methods(s, 6) == ["v"] && Methods(s, 7) == ["v"];
  }

  lemma WitnessNested()
    ensures Nested(WITNESS_SHAPES, 0, [])
  {
    var s := WITNESS_SHAPES;
    assert ["(", "["][..1] == ["("] && ["("][..0] == [] && [] + ["("] == ["("] && ["("] + ["["] == ["(", "["];
    assert Nested(s, 8, []) && Nested(s, 7, ["("]) && Nested(s, 6, ["(", "["]) && Nested(s, 5, ["(", "["]);
    assert Nested(s, 4, ["("]) && Nested(s, 3, []) && Nested(s, 2, []) && Nested(s, 1, []);
  }

  lemma WitnessAdjacent()
    ensures !AdjacencyRefused(WITNESS_SHAPES, 1, [])
  {
    var s := WITNESS_SHAPES;
    assert Lower("V") == "v" && Lower("g") == "g";
    assert !AdjacencyRefused(s, 5, ["(", "["]);
    assert AdjacencyStack("[", ["("]) == ["(", "["] && AdjacencyStack("(", []) == ["("];
    assert !AdjacencyRefused(s, 4, ["("]);
    assert !AdjacencyRefused(s, 3, []) && !AdjacencyRefused(s, 2, []);
  }

  lemma WitnessSafe()
    ensures Classify(WITNESS) == Safe
  {
    hide Lex, AdjacencyRefused, Nested, ReportAt, Methods;
    WitnessScans();
    CleanHasNoMarker(Lex(WITNESS).normalized);
    WitnessMethods();
    WitnessNested();
    WitnessAdjacent();
    forall i | 0 <= i < 8
      ensures ReportAt(WITNESS_SHAPES, i) == Report(if i == 2 then ["v"] else [], false, false)
    {
      WitnessReports(i);
    }
    assert Lower("g") == "g" && Lower("V") == "v";
    assert !IsSpace(WITNESS[0]);
  }

  lemma WitnessDotted()
    ensures TopDotted(WITNESS_SHAPES, 0, 0)
  {
    var s := WITNESS_SHAPES;
    assert TopDotted(s, 8, 0) && TopDotted(s, 7, 1) && TopDotted(s, 6, 2) && TopDotted(s, 5, 2) && TopDotted(s, 4, 1);
    assert TopDotted(s, 3, 0) && TopDotted(s, 2, 0) && TopDotted(s, 1, 0);
  }

  /** A text that ends in a stray literal is no chain of calls. */
  lemma StrayIsNoChain(shapes: seq<Shape>, calls: seq<Call>)
    ensures !IsTraversal(shapes + [STRAY_SHAPE], calls)
  {
    var longer := shapes + [STRAY_SHAPE];
    if IsTraversal(longer, calls) {
      assert longer[1..|longer|] == FlattenCalls(calls);
      ChainEndsClosed(longer, 1, calls);
      assert false;
    }
  }

  /** The exception is real: `g.V([:])` is a chain of calls, and followed by a stray `true` it is
      still classified safe but is no chain. */
  lemma SafeButNotAChain()
    ensures Classify(WITNESS) == Safe && Classify(WITNESS + STRAY) == Safe
    ensures exists calls :: IsTraversal(Shapes(Lex(WITNESS).tokens), calls)
    ensures !exists calls :: IsTraversal(Shapes(Lex(WITNESS + STRAY).tokens), calls)
  {
    hide Lex, Classify, TopDotted, IsTraversal;
    WitnessSafe();
    WitnessScans();
    WitnessDotted();
    var shapes := Shapes(Lex(WITNESS).tokens);
    assert shapes[5].value == ":" && shapes[4].value == "[";
    SafeChainsExactly(WITNESS);
    StrayLiteralExactly(WITNESS);
    SafeText(WITNESS);
    StrayScans(WITNESS);
    forall calls ensures !IsTraversal(shapes + [STRAY_SHAPE], calls) {
      StrayIsNoChain(shapes, calls);
    }
  }
}
