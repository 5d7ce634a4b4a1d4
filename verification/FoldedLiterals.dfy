/** A safe query of which the cost check does not see all methods: its literal spans a line feed. */
module FoldedLiterals {
  import opened Wrappers
  import opened Spelling
  import opened GremlinScanner
  import opened GremlinPolicy
  import opened ScannerLaws
  import opened SecondScan
  import opened PrintedTokens
  import opened PrintedQueries
  import opened PrintedMarkers
  import opened PrintedSafety

  /** `g.V('a\` and, on the next line, `').limit(5)`. */
  const FOLDED := "g" + CallText("V", TEXT) + CallText("limit", "5")
  const TEXT := "'a\\\n'"
  const LITERAL := Shape(StringToken, TEXT)
  const FIVE := Shape(NumberToken, "5")
  const FOLDED_SHAPES := [Word("g")] + CallShapes("V", [LITERAL]) + CallShapes("limit", [FIVE])

  // ---------- Its tokens ----------

  lemma LiteralAt(query: string, i: nat)
    requires Spells(query, i, TEXT)
    ensures Emits(query, i, i + 5, [LITERAL])
    ensures LexemeAt(query, i) == Lexeme(Literal, i, i + 5) && Folded(query, i)
  {
    hide Emits, LexemeAt;
    assert query[i..i + 5] == TEXT;
    assert query[i] == query[i..i + 5][0] && query[i + 1] == query[i..i + 5][1] && query[i + 2] == query[i..i + 5][2];
    assert query[i + 3] == query[i..i + 5][3] && query[i + 4] == query[i..i + 5][4];
    assert LiteralEnd(query, i + 4, '\'', false) == Some(i + 5) && LiteralEnd(query, i + 2, '\'', false) == Some(i + 5);
    SingleQuoted(query, i, i + 5);
    assert Shapes(TokensOf(query, LexemeAt(query, i))) == [LITERAL];
    EmitLexeme(query, i);
  }

  lemma FoldedSpells()
    ensures Spells(FOLDED, 0, "g") && Spells(FOLDED, 1, CallText("V", TEXT))
            && Spells(FOLDED, 10, CallText("limit", "5"))
    ensures Spells(FOLDED, 4, TEXT) && Spells(FOLDED, 17, "5") && |FOLDED| == 19
    ensures |CallText("V", TEXT)| == |CallText("limit", "5")| == 9
    ensures FOLDED[0] == 'g' && FOLDED[1] == '.' && FOLDED[2] == 'V' && FOLDED[3] == '(' && FOLDED[18] == ')'
  {
    assert FOLDED == "g.V('a\\\n').limit(5)";
  }

  lemma FoldedScans()
    ensures Shapes(Lex(FOLDED).tokens) == FOLDED_SHAPES && Lex(FOLDED).valid && Clean(Lex(FOLDED).normalized)
  {
    hide Emits, Lex, Spells, CallText, CallShapes;
    FoldedSpells();
    EmitName(FOLDED, 0, "g");
    LiteralAt(FOLDED, 4);
    CallEmits(FOLDED, 1, "V", TEXT, [LITERAL]);
    EmitNumber(FOLDED, 17, "5");
    CallEmits(FOLDED, 10, "limit", "5", [FIVE]);
    EmitsJoin(FOLDED, 0, 1, 10, [Word("g")], CallShapes("V", [LITERAL]));
    EmitsJoin(FOLDED, 0, 10, 19, [Word("g")] + CallShapes("V", [LITERAL]), CallShapes("limit", [FIVE]));
    EmittedWhole(FOLDED, FOLDED_SHAPES);
  }

  // ---------- It is safe ----------

  lemma AtomCallMoves(shapes: seq<Shape>, i: nat, name: string, atom: Shape, s: seq<string>)
    requires Spells(shapes, i, CallShapes(name, [atom])) && 1 <= i && IsStepName(name)
    requires Solid(atom) && atom.kind != Identifier
    ensures Moves(shapes, i, i + 5, s, s)
  {
    hide Moves, IsStepName, Solid;
    CallOpens(shapes, i, name, [atom], s);
    SpellsAt(shapes, i + 3, [atom], 0);
    StepAtom(shapes, i + 3, s + ["("]);
    CallMoves(shapes, i, name, [atom], s);
  }

  lemma FoldedIsSafe()
    ensures Classify(FOLDED) == Safe
  {
    hide Moves, IsStepName, Lower, Lex, Clean, Classify, AnyMarked, CallText;
    var s := FOLDED_SHAPES;
    StepNames();
    assert Spells(s, 1, CallShapes("V", [LITERAL])) && Spells(s, 6, CallShapes("limit", [FIVE]));
    AtomCallMoves(s, 1, "V", LITERAL, []);
    AtomCallMoves(s, 6, "limit", FIVE, []);
    MovesJoin(s, 1, 6, 11, [], [], []);
    FoldedScans();
    FoldedSpells();
    NothingMarked();
    SafeUnlessMarked(FOLDED, s);
  }

  lemma NothingMarked()
    ensures !AnyMarked(FOLDED_SHAPES)
  {
  }

  // ---------- What the second scan misses ----------

  lemma KeptStep(query: string, i: nat)
    requires i < |query| && !LexemeAt(query, i).kind.Literal? && KindOf(LexemeAt(query, i).kind).Some?
    ensures KeptFrom(query, i) == 1 + KeptFrom(query, LexemeAt(query, i).end)
  {
    hide LexemeAt, TokensOf;
    TokensCounted(query, LexemeAt(query, i));
  }

  lemma MarkAt(query: string, i: nat)
    requires i < |query| && IsSafePunctuation(query[i])
    ensures LexemeAt(query, i) == Lexeme(Punctuation, i, i + 1)
  {
  }

  lemma FoldedKept()
    ensures KeptFrom(FOLDED, 0) == 4
  {
    hide LexemeAt, TokensOf, Spells, CallText, Emits;
    FoldedSpells();
    NameAt(FOLDED, 0, 1);
    MarkAt(FOLDED, 1);
    NameAt(FOLDED, 2, 3);
    MarkAt(FOLDED, 3);
    LiteralAt(FOLDED, 4);
    KeptStep(FOLDED, 0);
    KeptStep(FOLDED, 1);
    KeptStep(FOLDED, 2);
    KeptStep(FOLDED, 3);
  }

  lemma FoldedReports(i: nat)
    requires i < 11
    ensures ReportAt(FOLDED_SHAPES, i).methods == if i == 2 then ["v"] else if i == 7 then ["limit"] else []
  {
    assert Lower("g") == "g" && Lower("V") == "v" && Lower("limit") == "limit";
  }

  lemma FoldedMethods()
    ensures Methods(FOLDED_SHAPES, 4) == ["v"] && Methods(FOLDED_SHAPES, 11) == ["v", "limit"]
  {
    hide ReportAt;
    var s := FOLDED_SHAPES;
    forall i | 0 <= i < 11
      ensures ReportAt(s, i).methods == if i == 2 then ["v"] else if i == 7 then ["limit"] else []
    {
      FoldedReports(i);
    }
    assert Methods(s, 0) == [] && Methods(s, 1) == [] && Methods(s, 2) == [] && Methods(s, 3) == ["v"];
    assert Methods(s, 4) == ["v"] && Methods(s, 5) == ["v"] && Methods(s, 6) == ["v"] && Methods(s, 7) == ["v"];
    assert Methods(s, 8) == ["v", "limit"] && Methods(s, 9) == ["v", "limit"] && Methods(s, 10) == ["v", "limit"];
  }

  /** The query is safe and limited, but the cost check does not see the limit. */
  lemma LimitIsLost()
    ensures Classify(FOLDED) == Safe && MethodsOf(FOLDED) == ["v", "limit"]
    ensures MethodsOf(Lex(FOLDED).normalized) == ["v"]
  {
    hide Lex, Classify, Methods, KeptFrom;
    FoldedIsSafe();
    FoldedScans();
    FoldedKept();
    FoldedMethods();
    SecondScanMethods(FOLDED);
  }
}
