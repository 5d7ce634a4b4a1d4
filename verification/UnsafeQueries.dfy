/** Which queries are unsafe: said of their tokens alone, and whatever else is wrong with them. */
module UnsafeQueries {
  import opened Characters
  import opened GremlinScanner
  import opened GremlinPolicy
  import opened ScannerLaws
  import opened StrayLiterals
  import opened Spelling
  import opened PrintedTokens
  import opened PrintedQueries

  const WRITE_STEPS :=
    {"addv", "adde", "drop", "dropv", "drope", "remove", "clear", "sideeffect", "io", "call", "program", "property",
     "iterate"}

  /** Token `i` is an identifier that names a write step, after a dot or before a bracket. */
  predicate WriteStepAt(tokens: seq<Token>, i: nat) {
    && i < |tokens| && tokens[i].shape.kind == Identifier && Lower(tokens[i].shape.value) in WRITE_STEPS
    && ((i > 0 && tokens[i - 1].shape.value == ".") || (i + 1 < |tokens| && tokens[i + 1].shape.value == "("))
  }

  /** Lower case puts the small letter for each ASCII capital and changes nothing else. */
  lemma LowerExactly(s: string, k: nat)
    requires k < |s|
    ensures forall i :: 0 <= i < 26 && s[k] == CAPITAL[i] ==> Lower(s)[k] == SMALL[i]
    ensures s[k] !in CAPITAL ==> Lower(s)[k] == s[k]
  {
    LetterCodes(s[k]);
  }

  lemma BlankHasNoTokens(query: string)
    requires IsBlank(query)
    ensures Lex(query).tokens == []
  {
    BlanksScanAway(query, 0, |query|);
  }

  lemma WritesAt(tokens: seq<Token>, i: nat)
    requires i < |tokens|
    ensures ReportAt(Shapes(tokens), i).writes <==> WriteStepAt(tokens, i)
  {
  }

  /** A query is unsafe exactly when some token is a write step that follows a dot or is called;
      nothing else about the query matters. */
  lemma UnsafeExactly(query: string)
    ensures Classify(query) == Unsafe <==> exists i: nat :: WriteStepAt(Lex(query).tokens, i)
  {
    hide ReportAt, WriteStepAt, Lex, UncertainTokens;
    var tokens := Lex(query).tokens;
    forall i | 0 <= i < |tokens|
      ensures ReportAt(Shapes(tokens), i).writes <==> WriteStepAt(tokens, i)
    {
      WritesAt(tokens, i);
    }
    OnlyTokens(tokens);
    if IsBlank(query) {
      BlankHasNoTokens(query);
    }
  }

  lemma OnlyTokens(tokens: seq<Token>)
    ensures forall i: nat :: WriteStepAt(tokens, i) ==> i < |tokens|
  {
  }

  /** Whatever is written on the lines after it, an unsafe query stays unsafe. */
  lemma UnsafeStays(query: string, suffix: string)
    requires Classify(query) == Unsafe && Lex(query).valid && NewLine(suffix)
    ensures Classify(query + suffix) == Unsafe
  {
    hide Classify, TokensFrom, ValidFrom, TextFrom;
    UnsafeExactly(query);
    UnsafeExactly(query + suffix);
    LexKept(query, suffix, 0);
    var i: nat :| WriteStepAt(Lex(query).tokens, i);
    assert WriteStepAt(Lex(query + suffix).tokens, i);
  }

  // ---------- A witness ----------

  /** The start of a query that drops all vertices, its last bracket never closed. */
  const UNCLOSED := "g" + CallText("V", "") + "." + "drop" + "("
  const UNCLOSED_SHAPES := [Word("g")] + CallShapes("V", []) + [Mark('.')] + [Word("drop")] + [Mark('(')]

  lemma UnclosedSpelled()
    ensures Spells(UNCLOSED, 0, "g") && Spells(UNCLOSED, 1, CallText("V", "")) && Spells(UNCLOSED, 6, "drop")
    ensures UNCLOSED[5] == '.' && UNCLOSED[10] == '(' && |UNCLOSED| == 11 && |CallText("V", "")| == 4
    ensures UNCLOSED[1] == '.' && IsName("g") && IsName("V") && IsName("drop")
  {
    assert UNCLOSED == "g.V().drop(";
  }

  lemma UnclosedScans()
    ensures Shapes(Lex(UNCLOSED).tokens) == UNCLOSED_SHAPES
  {
    hide Emits, Lex, Spells, CallText, CallShapes, IsName;
    UnclosedSpelled();
    var call := CallShapes("V", []);
    EmitName(UNCLOSED, 0, "g");
    EmptyCallEmits(UNCLOSED, 1, "V");
    EmitMark(UNCLOSED, 5);
    EmitName(UNCLOSED, 6, "drop");
    EmitMark(UNCLOSED, 10);
    EmitsJoin(UNCLOSED, 0, 1, 5, [Word("g")], call);
    EmitsJoin(UNCLOSED, 0, 5, 6, [Word("g")] + call, [Mark('.')]);
    EmitsJoin(UNCLOSED, 0, 6, 10, [Word("g")] + call + [Mark('.')], [Word("drop")]);
    EmitsJoin(UNCLOSED, 0, 10, 11, [Word("g")] + call + [Mark('.')] + [Word("drop")], [Mark('(')]);
    EmittedWhole(UNCLOSED, UNCLOSED_SHAPES);
  }

  /** Its bracket left open makes it no less unsafe. */
  lemma DropIsUnsafe()
    ensures Classify(UNCLOSED) == Unsafe
  {
    hide Classify, Lex;
    UnclosedScans();
    UnsafeExactly(UNCLOSED);
    var tokens := Lex(UNCLOSED).tokens;
    assert tokens[6].shape == UNCLOSED_SHAPES[6] == Word("drop") && tokens[5].shape == UNCLOSED_SHAPES[5];
    assert Lower("drop") == "drop";
    assert WriteStepAt(tokens, 6);
  }
}
