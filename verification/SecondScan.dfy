/** The cost check scans the normalized text instead of the query (gremlin_cost_warnings): exactly
    when it sees the same methods. */
module SecondScan {
  import opened GremlinScanner
  import opened GremlinPolicy
  import opened ScannerLaws

  lemma {:induction false} LiteralsQuoted(query: string, i: nat)
    requires i <= |query|
    ensures forall k :: 0 <= k < |TokensFrom(query, i)| ==> Distinct(TokensFrom(query, i)[k].shape)
    decreases |query| - i
  {
    if i < |query| {
      var l := LexemeAt(query, i);
      LiteralsQuoted(query, l.end);
      assert query[l.start..l.end][0] == query[i];
    }
  }

  /** A literal is never mistaken for a mark. */
  predicate Distinct(shape: Shape) {
    shape.kind == StringToken ==> shape.value != "." && shape.value != "("
  }

  lemma {:induction false} ErasedMethods(tokens: seq<Token>, n: nat)
    requires n <= |tokens| && forall k :: 0 <= k < |tokens| ==> Distinct(tokens[k].shape)
    ensures Methods(Shapes(Skeleton(tokens)), n) == Methods(Shapes(tokens), n)
  {
    if n > 0 {
      ErasedMethods(tokens, n - 1);
      var erased, shapes := Shapes(Skeleton(tokens)), Shapes(tokens);
      assert Distinct(tokens[n - 1].shape);
      assert n > 1 ==> Distinct(tokens[n - 2].shape);
      assert n < |tokens| ==> Distinct(tokens[n].shape);
      assert IsMember(erased, n - 1) == IsMember(shapes, n - 1) && IsCall(erased, n - 1) == IsCall(shapes, n - 1);
      assert ReportAt(erased, n - 1).methods == ReportAt(shapes, n - 1).methods;
    }
  }

  function MethodsOf(query: string): seq<string> {
    Methods(Shapes(Lex(query).tokens), |Lex(query).tokens|)
  }

  /** The first tokens by themselves give the methods they give in the query, when a literal
      comes next. */
  lemma {:induction false} MethodsOfPrefix(shapes: seq<Shape>, n: nat, k: nat)
    requires n <= k <= |shapes| && (k < |shapes| ==> shapes[k].value != "(")
    ensures Methods(shapes[..k], n) == Methods(shapes, n)
  {
    if n > 0 {
      MethodsOfPrefix(shapes, n - 1, k);
      assert ReportAt(shapes[..k], n - 1).methods == ReportAt(shapes, n - 1).methods;
    }
  }

  lemma {:induction false} MethodsGrow(shapes: seq<Shape>, k: nat, n: nat)
    requires k <= n <= |shapes|
    ensures |Methods(shapes, k)| <= |Methods(shapes, n)|
    ensures Methods(shapes, k) == Methods(shapes, n) <==> NoMethods(shapes, k, n)
  {
    hide ReportAt;
    if k < n {
      MethodsGrow(shapes, k, n - 1);
    }
  }

  /** None of the tokens from `k` to `n` is a method that is called. */
  predicate NoMethods(shapes: seq<Shape>, k: nat, n: nat)
    requires n <= |shapes|
  {
    forall i | k <= i < n :: ReportAt(shapes, i).methods == []
  }

  lemma {:induction false} KeptBeforeLiteral(query: string, i: nat)
    requires i <= |query|
    ensures var kept := KeptFrom(query, i);
            kept < |TokensFrom(query, i)| ==> TokensFrom(query, i)[kept].shape.kind == StringToken
    decreases |query| - i
  {
    hide LexemeAt, Folded, TokensOf;
    if i < |query| {
      var l := LexemeAt(query, i);
      if Folded(query, i) {
        FoldedIsToken(query, i);
      } else {
        KeptBeforeLiteral(query, l.end);
        assert TokensFrom(query, i) == TokensOf(query, l) + TokensFrom(query, l.end);
      }
    }
  }

  /** What the second scan sees: the methods called before the first folded literal. */
  lemma SecondScanMethods(query: string)
    ensures MethodsOf(Lex(query).normalized) == Methods(Shapes(Lex(query).tokens), KeptFrom(query, 0))
  {
    hide Methods;
    var text := Lex(query).normalized;
    var tokens, seen, kept := Lex(query).tokens, Lex(text).tokens, KeptFrom(query, 0);
    RescanKeeps(query);
    LiteralsQuoted(query, 0);
    LiteralsQuoted(text, 0);
    KeptBeforeLiteral(query, 0);
    ErasedMethods(seen, kept);
    ErasedMethods(tokens, kept);
    assert kept < |tokens| ==> Distinct(tokens[kept].shape);
    assert Shapes(Skeleton(seen)) == Shapes(Skeleton(tokens))[..kept];
    MethodsOfPrefix(Shapes(Skeleton(tokens)), kept, kept);
  }

  /** The second scan sees the methods of the query itself exactly when no method is called
      after the first literal with a one-character delimiter that spans a line feed. */
  lemma SecondScanExactly(query: string)
    ensures MethodsOf(Lex(query).normalized) == MethodsOf(query)
            <==> NoMethods(Shapes(Lex(query).tokens), KeptFrom(query, 0), |Lex(query).tokens|)
  {
    hide Methods;
    SecondScanMethods(query);
    MethodsGrow(Shapes(Lex(query).tokens), KeptFrom(query, 0), |Lex(query).tokens|);
  }

  /** In particular, whenever there is no such literal. */
  lemma SecondScanSeesMethods(query: string)
    requires OneLineLiterals(query, 0)
    ensures MethodsOf(Lex(query).normalized) == MethodsOf(query)
  {
    SecondScanMethods(query);
  }
}
