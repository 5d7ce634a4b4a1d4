/** Losslessness of the scanner, and when scanning its normalized text again finds the same tokens. */
module ScannerLaws {
  import opened Wrappers
  import opened Characters
  import opened GremlinScanner

  // ---------- Losslessness ----------

  /** Tokens are disjoint spans in source order, and each value is its source slice. */
  ghost predicate FaithfulTokens(query: string, tokens: seq<Token>, from: nat) {
    && (forall k :: 0 <= k < |tokens| ==>
          from <= tokens[k].start < tokens[k].end <= |query|
          && tokens[k].shape.value == query[tokens[k].start..tokens[k].end])
    && (forall k, l :: 0 <= k < l < |tokens| ==> tokens[k].end <= tokens[l].start)
  }

  /** Each character is kept or blanked; a line feed is always kept. */
  ghost predicate FaithfulText(query: string, text: string, from: nat) {
    && from + |text| == |query|
    && forall k :: from <= k < |query| ==>
         text[k - from] == query[k] || (text[k - from] == ' ' && query[k] != '\n')
  }

  lemma {:induction false} TokensFaithful(query: string, i: nat)
    requires i <= |query|
    ensures FaithfulTokens(query, TokensFrom(query, i), i)
    decreases |query| - i
  {
    hide LexemeAt;
    if i < |query| {
      TokensFaithful(query, LexemeAt(query, i).end);
    }
  }

  lemma LexemeTextFaithful(query: string, l: Lexeme)
    requires l.start < l.end <= |query| && l == LexemeAt(query, l.start)
    ensures forall k :: 0 <= k < l.end - l.start ==>
              TextOf(query, l)[k] == query[l.start + k] || (TextOf(query, l)[k] == ' ' && query[l.start + k] != '\n')
    ensures KindOf(l.kind).Some? && !l.kind.Literal? ==> TextOf(query, l) == query[l.start..l.end]
  {
    if l.kind.Literal? {
      LiteralFitsDelimiters(query, l.start);
    }
  }

  lemma {:induction false} TextFaithful(query: string, i: nat)
    requires i <= |query|
    ensures FaithfulText(query, TextFrom(query, i), i)
    decreases |query| - i
  {
    hide LexemeAt, TextOf;
    if i < |query| {
      var l := LexemeAt(query, i);
      TextFaithful(query, l.end);
      LexemeTextFaithful(query, l);
      var text := TextFrom(query, i);
      assert text == TextOf(query, l) + TextFrom(query, l.end);
      forall k | i <= k < |query|
        ensures text[k - i] == query[k] || (text[k - i] == ' ' && query[k] != '\n')
      {
        if k < l.end {
          assert text[k - i] == TextOf(query, l)[k - i] && query[l.start + (k - i)] == query[k];
        } else {
          assert text[k - i] == TextFrom(query, l.end)[k - l.end];
        }
      }
    }
  }

  lemma ScannerIsLossless(query: string)
    ensures FaithfulTokens(query, Lex(query).tokens, 0)
    ensures FaithfulText(query, Lex(query).normalized, 0)
  {
    TokensFaithful(query, 0);
    TextFaithful(query, 0);
  }

  // ---------- Scanning the normalized text ----------

  /** A token without the contents of its literal, if it is one. */
  function Erased(t: Token): Token {
    if t.shape.kind == StringToken then t.(shape := Shape(StringToken, "''")) else t
  }

  function Skeleton(tokens: seq<Token>): (erased: seq<Token>)
    ensures |erased| == |tokens|
  {
    seq(|tokens|, k requires 0 <= k < |tokens| => Erased(tokens[k]))
  }

  /** A literal with a one-character delimiter that spans a line feed (only an escape lets it). */
  predicate Folded(query: string, i: nat)
    requires i < |query|
  {
    var l := LexemeAt(query, i);
    l.kind.Literal? && DelimiterLength(query, i) == 1 && '\n' in query[l.start..l.end]
  }

  ghost predicate OneLineLiterals(query: string, i: nat)
    requires i <= |query|
    decreases |query| - i
  {
    i == |query| || (!Folded(query, i) && OneLineLiterals(query, LexemeAt(query, i).end))
  }

  /** How many tokens stand before the first folded literal. */
  ghost function KeptFrom(query: string, i: nat): (kept: nat)
    requires i <= |query|
    ensures kept <= |TokensFrom(query, i)|
    ensures OneLineLiterals(query, i) <==> kept == |TokensFrom(query, i)|
    decreases |query| - i
  {
    if i == |query| then 0
    else
      var l := LexemeAt(query, i);
      if Folded(query, i) then FoldedIsToken(query, i); 0
      else |TokensOf(query, l)| + KeptFrom(query, l.end)
  }

  lemma FoldedIsToken(query: string, i: nat)
    requires i < |query| && Folded(query, i)
    ensures TokensFrom(query, i) != [] && TokensFrom(query, i)[0].shape.kind == StringToken
  {
  }

  /** `text` is the normalized text of `query`, from the lexeme boundary `i` on. */
  ghost predicate NormalizedAt(query: string, text: string, i: nat) {
    |text| == |query| && i <= |query| && text[i..] == TextFrom(query, i)
  }

  lemma NormalizedNext(query: string, text: string, i: nat)
    requires NormalizedAt(query, text, i) && i < |query|
    ensures var l := LexemeAt(query, i);
            NormalizedAt(query, text, l.end) && text[l.start..l.end] == TextOf(query, l)
    ensures forall k :: i <= k < |query| ==> text[k] == query[k] || text[k] == ' '
  {
    var l := LexemeAt(query, i);
    TextFaithful(query, i);
    var rest := text[i..];
    assert rest == TextOf(query, l) + TextFrom(query, l.end);
    assert rest[l.end - i..] == text[l.end..];
    assert rest[..l.end - i] == text[l.start..l.end];
    assert forall k :: i <= k < |query| ==> text[k] == rest[k - i];
  }

  lemma {:induction false} BlanksScanAway(text: string, i: nat, j: nat)
    requires i <= j <= |text| && forall k :: i <= k < j ==> IsSpace(text[k])
    ensures TokensFrom(text, i) == TokensFrom(text, j)
    decreases j - i
  {
    if i < j {
      BlanksScanAway(text, i + 1, j);
    }
  }

  lemma {:induction false} BlankContents(text: string, i: nat, j: nat, quote: char, triple: bool)
    requires i <= j <= |text| && IsQuote(quote)
    requires forall k :: i <= k < j ==> text[k] == ' ' || (triple && text[k] == '\n')
    ensures LiteralEnd(text, i, quote, triple) == LiteralEnd(text, j, quote, triple)
    decreases j - i
  {
    if i < j {
      BlankContents(text, i + 1, j, quote, triple);
    }
  }

  lemma {:induction false} SameNameEnd(query: string, text: string, i: nat)
    requires i <= |query| == |text|
    requires text[i..NameEnd(query, i)] == query[i..NameEnd(query, i)]
    requires NameEnd(query, i) < |query| ==> text[NameEnd(query, i)] in [query[NameEnd(query, i)], ' ']
    ensures NameEnd(text, i) == NameEnd(query, i)
    decreases |query| - i
  {
    var e := NameEnd(query, i);
    if i < e {
      assert text[i] == text[i..e][0] && query[i] == query[i..e][0];
      assert text[i + 1..e] == text[i..e][1..] && query[i + 1..e] == query[i..e][1..];
      SameNameEnd(query, text, i + 1);
    }
  }

  lemma {:induction false} SameNumberEnd(query: string, text: string, i: nat, seenDot: bool)
    requires i <= |query| == |text|
    requires text[i..NumberEnd(query, i, seenDot)] == query[i..NumberEnd(query, i, seenDot)]
    requires var e := NumberEnd(query, i, seenDot); e < |query| ==> text[e] in [query[e], ' ']
    ensures NumberEnd(text, i, seenDot) == NumberEnd(query, i, seenDot)
    decreases |query| - i
  {
    var e := NumberEnd(query, i, seenDot);
    if i < e {
      assert text[i] == text[i..e][0] && query[i] == query[i..e][0];
      assert text[i + 1..e] == text[i..e][1..] && query[i + 1..e] == query[i..e][1..];
      SameNumberEnd(query, text, i + 1, if IsDigit(query[i]) then seenDot else true);
    }
  }

  lemma Pieces(query: string, text: string, i: nat, d: nat, end: nat)
    requires i + 2 * d <= end <= |query| == |text|
    requires text[i..end] == query[i..i + d] + Masked(query[i + d..end - d]) + query[end - d..end]
    ensures forall k :: i <= k < i + d ==> text[k] == query[k]
    ensures forall k :: i + d <= k < end - d ==> text[k] == if query[k] == '\n' then '\n' else ' '
    ensures forall k :: end - d <= k < end ==> text[k] == query[k]
  {
    var open, inside, close := query[i..i + d], query[i + d..end - d], query[end - d..end];
    forall k | i <= k < end
      ensures text[k] == (open + Masked(inside) + close)[k - i]
    {
      assert text[i..end][k - i] == text[k];
    }
    forall k | i + d <= k < end - d
      ensures text[k] == if query[k] == '\n' then '\n' else ' '
    {
      assert text[k] == Masked(inside)[k - (i + d)] && inside[k - (i + d)] == query[k];
    }
  }

  /** A literal's normalized form: same delimiters, blanks (and line feeds) between them. */
  lemma LiteralText(query: string, text: string, i: nat)
    requires NormalizedAt(query, text, i) && i < |query| && LexemeAt(query, i).kind.Literal?
    ensures var end := LexemeAt(query, i).end;
            var d := DelimiterLength(query, i);
            && i + 2 * d <= end <= |text|
            && (forall k :: i <= k < i + d ==> text[k] == query[k])
            && (forall k :: i + d <= k < end - d ==> text[k] == if query[k] == '\n' then '\n' else ' ')
            && (forall k :: end - d <= k < end ==> text[k] == query[k])
  {
    hide LexemeAt, DelimiterLength, Masked, NormalizedAt, TextFrom;
    NormalizedNext(query, text, i);
    LiteralFitsDelimiters(query, i);
    Pieces(query, text, i, DelimiterLength(query, i), LexemeAt(query, i).end);
  }

  lemma SameDelimiter(query: string, text: string, i: nat)
    requires NormalizedAt(query, text, i) && i < |query| && LexemeAt(query, i).kind.Literal?
    ensures i < |text| && text[i] == query[i] && TripleAt(text, i, text[i]) == TripleAt(query, i, query[i])
  {
    LiteralText(query, text, i);
    NormalizedNext(query, text, i);
    var end := LexemeAt(query, i).end;
    if DelimiterLength(query, i) == 1 {
      if i + 2 < end {
        assert text[i + 1] != query[i];
      } else if end < |query| {
        assert text[end] == query[end] || text[end] == ' ';
      }
    }
  }

  lemma ClosingDelimiter(query: string, i: nat, quote: char, triple: bool)
    requires i <= |query| && IsQuote(quote) && LiteralEnd(query, i, quote, triple).Some?
    ensures var d := if triple then 3 else 1;
            var end := LiteralEnd(query, i, quote, triple).value;
            forall k :: end - d <= k < end ==> query[k] == quote
    decreases |query| - i
  {
  }

  /** Where a one-line (or triple-quoted) literal was, the second scan finds it again. */
  lemma LiteralRescanned(query: string, text: string, i: nat)
    requires NormalizedAt(query, text, i) && i < |query| && LexemeAt(query, i).kind.Literal?
    requires DelimiterLength(query, i) == 1 ==> '\n' !in query[i..LexemeAt(query, i).end]
    ensures LexemeAt(text, i) == LexemeAt(query, i)
  {
    LiteralText(query, text, i);
    SameDelimiter(query, text, i);
    var end := LexemeAt(query, i).end;
    var d := DelimiterLength(query, i);
    var triple := TripleAt(query, i, query[i]);
    ClosingDelimiter(query, i + d, query[i], triple);
    forall k | i + d <= k < end - d
      ensures text[k] == ' ' || (triple && text[k] == '\n')
    {
      assert query[i..end][k - i] == query[k];
    }
    BlankContents(text, i + d, end - d, query[i], triple);
    assert LiteralEnd(text, end - d, query[i], triple) == Some(end);
  }

  /** Where a one-character literal spanned a line feed, the second scan breaks off. */
  lemma LiteralLost(query: string, text: string, i: nat)
    requires NormalizedAt(query, text, i) && i < |query| && LexemeAt(query, i).kind.Literal?
    requires DelimiterLength(query, i) == 1 && '\n' in query[i..LexemeAt(query, i).end]
    ensures LexemeAt(text, i).kind.Broken? && TokensFrom(text, i) == []
  {
    LiteralText(query, text, i);
    SameDelimiter(query, text, i);
    ClosingDelimiter(query, i + 1, query[i], false);
    var end := LexemeAt(query, i).end;
    var k :| i < k < end && query[k] == '\n';
    var first := FirstLineFeed(text, i + 1, k);
    BlankContents(text, i + 1, first, query[i], false);
    assert LiteralEnd(text, first, query[i], false) == None;
  }

  lemma FirstLineFeed(text: string, i: nat, k: nat) returns (first: nat)
    requires i <= k < |text| && text[k] == '\n'
    ensures i <= first <= k && text[first] == '\n'
    ensures forall j :: i <= j < first ==> text[j] != '\n'
    decreases k - i
  {
    if text[i] == '\n' {
      first := i;
    } else {
      first := FirstLineFeed(text, i + 1, k);
    }
  }

  /** Where a lexeme's characters are kept and the one after it is kept or blanked, it is found again. */
  lemma KeptRescanned(query: string, text: string, i: nat)
    requires i < |query| == |text| && LexemeAt(query, i).kind !in {Comment, Broken, Literal}
    requires var end := LexemeAt(query, i).end;
             && text[i..end] == query[i..end] && (end < |query| ==> text[end] in [query[end], ' '])
    ensures LexemeAt(text, i) == LexemeAt(query, i)
  {
    var l := LexemeAt(query, i);
    var slice := text[i..l.end];
    assert text[i] == slice[0] == query[i..l.end][0] == query[i];
    assert text[i + 1..l.end] == slice[1..] && query[i + 1..l.end] == query[i..l.end][1..];
    match l.kind
    case Name =>
      SameNameEnd(query, text, i + 1);
      StillName(text, i);
    case Number =>
      SameNumberEnd(query, text, i + 1, false);
      StillNumber(text, i);
    case _ =>
      SingleRescanned(query, text, i);
  }

  lemma StillName(text: string, i: nat)
    requires i < |text| && IsNameStart(text[i])
    ensures LexemeAt(text, i) == Lexeme(Name, i, NameEnd(text, i + 1))
  {
  }

  lemma StillNumber(text: string, i: nat)
    requires i < |text| && IsDigit(text[i])
    ensures LexemeAt(text, i) == Lexeme(Number, i, NumberEnd(text, i + 1, false))
  {
  }

  lemma SingleRescanned(query: string, text: string, i: nat)
    requires i < |query| == |text| && LexemeAt(query, i).kind in {Blank, Punctuation, Unknown}
    requires text[i] == query[i] && (i + 1 < |query| ==> text[i + 1] in [query[i + 1], ' '])
    ensures LexemeAt(text, i) == LexemeAt(query, i)
  {
  }

  /** A lexeme that is not a literal is found again, or leaves only blanks behind. */
  lemma OtherRescanned(query: string, text: string, i: nat)
    requires NormalizedAt(query, text, i) && i < |query| && !LexemeAt(query, i).kind.Literal?
    ensures var l := LexemeAt(query, i);
            if KindOf(l.kind).Some? || l.kind.Blank? then LexemeAt(text, i) == l
            else TokensFrom(text, i) == TokensFrom(text, l.end)
  {
    hide LexemeAt, TextFrom, TokensFrom;
    NormalizedNext(query, text, i);
    var l := LexemeAt(query, i);
    if l.kind.Comment? || l.kind.Broken? {
      var t := text[i..l.end];
      assert forall k :: i <= k < l.end ==> text[k] == t[k - i];
      BlanksScanAway(text, i, l.end);
    } else {
      KeptRescanned(query, text, i);
    }
  }

  lemma SkeletonJoins(first: seq<Token>, second: seq<Token>)
    ensures Skeleton(first + second) == Skeleton(first) + Skeleton(second)
  {
  }

  /** A lexeme found again gives the same token, up to the contents of a literal. */
  lemma SameToken(query: string, text: string, i: nat)
    requires NormalizedAt(query, text, i) && i < |query| && LexemeAt(text, i) == LexemeAt(query, i)
    ensures Skeleton(TokensOf(text, LexemeAt(query, i))) == Skeleton(TokensOf(query, LexemeAt(query, i)))
  {
    hide LexemeAt, TextOf;
    NormalizedNext(query, text, i);
    LexemeTextFaithful(query, LexemeAt(query, i));
  }

  /** The second scan finds the tokens before the first folded literal, and no more. */
  lemma {:induction false} RescanFrom(query: string, text: string, i: nat)
    requires NormalizedAt(query, text, i)
    ensures Skeleton(TokensFrom(text, i)) == Skeleton(TokensFrom(query, i))[..KeptFrom(query, i)]
    decreases |query| - i
  {
    hide LexemeAt, TextOf, TextFrom, Folded, TokensOf;
    if i < |query| {
      var l := LexemeAt(query, i);
      NormalizedNext(query, text, i);
      TokensCounted(query, l);
      if Folded(query, i) {
        FoldedLost(query, text, i);
      } else {
        UnfoldedRescanned(query, text, i);
        RescanFrom(query, text, l.end);
        SkeletonJoins(TokensOf(query, l), TokensFrom(query, l.end));
        if KindOf(l.kind).Some? || l.kind.Blank? {
          TokensCounted(text, l);
          SameToken(query, text, i);
          assert TokensFrom(text, i) == TokensOf(text, l) + TokensFrom(text, l.end);
          SkeletonJoins(TokensOf(text, l), TokensFrom(text, l.end));
        }
      }
    }
  }

  lemma FoldedLost(query: string, text: string, i: nat)
    requires NormalizedAt(query, text, i) && i < |query| && Folded(query, i)
    ensures TokensFrom(text, i) == []
  {
    hide LexemeAt, TextOf, TextFrom, TokensFrom, DelimiterLength;
    LiteralLost(query, text, i);
  }

  lemma UnfoldedRescanned(query: string, text: string, i: nat)
    requires NormalizedAt(query, text, i) && i < |query| && !Folded(query, i)
    ensures var l := LexemeAt(query, i);
            if KindOf(l.kind).Some? || l.kind.Blank? then LexemeAt(text, i) == l
            else TokensFrom(text, i) == TokensFrom(text, l.end)
  {
    hide LexemeAt, TextOf, TextFrom, TokensFrom, DelimiterLength;
    if LexemeAt(query, i).kind.Literal? {
      LiteralRescanned(query, text, i);
    } else {
      OtherRescanned(query, text, i);
    }
  }

  lemma TokensCounted(query: string, l: Lexeme)
    requires l.start <= l.end <= |query|
    ensures |TokensOf(query, l)| == if KindOf(l.kind).Some? then 1 else 0
    ensures l.kind.Comment? || l.kind.Broken? || l.kind.Blank? ==> TokensOf(query, l) == []
  {
  }

  lemma RescanKeeps(query: string)
    ensures Skeleton(Lex(Lex(query).normalized).tokens) == Skeleton(Lex(query).tokens)[..KeptFrom(query, 0)]
  {
    var text := Lex(query).normalized;
    assert text[0..] == text;
    RescanFrom(query, text, 0);
  }

  /** Scanning the normalized text finds the same tokens, contents of literals apart, exactly
      when no literal with a one-character delimiter spans a line feed. */
  lemma RescanAgreesExactly(query: string)
    ensures Skeleton(Lex(Lex(query).normalized).tokens) == Skeleton(Lex(query).tokens) <==> OneLineLiterals(query, 0)
  {
    RescanKeeps(query);
  }

  ghost predicate NoEscapedLineFeed(query: string) {
    forall k :: 0 <= k < |query| - 1 ==> !(query[k] == '\\' && query[k + 1] == '\n')
  }

  lemma {:induction false} UnescapedContents(query: string, i: nat, quote: char)
    requires NoEscapedLineFeed(query) && IsQuote(quote) && LiteralEnd(query, i, quote, false).Some?
    ensures '\n' !in query[i..LiteralEnd(query, i, quote, false).value]
    decreases |query| - i
  {
    var end := LiteralEnd(query, i, quote, false).value;
    if query[i] == '\\' {
      UnescapedContents(query, i + 2, quote);
      assert query[i..end] == [query[i], query[i + 1]] + query[i + 2..end];
    } else if query[i] != quote {
      UnescapedContents(query, i + 1, quote);
      assert query[i..end] == [query[i]] + query[i + 1..end];
    }
  }

  lemma {:induction false} NoEscapedLineFeedSuffices(query: string, i: nat)
    requires NoEscapedLineFeed(query) && i <= |query|
    ensures OneLineLiterals(query, i)
    decreases |query| - i
  {
    if i < |query| {
      var l := LexemeAt(query, i);
      if l.kind.Literal? && DelimiterLength(query, i) == 1 {
        UnescapedContents(query, i + 1, query[i]);
        assert query[i..l.end] == [query[i]] + query[i + 1..l.end];
      }
      NoEscapedLineFeedSuffices(query, l.end);
    }
  }

  // ---------- Comments ----------

  /** A block comment is one exactly when it is closed and no other is opened before that; it ends
      at its first closer. Otherwise the rest of the query is broken. */
  lemma BlockCommentExactly(query: string, i: nat, close: nat)
    requires PairAt(query, i, '/', '*')
    ensures LexemeAt(query, i) == Lexeme(Comment, i, close + 2) <==>
              && i + 2 <= close && PairAt(query, close, '*', '/')
              && (forall k :: i + 2 <= k < close ==> !PairAt(query, k, '*', '/'))
              && (forall k :: i + 2 <= k && k + 2 <= close ==> !PairAt(query, k, '/', '*'))
    ensures LexemeAt(query, i).kind.Comment? || LexemeAt(query, i) == Lexeme(Broken, i, |query|)
  {
  }

  /** A line comment goes up to the next line break, or to the end. */
  lemma LineCommentExactly(query: string, i: nat, end: nat)
    requires PairAt(query, i, '/', '/')
    ensures LexemeAt(query, i) == Lexeme(Comment, i, end) <==>
              && i + 2 <= end <= |query| && (forall k :: i + 2 <= k < end ==> query[k] !in "\r\n")
              && (end < |query| ==> query[end] in "\r\n")
  {
    var found := LineEnd(query, i + 2);
    assert found < |query| ==> query[found] in "\r\n";
  }

  // ---------- Names and numbers ----------

  predicate StartsName(c: char) {
    c == '_' || c in SMALL || c in CAPITAL
  }

  predicate ContinuesName(c: char) {
    StartsName(c) || c in DIGITS
  }

  lemma NameCharacters(c: char)
    ensures IsNameStart(c) <==> StartsName(c)
    ensures IsDigit(c) <==> c in DIGITS
    ensures StartsName(c) || c in DIGITS ==> !IsSpace(c) && !IsQuote(c) && c != '/' && c != '.'
    ensures StartsName(c) ==> c !in DIGITS
  {
    hide SMALL, CAPITAL, DIGITS;
    LetterRanges(c);
  }

  /** A name starts with a letter or an underscore and goes on while these or digits follow. */
  lemma NameExactly(query: string, i: nat, end: nat)
    requires i < |query|
    ensures LexemeAt(query, i) == Lexeme(Name, i, end) <==>
              && StartsName(query[i]) && i < end <= |query| && (forall k :: i < k < end ==> ContinuesName(query[k]))
              && (end < |query| ==> !ContinuesName(query[end]))
  {
    hide StartsName, IsNameStart, IsDigit, IsSpace, IsQuote, CommentClose, QuotedEnd, LineEnd, NumberEnd, OpensInside;
    hide SMALL, CAPITAL, DIGITS;
    forall k | 0 <= k < |query|
      ensures IsNamePart(query[k]) <==> ContinuesName(query[k])
    {
      NameCharacters(query[k]);
    }
    NameCharacters(query[i]);
  }

  ghost predicate DotIn(query: string, i: nat, end: nat)
    requires end <= |query|
  {
    exists k :: i <= k < end && query[k] == '.'
  }

  /** Digits with at most one dot, from `i` up to `end`, and none to add; `dotted` says that a dot
      went before. */
  ghost predicate DigitsUpTo(query: string, i: nat, dotted: bool, end: nat) {
    && i <= end <= |query|
    && (forall k :: i <= k < end ==> query[k] in DIGITS || (query[k] == '.' && !dotted && !DotIn(query, i, k)))
    && (end < |query| ==> query[end] !in DIGITS && (query[end] == '.' ==> dotted || DotIn(query, i, end)))
  }

  lemma {:induction false} DigitsUpToExactly(query: string, i: nat, dotted: bool, end: nat)
    requires i <= |query|
    ensures NumberEnd(query, i, dotted) == end <==> DigitsUpTo(query, i, dotted, end)
    decreases |query| - i
  {
    hide IsDigit, DIGITS, DotIn;
    if i < |query| {
      NameCharacters(query[i]);
      DigitsUpToExactly(query, i + 1, dotted || query[i] == '.', end);
      DotsFrom(query, i);
    }
    NoDots(query, i);
  }

  lemma DotsFrom(query: string, i: nat)
    requires i < |query|
    ensures forall k :: i < k <= |query| ==> (DotIn(query, i, k) <==> query[i] == '.' || DotIn(query, i + 1, k))
  {
  }

  lemma NoDots(query: string, i: nat)
    requires i <= |query|
    ensures !DotIn(query, i, i)
  {
  }

  /** A number starts with a digit and goes on while digits, and at most one dot, follow. */
  lemma NumberExactly(query: string, i: nat, end: nat)
    requires i < |query|
    ensures LexemeAt(query, i) == Lexeme(Number, i, end) <==>
              query[i] in DIGITS && i < end && DigitsUpTo(query, i + 1, false, end)
  {
    hide StartsName, IsNameStart, IsDigit, IsSpace, IsQuote, CommentClose, QuotedEnd, LineEnd, NameEnd, OpensInside,
         DigitsUpTo;
    hide SMALL, CAPITAL, DIGITS;
    NameCharacters(query[i]);
    DigitsUpToExactly(query, i + 1, false, end);
  }
}
