/** The conservative Gremlin scanner (gremlin_policy.py): one left-to-right pass that cuts a
    query into lexemes, keeps the ones that are tokens and blanks out literals and comments. */
module GremlinScanner {
  import opened Wrappers
  import opened Characters

  // ---------- Characters ----------

  predicate IsNameStart(c: char) {
    c == '_' || 'a' <= c <= 'z' || 'A' <= c <= 'Z'
  }

  predicate IsDigit(c: char) {
    '0' <= c <= '9'
  }

  predicate IsNamePart(c: char) {
    IsNameStart(c) || IsDigit(c)
  }

  predicate IsQuote(c: char) {
    c == '\'' || c == '\"'
  }

  predicate IsLineBreak(c: char) {
    c == '\r' || c == '\n'
  }

  predicate IsSafePunctuation(c: char) {
    c in ".(),[]:-"
  }

  // ---------- Literals ----------

  /** `query.startswith(quote * 3, i)`. */
  predicate TripleAt(query: string, i: nat, quote: char) {
    i + 3 <= |query| && query[i] == quote && query[i + 1] == quote && query[i + 2] == quote
  }

  /** The offset after the delimiter that closes a literal whose contents start at `i`. */
  function LiteralEnd(query: string, i: nat, quote: char, triple: bool): (end: Option<nat>)
    ensures end.Some? ==> i + (if triple then 3 else 1) <= end.value <= |query|
    decreases |query| - i
  {
    if i >= |query| then None
    else if query[i] == '\\' then
      if i + 1 >= |query| then None else LiteralEnd(query, i + 2, quote, triple)
    else if triple then
      if TripleAt(query, i, quote) then Some(i + 3) else LiteralEnd(query, i + 1, quote, triple)
    else if query[i] == quote then Some(i + 1)
    else if IsLineBreak(query[i]) then None
    else LiteralEnd(query, i + 1, quote, triple)
  }

  function DelimiterLength(query: string, start: nat): nat
    requires start < |query|
  {
    if TripleAt(query, start, query[start]) then 3 else 1
  }

  function QuotedEnd(query: string, start: nat): Option<nat>
    requires start < |query|
  {
    LiteralEnd(query, start + DelimiterLength(query, start), query[start], TripleAt(query, start, query[start]))
  }

  /** `_consume_quoted`. */
  method ConsumeQuoted(query: string, start: nat) returns (end: Option<nat>)
    requires start < |query|
    ensures end == QuotedEnd(query, start)
  {
    var quote := query[start];
    var triple := TripleAt(query, start, quote);
    var index := start + (if triple then 3 else 1);
    while index < |query|
      invariant LiteralEnd(query, index, quote, triple) == QuotedEnd(query, start)
      decreases |query| - index
    {
      if query[index] == '\\' {
        if index + 1 >= |query| {
          return None;
        }
        index := index + 2;
        continue;
      }
      if triple {
        if TripleAt(query, index, quote) {
          return Some(index + 3);
        }
      } else if query[index] == quote {
        return Some(index + 1);
      } else if IsLineBreak(query[index]) {
        return None;
      }
      index := index + 1;
    }
    end := None;
  }

  // ---------- Lexemes ----------

  function NameEnd(query: string, i: nat): (end: nat)
    requires i <= |query|
    ensures i <= end <= |query|
    ensures forall k :: i <= k < end ==> IsNamePart(query[k])
    ensures end < |query| ==> !IsNamePart(query[end])
    decreases |query| - i
  {
    if i < |query| && IsNamePart(query[i]) then NameEnd(query, i + 1) else i
  }

  function NumberEnd(query: string, i: nat, seenDot: bool): (end: nat)
    requires i <= |query|
    ensures i <= end <= |query|
    decreases |query| - i
  {
    if i >= |query| then i
    else if IsDigit(query[i]) then NumberEnd(query, i + 1, seenDot)
    else if query[i] == '.' && !seenDot then NumberEnd(query, i + 1, true)
    else i
  }

  function LineEnd(query: string, i: nat): (end: nat)
    requires i <= |query|
    ensures i <= end <= |query|
    ensures forall k :: i <= k < end ==> !IsLineBreak(query[k])
    ensures end < |query| ==> IsLineBreak(query[end])
    decreases |query| - i
  {
    if i < |query| && !IsLineBreak(query[i]) then LineEnd(query, i + 1) else i
  }

  predicate PairAt(query: string, i: nat, first: char, second: char) {
    i + 2 <= |query| && query[i] == first && query[i + 1] == second
  }

  /** The first block-comment closer at or after `i`, as `str.find` looks for it. */
  function CommentClose(query: string, i: nat): (close: Option<nat>)
    ensures close.Some? ==> i <= close.value && PairAt(query, close.value, '*', '/')
    ensures close.Some? ==> forall k :: i <= k < close.value ==> !PairAt(query, k, '*', '/')
    ensures close.None? ==> forall k :: i <= k ==> !PairAt(query, k, '*', '/')
    decreases |query| - i
  {
    if i + 2 > |query| then None
    else if PairAt(query, i, '*', '/') then Some(i)
    else CommentClose(query, i + 1)
  }

  predicate OpensInside(query: string, lo: nat, hi: nat) {
    exists k :: lo <= k && k + 2 <= hi && PairAt(query, k, '/', '*')
  }

  datatype LexemeKind = Blank | Comment | Broken | Literal | Name | Number | Punctuation | Unknown

  datatype Lexeme = Lexeme(kind: LexemeKind, start: nat, end: nat)

  /** The lexeme at `i`. A broken one (an unfinished comment or literal) takes the rest. */
  function LexemeAt(query: string, i: nat): (l: Lexeme)
    requires i < |query|
    ensures l.start == i < l.end <= |query|
    ensures l.kind.Broken? ==> l.end == |query|
  {
    var c := query[i];
    if IsSpace(c) then Lexeme(Blank, i, i + 1)
    else if PairAt(query, i, '/', '/') then Lexeme(Comment, i, LineEnd(query, i + 2))
    else if PairAt(query, i, '/', '*') then
      var close := CommentClose(query, i + 2);
      if close.None? || OpensInside(query, i + 2, close.value) then Lexeme(Broken, i, |query|)
      else Lexeme(Comment, i, close.value + 2)
    else if IsQuote(c) then
      (match QuotedEnd(query, i)
       case None => Lexeme(Broken, i, |query|)
       case Some(end) => Lexeme(Literal, i, end))
    else if IsNameStart(c) then Lexeme(Name, i, NameEnd(query, i + 1))
    else if IsDigit(c) then Lexeme(Number, i, NumberEnd(query, i + 1, false))
    else if IsSafePunctuation(c) then Lexeme(Punctuation, i, i + 1)
    else Lexeme(Unknown, i, i + 1)
  }

  // ---------- Tokens and the normalized text ----------

  datatype Kind = Identifier | NumberToken | StringToken | PunctuationToken | UnknownToken

  /** What later checks look at: a token's kind and source text. */
  datatype Shape = Shape(kind: Kind, value: string)

  datatype Token = Token(shape: Shape, start: nat, end: nat)

  datatype LexResult = LexResult(tokens: seq<Token>, valid: bool, normalized: string)

  function KindOf(kind: LexemeKind): Option<Kind> {
    match kind
    case Literal => Some(StringToken)
    case Name => Some(Identifier)
    case Number => Some(NumberToken)
    case Punctuation => Some(PunctuationToken)
    case Unknown => Some(UnknownToken)
    case _ => None
  }

  /** `_append_masked`: blanks, with line feeds kept. */
  function Masked(source: string): (masked: string)
    ensures |masked| == |source|
    ensures forall k :: 0 <= k < |source| ==> masked[k] == if source[k] == '\n' then '\n' else ' '
  {
    seq(|source|, k requires 0 <= k < |source| => if source[k] == '\n' then '\n' else ' ')
  }

  function TokensOf(query: string, l: Lexeme): seq<Token>
    requires l.start <= l.end <= |query|
  {
    match KindOf(l.kind)
    case Some(kind) => [Token(Shape(kind, query[l.start..l.end]), l.start, l.end)]
    case None => []
  }

  lemma LiteralFitsDelimiters(query: string, i: nat)
    requires i < |query| && LexemeAt(query, i).kind.Literal?
    ensures i + 2 * DelimiterLength(query, i) <= LexemeAt(query, i).end
  {
  }

  function TextOf(query: string, l: Lexeme): (text: string)
    requires l.start < l.end <= |query| && l == LexemeAt(query, l.start)
    ensures |text| == l.end - l.start
  {
    match l.kind
    case Comment => Masked(query[l.start..l.end])
    case Broken => Masked(query[l.start..l.end])
    case Literal =>
      LiteralFitsDelimiters(query, l.start);
      var d := DelimiterLength(query, l.start);
      query[l.start..l.start + d] + Masked(query[l.start + d..l.end - d]) + query[l.end - d..l.end]
    case _ => query[l.start..l.end]
  }

  function TokensFrom(query: string, i: nat): seq<Token>
    requires i <= |query|
    decreases |query| - i
  {
    if i == |query| then []
    else var l := LexemeAt(query, i); TokensOf(query, l) + TokensFrom(query, l.end)
  }

  predicate ValidFrom(query: string, i: nat)
    requires i <= |query|
    decreases |query| - i
  {
    i == |query| || (var l := LexemeAt(query, i); !l.kind.Broken? && ValidFrom(query, l.end))
  }

  function TextFrom(query: string, i: nat): (text: string)
    requires i <= |query|
    ensures |text| == |query| - i
    decreases |query| - i
  {
    if i == |query| then ""
    else var l := LexemeAt(query, i); TextOf(query, l) + TextFrom(query, l.end)
  }

  function Lex(query: string): LexResult {
    LexResult(TokensFrom(query, 0), ValidFrom(query, 0), TextFrom(query, 0))
  }

  /** The branches of the scanning loop: find where the lexeme at `index` ends. */
  method ScanLexeme(query: string, start: nat) returns (l: Lexeme)
    requires start < |query|
    ensures l == LexemeAt(query, start)
  {
    var c := query[start];
    if IsSpace(c) {
      return Lexeme(Blank, start, start + 1);
    }
    var index := start + 1;
    if c == '/' && index < |query| && query[index] == '/' {
      index := index + 1;
      while index < |query| && !IsLineBreak(query[index])
        invariant index <= |query| && LineEnd(query, index) == LineEnd(query, start + 2)
      {
        index := index + 1;
      }
      return Lexeme(Comment, start, index);
    }
    if c == '/' && index < |query| && query[index] == '*' {
      var close := CommentClose(query, start + 2);
      if close.None? || OpensInside(query, start + 2, close.value) {
        return Lexeme(Broken, start, |query|);
      }
      return Lexeme(Comment, start, close.value + 2);
    }
    if IsQuote(c) {
      var end := ConsumeQuoted(query, start);
      return match end case None => Lexeme(Broken, start, |query|) case Some(e) => Lexeme(Literal, start, e);
    }
    if IsNameStart(c) {
      while index < |query| && IsNamePart(query[index])
        invariant index <= |query| && NameEnd(query, index) == NameEnd(query, start + 1)
      {
        index := index + 1;
      }
      return Lexeme(Name, start, index);
    }
    if IsDigit(c) {
      var seenDot := false;
      while index < |query|
        invariant index <= |query| && NumberEnd(query, index, seenDot) == NumberEnd(query, start + 1, false)
      {
        if IsDigit(query[index]) {
          index := index + 1;
        } else if query[index] == '.' && !seenDot {
          seenDot := true;
          index := index + 1;
        } else {
          break;
        }
      }
      return Lexeme(Number, start, index);
    }
    l := Lexeme(if IsSafePunctuation(c) then Punctuation else Unknown, start, start + 1);
  }

  /** `_lex_gremlin_query`: collect tokens and normalized text until the end or a broken lexeme. */
  method LexGremlinQuery(query: string) returns (lexed: LexResult)
    ensures lexed == Lex(query)
  {
    hide LexemeAt, TokensOf, TextOf;
    var tokens: seq<Token> := [];
    var normalized: string := "";
    var index := 0;
    while index < |query|
      invariant 0 <= index <= |query|
      invariant tokens + TokensFrom(query, index) == TokensFrom(query, 0)
      invariant normalized + TextFrom(query, index) == TextFrom(query, 0)
      invariant ValidFrom(query, index) == ValidFrom(query, 0)
    {
      var l := ScanLexeme(query, index);
      assert TokensFrom(query, index) == TokensOf(query, l) + TokensFrom(query, l.end);
      assert TextFrom(query, index) == TextOf(query, l) + TextFrom(query, l.end);
      tokens := tokens + TokensOf(query, l);
      normalized := normalized + TextOf(query, l);
      if l.kind.Broken? {
        return LexResult(tokens, false, normalized);
      }
      index := l.end;
    }
    lexed := LexResult(tokens, true, normalized);
  }
}
