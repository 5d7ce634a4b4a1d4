/** What the scanner makes of printed literals and queries: the tokens one expects, nothing else. */
module PrintedTokens {
  import opened Wrappers
  import opened Spelling
  import opened GremlinScanner
  import opened GremlinPolicy
  import opened GroovyPrinter

  // ---------- Scanning one stretch of text ----------

  /** Text in which no dynamic marker can end. */
  predicate Clean(text: string) {
    '{' !in text && '>' !in text
  }

  /** Scanning from `i` finds the tokens `out` and goes on from `j`; nothing between is broken. */
  ghost predicate Emits(query: string, i: nat, j: nat, out: seq<Shape>) {
    && i <= j <= |query|
    && Shapes(TokensFrom(query, i)) == out + Shapes(TokensFrom(query, j))
    && (ValidFrom(query, j) ==> ValidFrom(query, i))
    && (Clean(TextFrom(query, j)) ==> Clean(TextFrom(query, i)))
  }

  lemma EmitsJoin(query: string, i: nat, j: nat, k: nat, first: seq<Shape>, second: seq<Shape>)
    requires Emits(query, i, j, first) && Emits(query, j, k, second)
    ensures Emits(query, i, k, first + second)
  {
  }

  lemma EmitLexeme(query: string, i: nat)
    requires i < |query| && !LexemeAt(query, i).kind.Broken? && Clean(TextOf(query, LexemeAt(query, i)))
    ensures var l := LexemeAt(query, i); Emits(query, i, l.end, Shapes(TokensOf(query, l)))
  {
    hide LexemeAt, TextOf;
    var l := LexemeAt(query, i);
    assert Shapes(TokensFrom(query, i)) == Shapes(TokensOf(query, l)) + Shapes(TokensFrom(query, l.end));
  }

  function Mark(c: char): Shape {
    Shape(PunctuationToken, [c])
  }

  lemma EmitMark(query: string, i: nat)
    requires i < |query| && IsSafePunctuation(query[i])
    ensures Emits(query, i, i + 1, [Mark(query[i])])
  {
    hide Emits;
    var l := Lexeme(Punctuation, i, i + 1);
    assert LexemeAt(query, i) == l;
    assert query[i..i + 1] == [query[i]];
    assert Shapes(TokensOf(query, l)) == [Mark(query[i])];
    EmitLexeme(query, i);
  }

  lemma EmitBlank(query: string, i: nat)
    requires i < |query| && query[i] in " \n"
    ensures Emits(query, i, i + 1, [])
  {
    assert query[i..i + 1] == [query[i]];
    EmitLexeme(query, i);
  }

  lemma NameEndsAt(query: string, i: nat, end: nat)
    requires i <= end <= |query| && (forall k :: i <= k < end ==> IsNamePart(query[k]))
    requires end < |query| ==> !IsNamePart(query[end])
    ensures NameEnd(query, i) == end
  {
  }

  predicate IsName(word: string) {
    word != "" && IsNameStart(word[0]) && forall c :: c in word ==> IsNamePart(c)
  }

  lemma EmitSlice(query: string, i: nat, word: string, kind: LexemeKind)
    requires word != "" && Spells(query, i, word) && kind in {Name, Number} && Clean(word)
    requires LexemeAt(query, i) == Lexeme(kind, i, i + |word|)
    ensures Emits(query, i, i + |word|, [Shape(KindOf(kind).value, word)])
  {
    hide LexemeAt, Emits, Clean;
    var l := LexemeAt(query, i);
    assert Shapes(TokensOf(query, l)) == [Shape(KindOf(kind).value, word)];
    EmitLexeme(query, i);
  }

  lemma NameAt(query: string, i: nat, end: nat)
    requires i < end <= |query| && IsNameStart(query[i]) && (forall k :: i <= k < end ==> IsNamePart(query[k]))
    requires end < |query| ==> !IsNamePart(query[end])
    ensures LexemeAt(query, i) == Lexeme(Name, i, end)
  {
    NameEndsAt(query, i + 1, end);
  }

  lemma EmitName(query: string, i: nat, word: string)
    requires Spells(query, i, word) && IsName(word)
    requires i + |word| < |query| ==> !IsNamePart(query[i + |word|])
    ensures Emits(query, i, i + |word|, [Shape(Identifier, word)])
  {
    hide LexemeAt, Emits;
    var end := i + |word|;
    forall k | i <= k < end
      ensures query[k] == word[k - i] && IsNamePart(query[k])
    {
      SpellsAt(query, i, word, k - i);
    }
    assert word[0] in word;
    NameAt(query, i, end);
    assert Clean(word);
    EmitSlice(query, i, word, Name);
  }

  lemma {:induction false} NumberEndsAt(query: string, i: nat, end: nat)
    requires i <= end <= |query| && (forall k :: i <= k < end ==> IsDigit(query[k]))
    requires end < |query| ==> !IsDigit(query[end]) && query[end] != '.'
    ensures NumberEnd(query, i, false) == end
    decreases end - i
  {
    if i < end {
      NumberEndsAt(query, i + 1, end);
    }
  }

  lemma NumberAt(query: string, i: nat, end: nat)
    requires i < end <= |query| && (forall k :: i <= k < end ==> IsDigit(query[k]))
    requires end < |query| ==> !IsDigit(query[end]) && query[end] != '.'
    ensures LexemeAt(query, i) == Lexeme(Number, i, end)
  {
    NumberEndsAt(query, i + 1, end);
  }

  lemma EmitNumber(query: string, i: nat, digits: string)
    requires Spells(query, i, digits) && digits != "" && forall c :: c in digits ==> IsDigit(c)
    requires i + |digits| < |query| ==> !IsDigit(query[i + |digits|]) && query[i + |digits|] != '.'
    ensures Emits(query, i, i + |digits|, [Shape(NumberToken, digits)])
  {
    hide LexemeAt, Emits;
    var end := i + |digits|;
    forall k | i <= k < end
      ensures query[k] == digits[k - i] && IsDigit(query[k])
    {
      SpellsAt(query, i, digits, k - i);
    }
    NumberAt(query, i, end);
    assert Clean(digits);
    EmitSlice(query, i, digits, Number);
  }

  lemma SingleQuoted(query: string, i: nat, end: nat)
    requires i < |query| && query[i] == '\'' && !TripleAt(query, i, '\'') && QuotedEnd(query, i) == Some(end)
    ensures LexemeAt(query, i) == Lexeme(Literal, i, end) && i + 2 <= end <= |query| && query[end - 1] == '\''
    ensures Clean(TextOf(query, LexemeAt(query, i)))
  {
    LiteralFitsDelimiters(query, i);
    Closed(query, i + 1);
    assert query[end - 1..end] == [query[end - 1]] && query[i..i + 1] == [query[i]];
  }

  lemma {:induction false} Closed(query: string, i: nat)
    requires LiteralEnd(query, i, '\'', false).Some?
    ensures var end := LiteralEnd(query, i, '\'', false).value; end <= |query| && query[end - 1] == '\''
    decreases |query| - i
  {
    if query[i] == '\\' {
      Closed(query, i + 2);
    } else if query[i] != '\'' {
      Closed(query, i + 1);
    }
  }

  lemma EmitLiteral(query: string, i: nat, s: string)
    requires Spells(query, i, Quote(s))
    requires i + |Quote(s)| < |query| ==> query[i + |Quote(s)|] != '\''
    ensures Emits(query, i, i + |Quote(s)|, [Shape(StringToken, Quote(s))])
  {
    hide TextOf, LexemeAt, Escape, Emits, Clean, QuotedEnd, TripleAt;
    var end := i + |Quote(s)|;
    EmptyEscape();
    LiteralRoundTrip(query, i, s);
    SpellsAt(query, i, Quote(s), 0);
    NotTriple(query, i, s);
    SingleQuoted(query, i, end);
    assert Shapes(TokensOf(query, LexemeAt(query, i))) == [Shape(StringToken, Quote(s))];
    EmitLexeme(query, i);
  }

  lemma NotTriple(query: string, i: nat, s: string)
    requires Spells(query, i, Quote(s))
    requires i + |Quote(s)| < |query| ==> query[i + |Quote(s)|] != '\''
    ensures !TripleAt(query, i, '\'')
  {
    hide Escape;
    EmptyEscape();
    if s != "" {
      EscapedStart(s);
      SpellsAt(query, i, Quote(s), 1);
    }
  }

  /** What the scanner makes of a whole text that emits `shapes`. */
  lemma EmittedWhole(query: string, shapes: seq<Shape>)
    requires Emits(query, 0, |query|, shapes)
    ensures Shapes(Lex(query).tokens) == shapes && Lex(query).valid && Clean(Lex(query).normalized)
  {
  }

  lemma CleanHasNoMarker(text: string)
    requires Clean(text)
    ensures !HasMarker(text)
  {
  }

  // ---------- The tokens of a value ----------

  function Quoted(s: string): Shape {
    Shape(StringToken, Quote(s))
  }

  function Word(name: string): Shape {
    Shape(Identifier, name)
  }

  function ValueShapes(value: Value): seq<Shape> {
    match value
    case Text(s) => [Quoted(s)]
    case Map(entries) => [Mark('[')] + EntryShapes(entries) + [Mark(']')]
    case Array(items) => [Mark('[')] + ItemShapes(items) + [Mark(']')]
    case Null => [Word("null")]
    case Boolean(b) => [Word(if b then "true" else "false")]
    case Integer(n) =>
      if n < 0 then [Mark('-')] + [Shape(NumberToken, Decimal(-n))] else [Shape(NumberToken, Decimal(n))]
  }

  function ItemShapes(items: seq<Value>): seq<Shape> {
    if items == [] then []
    else ValueShapes(items[0]) + (if |items| == 1 then [] else [Mark(',')] + ItemShapes(items[1..]))
  }

  function EntryShapes(entries: seq<Entry>): seq<Shape> {
    if entries == [] then []
    else
      [Quoted(entries[0].key)] + [Mark(':')] + ValueShapes(entries[0].value)
      + (if |entries| == 1 then [] else [Mark(',')] + EntryShapes(entries[1..]))
  }

  /** A character that can follow a printed value. */
  ghost predicate Stops(query: string, j: nat) {
    j < |query| && query[j] in ",)]"
  }

  lemma {:induction false} DecimalIsDigits(n: nat)
    ensures Decimal(n) != "" && forall c :: c in Decimal(n) ==> IsDigit(c)
  {
    if n >= 10 {
      DecimalIsDigits(n / 10);
    }
  }

  /** A mark that the text spells. */
  lemma EmitSpelled(query: string, i: nat, c: char)
    requires Spells(query, i, [c]) && IsSafePunctuation(c)
    ensures i < |query| && Emits(query, i, i + 1, [Mark(c)]) && query[i] == c
  {
    SpellsAt(query, i, [c], 0);
    EmitMark(query, i);
  }

  /** A mark and a space, as printed between items and after a key. */
  lemma EmitSeparator(query: string, i: nat, c: char)
    requires Spells(query, i, [c, ' ']) && IsSafePunctuation(c)
    ensures i < |query| && Emits(query, i, i + 2, [Mark(c)]) && query[i] == c
  {
    SpellsAt(query, i, [c, ' '], 0);
    SpellsAt(query, i, [c, ' '], 1);
    EmitMark(query, i);
    EmitBlank(query, i + 1);
    EmitsJoin(query, i, i + 1, i + 2, [Mark(c)], []);
    assert [Mark(c)] + [] == [Mark(c)];
  }

  lemma {:induction false} ValueEmits(query: string, i: nat, value: Value)
    requires Spells(query, i, Print(value)) && Stops(query, i + |Print(value)|)
    ensures Emits(query, i, i + |Print(value)|, ValueShapes(value))
    decreases value, 1
  {
    hide Emits, Decimal, PrintEntries, PrintItems, EntryShapes, ItemShapes, Quote;
    match value
    case Text(s) =>
      EmitLiteral(query, i, s);
    case Map(entries) =>
      assert Print(value) == "[" + PrintEntries(entries) + "]";
      BracketsEmit(query, i, PrintEntries(entries));
      EntriesEmit(query, i + 1, entries);
      EmitsBracketed(query, i, i + 1 + |PrintEntries(entries)|, EntryShapes(entries));
    case Array(items) =>
      assert Print(value) == "[" + PrintItems(items) + "]";
      BracketsEmit(query, i, PrintItems(items));
      ItemsEmit(query, i + 1, items);
      EmitsBracketed(query, i, i + 1 + |PrintItems(items)|, ItemShapes(items));
    case Null =>
      EmitName(query, i, "null");
    case Boolean(b) =>
      EmitName(query, i, if b then "true" else "false");
    case Integer(n) =>
      IntegerEmits(query, i, n);
  }

  lemma IntegerEmits(query: string, i: nat, n: int)
    requires Spells(query, i, Print(Integer(n))) && Stops(query, i + |Print(Integer(n))|)
    ensures Emits(query, i, i + |Print(Integer(n))|, ValueShapes(Integer(n)))
  {
    hide Emits, Decimal;
    DecimalIsDigits(if n < 0 then -n else n);
    if n < 0 {
      SpellsJoin(query, i, "-", Decimal(-n));
      EmitSpelled(query, i, '-');
      EmitNumber(query, i + 1, Decimal(-n));
      EmitsJoin(query, i, i + 1, i + 1 + |Decimal(-n)|, [Mark('-')], [Shape(NumberToken, Decimal(-n))]);
    } else {
      EmitNumber(query, i, Decimal(n));
    }
  }

  lemma BracketsEmit(query: string, i: nat, inner: string)
    requires Spells(query, i, "[" + inner + "]")
    ensures var close := i + 1 + |inner|;
            && Spells(query, i + 1, inner) && close < |query| && query[close] == ']'
            && Emits(query, i, i + 1, [Mark('[')]) && Emits(query, close, close + 1, [Mark(']')])
  {
    hide Emits;
    SpellsJoin(query, i, "[" + inner, "]");
    SpellsJoin(query, i, "[", inner);
    EmitSpelled(query, i, '[');
    EmitSpelled(query, i + 1 + |inner|, ']');
  }

  lemma EmitsBracketed(query: string, i: nat, close: nat, inner: seq<Shape>)
    requires Emits(query, i, i + 1, [Mark('[')]) && Emits(query, i + 1, close, inner)
    requires Emits(query, close, close + 1, [Mark(']')])
    ensures Emits(query, i, close + 1, [Mark('[')] + inner + [Mark(']')])
  {
    hide Emits;
    EmitsJoin(query, i, i + 1, close, [Mark('[')], inner);
    EmitsJoin(query, i, close, close + 1, [Mark('[')] + inner, [Mark(']')]);
  }

  lemma {:induction false} ItemsEmit(query: string, i: nat, items: seq<Value>)
    requires Spells(query, i, PrintItems(items))
    requires i + |PrintItems(items)| < |query| && query[i + |PrintItems(items)|] == ']'
    ensures Emits(query, i, i + |PrintItems(items)|, ItemShapes(items))
    decreases items, 0
  {
    hide Emits, Print, ValueShapes;
    if items == [] {
      EmitsNothing(query, i);
    } else if |items| == 1 {
      assert PrintItems(items) == Print(items[0]) && ItemShapes(items) == ValueShapes(items[0]);
      ValueEmits(query, i, items[0]);
    } else {
      var j, end := i + |Print(items[0])|, i + |PrintItems(items)|;
      var rest := PrintItems(items[1..]);
      assert PrintItems(items) == Print(items[0]) + (", " + rest);
      CommaStands(query, i, Print(items[0]), rest);
      ValueEmits(query, i, items[0]);
      assert end == j + 2 + |rest|;
      ItemsEmit(query, j + 2, items[1..]);
      CommaJoins(query, i, j, end, ValueShapes(items[0]), ItemShapes(items[1..]));
    }
  }

  lemma CommaStands(query: string, i: nat, first: string, rest: string)
    requires Spells(query, i, first + (", " + rest))
    ensures var j := i + |first|;
            && Spells(query, i, first) && Stops(query, j) && Spells(query, j + 2, rest)
            && Emits(query, j, j + 2, [Mark(',')])
  {
    hide Emits;
    var j := i + |first|;
    SpellsJoin(query, i, first, ", " + rest);
    SpellsJoin(query, j, ", ", rest);
    EmitSeparator(query, j, ',');
  }

  lemma CommaJoins(query: string, i: nat, j: nat, end: nat, first: seq<Shape>, rest: seq<Shape>)
    requires Emits(query, i, j, first) && Emits(query, j, j + 2, [Mark(',')]) && Emits(query, j + 2, end, rest)
    ensures Emits(query, i, end, first + ([Mark(',')] + rest))
  {
    hide Emits;
    EmitsJoin(query, j, j + 2, end, [Mark(',')], rest);
    EmitsJoin(query, i, j, end, first, [Mark(',')] + rest);
  }

  lemma EmitsNothing(query: string, i: nat)
    requires i <= |query|
    ensures Emits(query, i, i, [])
  {
  }

  function PrintEntry(e: Entry): string {
    Quote(e.key) + ": " + Print(e.value)
  }

  function EntryShape(e: Entry): seq<Shape> {
    [Quoted(e.key)] + [Mark(':')] + ValueShapes(e.value)
  }

  lemma {:induction false} EntryEmits(query: string, i: nat, e: Entry)
    requires Spells(query, i, PrintEntry(e)) && Stops(query, i + |PrintEntry(e)|)
    ensures Emits(query, i, i + |PrintEntry(e)|, EntryShape(e))
    decreases e, 2
  {
    hide Emits, Print, Quote, ValueShapes;
    var colon := i + |Quote(e.key)|;
    SpellsJoin(query, i, Quote(e.key) + ": ", Print(e.value));
    SpellsJoin(query, i, Quote(e.key), ": ");
    EmitSeparator(query, colon, ':');
    EmitLiteral(query, i, e.key);
    ValueEmits(query, colon + 2, e.value);
    EmitsJoin(query, i, colon, colon + 2, [Quoted(e.key)], [Mark(':')]);
    EmitsJoin(query, i, colon + 2, i + |PrintEntry(e)|, [Quoted(e.key)] + [Mark(':')], ValueShapes(e.value));
  }

  lemma {:induction false} EntriesEmit(query: string, i: nat, entries: seq<Entry>)
    requires Spells(query, i, PrintEntries(entries))
    requires i + |PrintEntries(entries)| < |query| && query[i + |PrintEntries(entries)|] == ']'
    ensures Emits(query, i, i + |PrintEntries(entries)|, EntryShapes(entries))
    decreases entries, 0
  {
    hide Emits, Spells, PrintEntry, EntryShape, PrintEntries, EntryShapes;
    EntriesUnfold(entries);
    if entries == [] {
      EmitsNothing(query, i);
    } else if |entries| == 1 {
      EntryEmits(query, i, entries[0]);
    } else {
      var j, end := i + |PrintEntry(entries[0])|, i + |PrintEntries(entries)|;
      var rest := PrintEntries(entries[1..]);
      CommaStands(query, i, PrintEntry(entries[0]), rest);
      EntryEmits(query, i, entries[0]);
      assert end == j + 2 + |rest|;
      EntriesEmit(query, j + 2, entries[1..]);
      CommaJoins(query, i, j, end, EntryShape(entries[0]), EntryShapes(entries[1..]));
    }
  }

  lemma EntriesUnfold(entries: seq<Entry>)
    ensures entries == [] ==> PrintEntries(entries) == "" && EntryShapes(entries) == []
    ensures |entries| == 1 ==>
              PrintEntries(entries) == PrintEntry(entries[0]) && EntryShapes(entries) == EntryShape(entries[0])
    ensures |entries| > 1 ==>
              && PrintEntries(entries) == PrintEntry(entries[0]) + (", " + PrintEntries(entries[1..]))
              && EntryShapes(entries) == EntryShape(entries[0]) + ([Mark(',')] + EntryShapes(entries[1..]))
  {
  }
}
