/** Groovy literals and read queries (graph_data_gremlin.py), and the round trip of literals
    through the scanner's literal rule and through Groovy's own escapes. */
module GroovyPrinter {
  import opened Wrappers
  import opened GremlinScanner
  import opened Spelling

  // ---------- String literals ----------

  const BACKSPACE := 0x08 as char
  const FORM_FEED := 0x0C as char

  function HexDigit(n: nat): char
    requires n < 16
  {
    if n < 10 then ('0' as int + n) as char else ('a' as int + n - 10) as char
  }

  function EscapeChar(c: char): string {
    if c == '\\' then "\\\\"
    else if c == '\'' then "\\'"
    else if c == '\n' then "\\n"
    else if c == '\r' then "\\r"
    else if c == '\t' then "\\t"
    else if c == BACKSPACE then "\\b"
    else if c == FORM_FEED then "\\f"
    else if c as int < 0x20 then UnicodeEscape(c as int)
    else [c]
  }

  /** Backslash, `u` and four hexadecimal digits. */
  function UnicodeEscape(code: nat): (escape: string)
    requires code < 256
    ensures |escape| == 6 && escape[0] == '\\' && escape[1] == 'u' && escape[2] == '0' && escape[3] == '0'
    ensures escape[4] == HexDigit(code / 16) && escape[5] == HexDigit(code % 16)
  {
    ['\\', 'u', '0', '0', HexDigit(code / 16), HexDigit(code % 16)]
  }

  function Escape(s: string): string {
    if s == "" then "" else EscapeChar(s[0]) + Escape(s[1..])
  }

  lemma EscapeSnoc(s: string, c: char)
    ensures Escape(s + [c]) == Escape(s) + EscapeChar(c)
  {
    if s != "" {
      assert (s + [c])[1..] == s[1..] + [c];
      EscapeSnoc(s[1..], c);
    } else {
      assert (s + [c])[1..] == "";
    }
  }

  /** `_escape_groovy_single_quoted`. */
  method EscapeGroovySingleQuoted(value: string) returns (escaped: string)
    ensures escaped == Escape(value)
  {
    escaped := "";
    for k := 0 to |value|
      invariant escaped == Escape(value[..k])
    {
      var c := value[k];
      var piece :=
        if c == '\\' then "\\\\"
        else if c == '\'' then "\\'"
        else if c == '\n' then "\\n"
        else if c == '\r' then "\\r"
        else if c == '\t' then "\\t"
        else if c == BACKSPACE then "\\b"
        else if c == FORM_FEED then "\\f"
        else if c as int < 0x20 then UnicodeEscape(c as int)
        else [c];
      escaped := escaped + piece;
      EscapeSnoc(value[..k], c);
      assert value[..k + 1] == value[..k] + [c];
    }
    assert value[..|value|] == value;
  }

  function Quote(s: string): string {
    "'" + Escape(s) + "'"
  }

  // ---------- Values and queries ----------

  /** The values a read query can carry. A map's entries are listed in printing order; the
      source sorts them by key. */
  datatype Value =
    | Null
    | Boolean(b: bool)
    | Integer(n: int)
    | Text(s: string)
    | Array(items: seq<Value>)
    | Map(entries: seq<Entry>)

  datatype Entry = Entry(key: string, value: Value)

  function Decimal(n: nat): string {
    if n < 10 then [HexDigit(n)] else Decimal(n / 10) + [HexDigit(n % 10)]
  }

  /** `_g`. */
  function Print(value: Value): string {
    match value
    case Text(s) => Quote(s)
    case Map(entries) => "[" + PrintEntries(entries) + "]"
    case Array(items) => "[" + PrintItems(items) + "]"
    case Null => "null"
    case Boolean(b) => if b then "true" else "false"
    case Integer(n) => if n < 0 then "-" + Decimal(-n) else Decimal(n)
  }

  function PrintItems(items: seq<Value>): string {
    if items == [] then ""
    else Print(items[0]) + (if |items| == 1 then "" else ", " + PrintItems(items[1..]))
  }

  function PrintEntries(entries: seq<Entry>): string {
    if entries == [] then ""
    else
      Quote(entries[0].key) + ": " + Print(entries[0].value)
      + (if |entries| == 1 then "" else ", " + PrintEntries(entries[1..]))
  }

  /** One step of `_has_steps`. */
  function HasStep(key: string, value: Value): string {
    if key == "id" then ".hasId(" + Print(value) + ")" else ".has(" + Quote(key) + "," + Print(value) + ")"
  }

  function HasSteps(criteria: seq<Entry>): string {
    if criteria == [] then "" else HasStep(criteria[0].key, criteria[0].value) + HasSteps(criteria[1..])
  }

  lemma {:induction false} HasStepsSnoc(criteria: seq<Entry>, last: Entry)
    ensures HasSteps(criteria + [last]) == HasSteps(criteria) + HasStep(last.key, last.value)
  {
    hide HasStep;
    if criteria == [] {
      assert (criteria + [last])[1..] == [];
    } else {
      assert (criteria + [last])[1..] == criteria[1..] + [last];
      HasStepsSnoc(criteria[1..], last);
    }
  }

  lemma NoSteps()
    ensures HasSteps([]) == ""
  {
  }

  /** `_has_steps`. */
  method PrintHasSteps(criteria: seq<Entry>) returns (steps: string)
    ensures steps == HasSteps(criteria)
  {
    hide Print, Quote, HasSteps;
    NoSteps();
    steps := "";
    for k := 0 to |criteria|
      invariant steps == HasSteps(criteria[..k])
    {
      var Entry(key, value) := criteria[k];
      if key == "id" {
        steps := steps + (".hasId(" + Print(value) + ")");
      } else {
        steps := steps + (".has(" + Quote(key) + "," + Print(value) + ")");
      }
      HasStepsSnoc(criteria[..k], criteria[k]);
      assert criteria[..k + 1] == criteria[..k] + [criteria[k]];
    }
    assert criteria[..|criteria|] == criteria;
  }

  /** `_vertex_match_query` and the two endpoint queries. */
  function VertexQuery(name: Value, criteria: seq<Entry>): string {
    "g.V().hasLabel(" + Print(name) + ")" + HasSteps(criteria)
  }

  /** `_edge_match_query`. */
  function EdgeQuery(sourceLabel: Value, source: seq<Entry>, edge: Value,
                     targetLabel: Value, target: seq<Entry>): string {
    VertexQuery(sourceLabel, source)
    + ".outE(" + Print(edge) + ")"
    + ".where(inV().hasLabel(" + Print(targetLabel) + ")" + HasSteps(target) + ")"
  }

  /** What the execution layer appends before it sends a match query. */
  datatype Suffix = Count | LimitedIds

  function SuffixText(suffix: Suffix): string {
    match suffix
    case Count => ".count()"
    case LimitedIds => ".limit(2).id()"
  }

  // ---------- Round trips ----------

  /** What Groovy makes of the contents of a single-quoted literal. */
  function Decode(s: string): Option<string> {
    if s == "" then Some("")
    else if s[0] != '\\' then Cons(s[0], Decode(s[1..]))
    else if |s| < 2 then None
    else
      match s[1]
      case '\\' => Cons('\\', Decode(s[2..]))
      case '\'' => Cons('\'', Decode(s[2..]))
      case 'n' => Cons('\n', Decode(s[2..]))
      case 'r' => Cons('\r', Decode(s[2..]))
      case 't' => Cons('\t', Decode(s[2..]))
      case 'b' => Cons(BACKSPACE, Decode(s[2..]))
      case 'f' => Cons(FORM_FEED, Decode(s[2..]))
      case 'u' =>
        if |s| < 6 || exists k | 2 <= k < 6 :: HexValue(s[k]).None? then None
        else
          var code := ((HexValue(s[2]).value * 16 + HexValue(s[3]).value) * 16 + HexValue(s[4]).value) * 16
                      + HexValue(s[5]).value;
          if code < 0xD800 then Cons(code as char, Decode(s[6..])) else None
      case _ => None
  }

  function Cons(c: char, rest: Option<string>): Option<string> {
    match rest
    case Some(s) => Some([c] + s)
    case None => None
  }

  function HexValue(c: char): (value: Option<nat>)
    ensures value.Some? ==> value.value < 16
  {
    if '0' <= c <= '9' then Some(c as int - '0' as int)
    else if 'a' <= c <= 'f' then Some(c as int - 'a' as int + 10)
    else if 'A' <= c <= 'F' then Some(c as int - 'A' as int + 10)
    else None
  }

  lemma DecodeUnicode(code: nat, rest: string)
    requires code < 0x20
    ensures Decode(UnicodeEscape(code) + rest) == Cons(code as char, Decode(rest))
  {
  }

  lemma DecodeOne(c: char, rest: string)
    ensures Decode(EscapeChar(c) + rest) == Cons(c, Decode(rest))
  {
    var text := EscapeChar(c) + rest;
    if |EscapeChar(c)| == 6 {
      DecodeUnicode(c as int, rest);
    } else if |EscapeChar(c)| == 2 {
      assert text[2..] == rest;
    } else {
      assert text[1..] == rest;
    }
  }

  /** Decoding the Groovy escapes of any string gives the string back. */
  lemma {:induction false} EscapeRoundTrip(s: string)
    ensures Decode(Escape(s)) == Some(s)
  {
    if s != "" {
      DecodeOne(s[0], Escape(s[1..]));
      EscapeRoundTrip(s[1..]);
      assert [s[0]] + s[1..] == s;
    }
  }

  /** A character that is neither a backslash, nor the quote, nor a line break is passed over. */
  lemma PlainStep(query: string, i: nat)
    requires i < |query| && query[i] != '\\' && query[i] != '\'' && !IsLineBreak(query[i])
    ensures LiteralEnd(query, i, '\'', false) == LiteralEnd(query, i + 1, '\'', false)
  {
  }

  lemma EscapeStep(query: string, i: nat)
    requires i + 1 < |query| && query[i] == '\\'
    ensures LiteralEnd(query, i, '\'', false) == LiteralEnd(query, i + 2, '\'', false)
  {
  }

  lemma HexDigitsPlain(n: nat)
    requires n < 16
    ensures HexDigit(n) !in "\\'\r\n"
  {
  }

  /** One escaped character never closes the literal, nor breaks the line. */
  lemma EscapedStep(query: string, i: nat, c: char)
    requires Spells(query, i, EscapeChar(c))
    ensures LiteralEnd(query, i, '\'', false) == LiteralEnd(query, i + |EscapeChar(c)|, '\'', false)
  {
    hide LiteralEnd, HexDigit, Spells;
    var e := EscapeChar(c);
    SpellsWithin(query, i, e);
    forall k | 0 <= k < |e|
      ensures query[i + k] == e[k]
    {
      SpellsAt(query, i, e, k);
    }
    assert query[i + 0] == e[0];
    if |e| == 1 {
      PlainStep(query, i);
    } else {
      EscapeStep(query, i);
      if |e| == 6 {
        HexDigitsPlain(c as int / 16);
        HexDigitsPlain(c as int % 16);
        PlainStep(query, i + 2);
        PlainStep(query, i + 3);
        PlainStep(query, i + 4);
        PlainStep(query, i + 5);
      }
    }
  }

  lemma {:induction false} EscapedContents(query: string, i: nat, s: string)
    requires Spells(query, i, Escape(s)) && i + |Escape(s)| < |query| && query[i + |Escape(s)|] == '\''
    ensures LiteralEnd(query, i, '\'', false) == Some(i + |Escape(s)| + 1)
    decreases s
  {
    hide EscapeChar;
    if s != "" {
      SpellsJoin(query, i, EscapeChar(s[0]), Escape(s[1..]));
      EscapedStep(query, i, s[0]);
      EscapedContents(query, i + |EscapeChar(s[0])|, s[1..]);
    }
  }

  lemma EscapedStart(s: string)
    requires s != ""
    ensures Escape(s) != "" && Escape(s)[0] == EscapeChar(s[0])[0] != '\''
  {
  }

  /** The scanner's literal rule stops exactly at the closing quote of a printed literal,
      unless the literal is empty and another quote follows it. */
  lemma LiteralRoundTrip(query: string, i: nat, s: string)
    requires Spells(query, i, Quote(s))
    ensures QuotedEnd(query, i) == Some(i + |Quote(s)|) <==> !(s == "" && i + 2 < |query| && query[i + 2] == '\'')
  {
    hide Escape;
    SpellsJoin(query, i, "'" + Escape(s), "'");
    SpellsJoin(query, i, "'", Escape(s));
    var end := i + 1 + |Escape(s)|;
    SpellsAt(query, i, "'", 0);
    SpellsAt(query, end, "'", 0);
    if s == "" {
      EmptyEscape();
      EmptyLiteral(query, i);
    } else {
      EscapedStart(s);
      SpellsAt(query, i + 1, Escape(s), 0);
      EscapedContents(query, i + 1, s);
    }
  }

  lemma EmptyEscape()
    ensures Escape("") == ""
  {
  }

  lemma EmptyLiteral(query: string, i: nat)
    requires i + 1 < |query| && query[i] == query[i + 1] == '\''
    ensures QuotedEnd(query, i) == Some(i + 2) <==> !(i + 2 < |query| && query[i + 2] == '\'')
  {
  }
}
