/** Reading printed values back: numbers by the value of their digits, strings through Groovy's
    escapes, lists and maps by their brackets. */
module ValueReader {
  import opened Wrappers
  import opened GremlinScanner
  import opened GroovyPrinter

  // ---------- Decimal digits ----------

  function DigitValue(c: char): nat {
    if c == '1' then 1 else if c == '2' then 2 else if c == '3' then 3 else if c == '4' then 4 else if c == '5' then 5
    else if c == '6' then 6 else if c == '7' then 7 else if c == '8' then 8 else if c == '9' then 9 else 0
  }

  function TenTo(n: nat): nat {
    if n == 0 then 1 else 10 * TenTo(n - 1)
  }

  /** Each digit counts by its distance from the end. */
  function Positional(digits: string): nat {
    if digits == "" then 0 else DigitValue(digits[0]) * TenTo(|digits| - 1) + Positional(digits[1..])
  }

  lemma {:induction false} PositionalSnoc(digits: string, c: char)
    ensures Positional(digits + [c]) == 10 * Positional(digits) + DigitValue(c)
  {
    if digits == "" {
      assert "" + [c] == [c] && [c][1..] == "";
      assert Positional([c]) == DigitValue(c) * TenTo(0) + Positional("");
    } else {
      assert (digits + [c])[1..] == digits[1..] + [c];
      PositionalSnoc(digits[1..], c);
      var d, n := DigitValue(digits[0]), |digits| - 1;
      assert d * TenTo(n + 1) == 10 * (d * TenTo(n));
    }
  }

  lemma DigitOf(n: nat)
    requires n < 10
    ensures IsDigit(HexDigit(n)) && DigitValue(HexDigit(n)) == n && (HexDigit(n) == '0' <==> n == 0)
  {
  }

  /** A printed number is the number: its digits add up to it, and it begins with no needless 0. */
  lemma {:induction false} DecimalRoundTrip(n: nat)
    ensures Positional(Decimal(n)) == n
    ensures Decimal(n) != "" && (forall c :: c in Decimal(n) ==> IsDigit(c))
    ensures Decimal(n)[0] == '0' ==> Decimal(n) == "0" && n == 0
  {
    if n < 10 {
      DigitOf(n);
      assert Decimal(n) == "" + [HexDigit(n)];
      PositionalSnoc("", HexDigit(n));
      assert Positional("") == 0;
    } else {
      DecimalRoundTrip(n / 10);
      DigitOf(n % 10);
      PositionalSnoc(Decimal(n / 10), HexDigit(n % 10));
    }
  }

  // ---------- The reader ----------

  type Reading<T> = Option<(T, string)>

  /** How many digits the text begins with. */
  function DigitsEnd(s: string): (end: nat)
    ensures end <= |s|
  {
    if s != "" && IsDigit(s[0]) then 1 + DigitsEnd(s[1..]) else 0
  }

  function Signed(n: int, negative: bool): int {
    if negative then -n else n
  }

  function ReadNumber(s: string, negative: bool): (r: Reading<Value>)
    ensures r.Some? ==> |r.value.1| < |s|
  {
    var end := DigitsEnd(s);
    if end == 0 then None
    else Some((Integer(Signed(Positional(s[..end]), negative)), s[end..]))
  }

  /** A single-quoted literal, at the start of the text. */
  function ReadText(s: string): (r: Reading<string>)
    ensures r.Some? ==> |r.value.1| < |s|
  {
    if s == "" || s[0] != '\'' then None
    else
      match LiteralEnd(s, 1, '\'', false)
      case None => None
      case Some(end) =>
        if end < 2 || end > |s| then None
        else
          match Decode(s[1..end - 1])
          case None => None
          case Some(text) => Some((text, s[end..]))
  }

  predicate Begins(s: string, prefix: string) {
    prefix <= s
  }

  /** A value at the start of the text, and the text after it. */
  function ReadValue(s: string): (r: Reading<Value>)
    ensures r.Some? ==> |r.value.1| < |s|
    decreases |s|, 2
  {
    if s == "" then None
    else if s[0] == '\'' then
      match ReadText(s)
      case None => None
      case Some((text, rest)) => Some((Text(text), rest))
    else if Begins(s, "[]") then Some((Array([]), s[2..]))
    else if s[0] == '[' then
      match ReadEntries(s[1..])
      case Some((entries, rest)) => Some((Map(entries), rest))
      case None =>
        (match ReadItems(s[1..])
         case Some((items, rest)) => Some((Array(items), rest))
         case None => None)
    else if s[0] == '-' then ReadNumber(s[1..], true)
    else if IsDigit(s[0]) then ReadNumber(s, false)
    else if Begins(s, "null") then Some((Null, s[4..]))
    else if Begins(s, "true") then Some((Boolean(true), s[4..]))
    else if Begins(s, "false") then Some((Boolean(false), s[5..]))
    else None
  }

  /** Values up to the closing bracket. */
  function ReadItems(s: string): (r: Reading<seq<Value>>)
    ensures r.Some? ==> |r.value.1| < |s|
    decreases |s|, 3
  {
    match ReadValue(s)
    case None => None
    case Some((value, rest)) =>
      if Begins(rest, "]") then Some(([value], rest[1..]))
      else if Begins(rest, ", ") then
        match ReadItems(rest[2..])
        case None => None
        case Some((values, after)) => Some(([value] + values, after))
      else None
  }

  /** Keys with their values, up to the closing bracket. */
  function ReadEntries(s: string): (r: Reading<seq<Entry>>)
    ensures r.Some? ==> |r.value.1| < |s|
    decreases |s|, 1
  {
    match ReadText(s)
    case None => None
    case Some((key, colon)) =>
      if !Begins(colon, ": ") then None
      else
        match ReadValue(colon[2..])
        case None => None
        case Some((value, rest)) =>
          if Begins(rest, "]") then Some(([Entry(key, value)], rest[1..]))
          else if Begins(rest, ", ") then
            match ReadEntries(rest[2..])
            case None => None
            case Some((entries, after)) => Some(([Entry(key, value)] + entries, after))
          else None
  }

  // ---------- Every value is read back ----------

  /** The value with its empty maps as empty lists: they are printed alike. */
  function Listed(value: Value): Value {
    match value
    case Map(entries) => if entries == [] then Array([]) else Map(ListedEntries(entries))
    case Array(items) => Array(ListedItems(items))
    case _ => value
  }

  function ListedItems(items: seq<Value>): (listed: seq<Value>)
    ensures |listed| == |items|
  {
    if items == [] then [] else [Listed(items[0])] + ListedItems(items[1..])
  }

  function ListedEntries(entries: seq<Entry>): (listed: seq<Entry>)
    ensures |listed| == |entries|
  {
    if entries == [] then [] else [Entry(entries[0].key, Listed(entries[0].value))] + ListedEntries(entries[1..])
  }

  /** No digit follows. */
  predicate Apart(rest: string) {
    rest == "" || !IsDigit(rest[0])
  }

  lemma {:induction false} DigitsEndAt(digits: string, rest: string)
    requires (forall c :: c in digits ==> IsDigit(c)) && Apart(rest)
    ensures DigitsEnd(digits + rest) == |digits|
  {
    if digits == "" {
      assert "" + rest == rest;
    } else {
      assert (digits + rest)[1..] == digits[1..] + rest;
      DigitsEndAt(digits[1..], rest);
    }
  }

  lemma NumberReadsBack(n: nat, negative: bool, rest: string)
    requires Apart(rest)
    ensures ReadNumber(Decimal(n) + rest, negative) == Some((Integer(Signed(n, negative)), rest))
  {
    hide Decimal, Positional;
    DecimalRoundTrip(n);
    DigitsEndAt(Decimal(n), rest);
    assert (Decimal(n) + rest)[..|Decimal(n)|] == Decimal(n) && (Decimal(n) + rest)[|Decimal(n)|..] == rest;
  }

  lemma TextReadsBack(text: string, rest: string)
    ensures ReadText(Quote(text) + rest) == Some((text, rest))
  {
    hide Escape, Decode, LiteralEnd;
    var s := Quote(text) + rest;
    var inner := Escape(text);
    assert s == "'" + inner + "'" + rest;
    assert s[1..1 + |inner|] == inner;
    EscapedContents(s, 1, text);
    EscapeRoundTrip(text);
    assert s[|inner| + 2..] == rest;
  }

  /** The characters a printed value can begin with. */
  lemma PrintStarts(value: Value)
    ensures Print(value) != "" && Print(value)[0] != ']' && (Print(value)[0] == '\'' <==> value.Text?)
    ensures Print(value)[0] == '[' <==> value.Map? || value.Array?
    ensures Print(value)[0] == '-' <==> value.Integer? && value.n < 0
    ensures IsDigit(Print(value)[0]) <==> value.Integer? && value.n >= 0
  {
    hide Escape;
    if value.Integer? {
      DecimalRoundTrip(if value.n < 0 then -value.n else value.n);
      var digits := Decimal(if value.n < 0 then -value.n else value.n);
      assert digits[0] in digits;
    }
  }

  /** A printed value, whatever text follows it, is read back, with its empty maps as lists. */
  lemma {:induction false} ValueReadsBack(value: Value, rest: string)
    requires Apart(rest)
    ensures ReadValue(Print(value) + rest) == Some((Listed(value), rest))
    decreases value, 2
  {
    hide ReadText, ReadNumber, Decimal, Quote;
    PrintStarts(value);
    var s := Print(value) + rest;
    assert s[0] == Print(value)[0];
    match value
    case Text(text) => TextReadsBack(text, rest);
    case Integer(n) =>
      NumberReadsBack(if n < 0 then -n else n, n < 0, rest);
      if n < 0 {
        assert s[1..] == Decimal(-n) + rest;
      }
    case Array(items) => ArrayReadsBack(items, rest);
    case Map(entries) => MapReadsBack(entries, rest);
    case _ => WordReadsBack(value, rest);
  }

  lemma WordReadsBack(value: Value, rest: string)
    requires value.Null? || value.Boolean?
    ensures ReadValue(Print(value) + rest) == Some((value, rest))
  {
    var s := Print(value) + rest;
    assert s[|Print(value)|..] == rest && s[..|Print(value)|] == Print(value);
  }

  lemma {:induction false} ArrayReadsBack(items: seq<Value>, rest: string)
    ensures ReadValue(Print(Array(items)) + rest) == Some((Array(ListedItems(items)), rest))
    decreases items, 1
  {
    hide ReadText, ReadNumber, ReadItems, ReadEntries, PrintItems, ListedItems;
    var s := Print(Array(items)) + rest;
    if items == [] {
      NothingPrinted();
      assert s == "[]" + rest && s[2..] == rest;
    } else {
      ItemsStart(items);
      assert s[1..] == PrintItems(items) + "]" + rest;
      assert s[1] == PrintItems(items)[0];
      ItemsAreNoEntries(items, rest);
      ItemsReadBack(items, rest);
    }
  }

  lemma {:induction false} MapReadsBack(entries: seq<Entry>, rest: string)
    ensures ReadValue(Print(Map(entries)) + rest) == Some((Listed(Map(entries)), rest))
    decreases entries, 1
  {
    hide ReadText, ReadNumber, ReadItems, ReadEntries, PrintEntries, ListedEntries;
    var s := Print(Map(entries)) + rest;
    if entries == [] {
      NothingPrinted();
      assert s == "[]" + rest && s[2..] == rest;
    } else {
      EntriesStart(entries);
      assert s[1..] == PrintEntries(entries) + "]" + rest;
      assert s[1] == PrintEntries(entries)[0];
      EntriesReadBack(entries, rest);
    }
  }

  lemma NothingPrinted()
    ensures PrintItems([]) == "" && PrintEntries([]) == "" && ListedItems([]) == []
  {
  }

  lemma ItemsStart(items: seq<Value>)
    requires items != []
    ensures PrintItems(items) != "" && PrintItems(items)[0] == Print(items[0])[0] && PrintItems(items)[0] != ']'
  {
    PrintStarts(items[0]);
  }

  lemma EntriesStart(entries: seq<Entry>)
    requires entries != []
    ensures PrintEntries(entries) != "" && PrintEntries(entries)[0] == '\''
  {
    hide Escape, Print;
  }

  /** What follows the first of several printed items. */
  function AfterFirst(items: seq<Value>, rest: string): string
    requires items != []
  {
    if |items| == 1 then "]" + rest else ", " + (PrintItems(items[1..]) + "]" + rest)
  }

  lemma ItemsSplit(items: seq<Value>, rest: string)
    requires items != []
    ensures PrintItems(items) + "]" + rest == Print(items[0]) + AfterFirst(items, rest)
    ensures Apart(AfterFirst(items, rest)) && !Begins(AfterFirst(items, rest), ": ")
  {
    hide Print;
  }

  /** A list of values is never taken for a list of entries. */
  lemma ItemsAreNoEntries(items: seq<Value>, rest: string)
    requires items != []
    ensures ReadEntries(PrintItems(items) + "]" + rest) == None
  {
    hide PrintItems, AfterFirst, Quote;
    ItemsSplit(items, rest);
    PrintStarts(items[0]);
    var s := Print(items[0]) + AfterFirst(items, rest);
    assert s[0] == Print(items[0])[0];
    if items[0].Text? {
      TextReadsBack(items[0].s, AfterFirst(items, rest));
    }
  }

  lemma {:induction false} ItemsReadBack(items: seq<Value>, rest: string)
    requires items != []
    ensures ReadItems(PrintItems(items) + "]" + rest) == Some((ListedItems(items), rest))
    decreases items, 0
  {
    hide Print, Listed, ReadValue, PrintItems;
    ItemsSplit(items, rest);
    var after := AfterFirst(items, rest);
    ValueReadsBack(items[0], after);
    if |items| == 1 {
      assert after[1..] == rest && Begins(after, "]");
      assert ListedItems(items) == [Listed(items[0])] + ListedItems(items[1..]) == [Listed(items[0])];
    } else {
      assert after[2..] == PrintItems(items[1..]) + "]" + rest;
      ItemsReadBack(items[1..], rest);
    }
  }

  function AfterEntry(entries: seq<Entry>, rest: string): string
    requires entries != []
  {
    if |entries| == 1 then "]" + rest else ", " + (PrintEntries(entries[1..]) + "]" + rest)
  }

  lemma EntriesSplit(entries: seq<Entry>, rest: string)
    requires entries != []
    ensures PrintEntries(entries) + "]" + rest
            == Quote(entries[0].key) + (": " + (Print(entries[0].value) + AfterEntry(entries, rest)))
    ensures Apart(AfterEntry(entries, rest))
  {
    hide Print, Quote, PrintEntries;
    var key, value := Quote(entries[0].key), Print(entries[0].value);
    EntriesPrinted(entries);
    if |entries| == 1 {
      assert PrintEntries(entries) == key + ": " + value;
      RegroupLast(key, ": ", value, "]", rest);
    } else {
      Regroup(key, ": ", value, ", ", PrintEntries(entries[1..]), "]", rest);
    }
  }

  lemma RegroupLast(key: string, colon: string, value: string, bracket: string, rest: string)
    ensures key + colon + value + bracket + rest == key + (colon + (value + (bracket + rest)))
  {
  }

  lemma Regroup(key: string, colon: string, value: string, comma: string, more: string, bracket: string, rest: string)
    ensures key + colon + value + (comma + more) + bracket + rest
            == key + (colon + (value + (comma + (more + bracket + rest))))
  {
  }

  lemma EntriesPrinted(entries: seq<Entry>)
    requires entries != []
    ensures PrintEntries(entries) == Quote(entries[0].key) + ": " + Print(entries[0].value)
                                     + (if |entries| == 1 then "" else ", " + PrintEntries(entries[1..]))
  {
    hide Print, Quote;
  }

  lemma {:induction false} EntriesReadBack(entries: seq<Entry>, rest: string)
    requires entries != []
    ensures ReadEntries(PrintEntries(entries) + "]" + rest) == Some((ListedEntries(entries), rest))
    decreases entries, 0
  {
    hide Print, Listed, ReadValue, PrintEntries, ReadText, Quote;
    EntriesSplit(entries, rest);
    var after := AfterEntry(entries, rest);
    var colon := ": " + (Print(entries[0].value) + after);
    TextReadsBack(entries[0].key, colon);
    assert colon[2..] == Print(entries[0].value) + after;
    assert entries[0] in entries;
    ValueReadsBack(entries[0].value, after);
    if |entries| == 1 {
      assert after[1..] == rest && Begins(after, "]");
      var only := [Entry(entries[0].key, Listed(entries[0].value))];
      assert ListedEntries(entries) == only + ListedEntries(entries[1..]) == only;
    } else {
      assert after[2..] == PrintEntries(entries[1..]) + "]" + rest;
      EntriesReadBack(entries[1..], rest);
    }
  }

  // ---------- Exactly which values come back ----------

  /** There is no empty map in the value. */
  predicate NoEmptyMap(value: Value) {
    match value
    case Map(entries) => entries != [] && forall e | e in entries :: NoEmptyMap(e.value)
    case Array(items) => forall item | item in items :: NoEmptyMap(item)
    case _ => true
  }

  lemma {:induction false} ListedSame(value: Value)
    ensures Listed(value) == value <==> NoEmptyMap(value)
    decreases value, 1
  {
    match value
    case Map(entries) => ListedEntriesSame(entries);
    case Array(items) => ListedItemsSame(items);
    case _ =>
  }

  lemma {:induction false} ListedItemsSame(items: seq<Value>)
    ensures ListedItems(items) == items <==> forall item :: item in items ==> NoEmptyMap(item)
    decreases items, 0
  {
    if items != [] {
      ListedSame(items[0]);
      ListedItemsSame(items[1..]);
      assert items == [items[0]] + items[1..];
      assert ListedItems(items)[1..] == ListedItems(items[1..]);
    }
  }

  lemma {:induction false} ListedEntriesSame(entries: seq<Entry>)
    ensures ListedEntries(entries) == entries <==> forall e :: e in entries ==> NoEmptyMap(e.value)
    decreases entries, 0
  {
    if entries != [] {
      assert entries[0] in entries;
      ListedSame(entries[0].value);
      ListedEntriesSame(entries[1..]);
      assert entries == [entries[0]] + entries[1..];
      assert ListedEntries(entries)[1..] == ListedEntries(entries[1..]);
    }
  }

  /** Reading a printed value gives it back exactly when no map in it is empty. */
  lemma ReadsBackExactly(value: Value)
    ensures ReadValue(Print(value)) == Some((value, "")) <==> NoEmptyMap(value)
  {
    hide ReadValue, Print, Listed, NoEmptyMap;
    ValueReadsBack(value, "");
    assert Print(value) + "" == Print(value);
    ListedSame(value);
  }

  /** Two values are printed alike exactly when they differ at most in empty maps and empty lists. */
  lemma PrintedAlikeExactly(a: Value, b: Value)
    ensures Print(a) == Print(b) <==> Listed(a) == Listed(b)
  {
    hide ReadValue, Listed;
    ValueReadsBack(a, "");
    ValueReadsBack(b, "");
    assert Print(a) + "" == Print(a) && Print(b) + "" == Print(b);
    ListedPrintsAlike(a);
    ListedPrintsAlike(b);
  }

  lemma {:induction false} ListedPrintsAlike(value: Value)
    ensures Print(Listed(value)) == Print(value)
    decreases value, 1
  {
    match value
    case Map(entries) => ListedEntriesPrintAlike(entries);
    case Array(items) => ListedItemsPrintAlike(items);
    case _ =>
  }

  lemma {:induction false} ListedItemsPrintAlike(items: seq<Value>)
    ensures PrintItems(ListedItems(items)) == PrintItems(items)
    decreases items, 0
  {
    if items != [] {
      ListedPrintsAlike(items[0]);
      ListedItemsPrintAlike(items[1..]);
      assert ListedItems(items)[1..] == ListedItems(items[1..]);
    }
  }

  lemma {:induction false} ListedEntriesPrintAlike(entries: seq<Entry>)
    ensures PrintEntries(ListedEntries(entries)) == PrintEntries(entries)
    decreases entries, 0
  {
    if entries != [] {
      assert entries[0] in entries;
      ListedPrintsAlike(entries[0].value);
      ListedEntriesPrintAlike(entries[1..]);
      assert ListedEntries(entries)[1..] == ListedEntries(entries[1..]);
    }
  }
}
