/** The read policy over scanned tokens (gremlin_policy.py): the adjacency check, the
    stack-based analysis and the classification of a query. */
module GremlinPolicy {
  import opened Wrappers
  import opened Characters
  import opened GremlinScanner

  datatype Safety = Safe | Unsafe | Uncertain

  predicate IsWriteMethod(name: string) {
    name in {"addv", "adde", "drop", "dropv", "drope", "remove", "clear", "sideeffect", "io", "call", "program",
             "property", "iterate"}
  }

  predicate IsReadMethod(name: string) {
    name in {"v", "e", "count", "limit", "range", "has", "haslabel", "hasid", "values", "valuemap", "id", "label",
             "keys",
             "elementmap", "properties", "out", "in", "both", "oute", "ine", "bothe", "outv", "inv", "bothv", "otherv",
             "path", "order", "group", "groupcount", "by", "dedup", "sample", "where", "not", "and", "or", "as",
             "select",
             "unfold", "coalesce", "optional", "repeat", "times", "until", "emit", "simplepath", "cyclicpath", "skip",
             "tail", "tolist", "toset", "explain", "profile"}
  }

  predicate IsAnonymousStep(name: string) {
    name in {"outv", "inv", "bothv", "otherv"}
  }

  predicate IsArgumentWord(name: string) {
    name in {"true", "false", "null"}
  }

  function LowerChar(c: char): char {
    if 'A' <= c <= 'Z' then ((c as int) + 32) as char else c
  }

  /** `str.lower`; identifiers are ASCII. */
  function Lower(s: string): (lowered: string)
    ensures |lowered| == |s|
  {
    seq(|s|, k requires 0 <= k < |s| => LowerChar(s[k]))
  }

  /** Some dynamic marker (`${`, `#{` or `->`) occurs in the text. */
  predicate HasMarker(s: string) {
    exists k :: 0 <= k < |s| - 1 && MarkerAt(s[k], s[k + 1])
  }

  predicate MarkerAt(first: char, second: char) {
    (first in "$#" && second == '{') || (first == '-' && second == '>')
  }

  predicate IsOpener(value: string) {
    value == "(" || value == "[" || value == "{"
  }

  predicate IsCloser(value: string) {
    value == ")" || value == "]" || value == "}"
  }

  function OpenerOf(closer: string): string {
    if closer == ")" then "(" else if closer == "]" then "[" else "{"
  }

  // ---------- Token adjacency ----------

  datatype Verdict = Continue | Accept | Refuse

  predicate IsValueKind(kind: Kind) {
    kind in {Identifier, NumberToken, StringToken}
  }

  predicate ValuesCollide(previous: Shape, current: Shape) {
    || (previous.kind in {NumberToken, StringToken} && (IsValueKind(current.kind) || IsOpener(current.value)))
    || (previous.kind == Identifier && IsValueKind(current.kind))
    || (previous.kind == Identifier && IsArgumentWord(Lower(previous.value)) && IsOpener(current.value))
  }

  predicate CommaMisplaced(previous: string, next: Option<Shape>, stack: seq<string>) {
    || stack == []
    || previous in {"(", "[", "{", ",", ":"}
    || next.None?
    || next.value.value in {",", ":", ")", "]", "}"}
  }

  /** What one position says. An empty map `[:]` ends the whole check, accepting. */
  function AdjacentAt(shapes: seq<Shape>, index: nat, stack: seq<string>): Verdict
    requires 1 <= index < |shapes|
  {
    var previous, current := shapes[index - 1], shapes[index];
    var next := if index + 1 < |shapes| then Some(shapes[index + 1]) else None;
    if IsCloser(previous.value) && current.value !in {".", ",", ")", "]", "}"} then Refuse
    else if ValuesCollide(previous, current) then Refuse
    else if current.value == "," && CommaMisplaced(previous.value, next, stack) then Refuse
    else if current.value == ":" then
      if stack == [] || stack[|stack| - 1] != "[" then Refuse
      else if previous.value in {",", ":", "(", "{"} then Refuse
      else if next.None? then Refuse
      else if previous.value == "[" then (if next.value.value != "]" then Refuse else Accept)
      else if next.value.value in {",", ":", ")", "}", "]"} then Refuse
      else Continue
    else if current.value == "-" && (next.None? || next.value.kind != NumberToken) then Refuse
    else Continue
  }

  function AdjacencyStack(current: string, stack: seq<string>): seq<string> {
    if IsOpener(current) then stack + [current]
    else if IsCloser(current) && stack != [] then stack[..|stack| - 1]
    else stack
  }

  predicate AdjacencyRefused(shapes: seq<Shape>, index: nat, stack: seq<string>)
    requires 1 <= index
    decreases |shapes| - index
  {
    index < |shapes|
    && match AdjacentAt(shapes, index, stack)
       case Refuse => true
       case Accept => false
       case Continue => AdjacencyRefused(shapes, index + 1, AdjacencyStack(shapes[index].value, stack))
  }

  /** `_has_invalid_token_adjacency`. */
  method HasInvalidTokenAdjacency(shapes: seq<Shape>) returns (invalid: bool)
    ensures invalid == AdjacencyRefused(shapes, 1, [])
  {
    var stack: seq<string> := [];
    var index := 1;
    while index < |shapes|
      invariant index >= 1
      invariant AdjacencyRefused(shapes, index, stack) == AdjacencyRefused(shapes, 1, [])
    {
      var previous, current := shapes[index - 1], shapes[index];
      if IsCloser(previous.value) && current.value !in {".", ",", ")", "]", "}"} {
        return true;
      }
      if ValuesCollide(previous, current) {
        return true;
      }
      if current.value == "," {
        if stack == [] || previous.value in {"(", "[", "{", ",", ":"} {
          return true;
        }
        if index + 1 >= |shapes| || shapes[index + 1].value in {",", ":", ")", "]", "}"} {
          return true;
        }
      }
      if current.value == ":" {
        if stack == [] || stack[|stack| - 1] != "[" {
          return true;
        }
        if previous.value in {",", ":", "(", "{"} || index + 1 >= |shapes| {
          return true;
        }
        if previous.value == "[" {
          return shapes[index + 1].value != "]";
        }
        if shapes[index + 1].value in {",", ":", ")", "}", "]"} {
          return true;
        }
      }
      if current.value == "-" {
        if index + 1 >= |shapes| || shapes[index + 1].kind != NumberToken {
          return true;
        }
      }
      if IsOpener(current.value) {
        stack := stack + [current.value];
      } else if IsCloser(current.value) && stack != [] {
        stack := stack[..|stack| - 1];
      }
      index := index + 1;
    }
    invalid := false;
  }

  // ---------- Token analysis ----------

  datatype Report = Report(methods: seq<string>, writes: bool, doubtful: bool)

  predicate IsMember(shapes: seq<Shape>, i: nat) {
    1 <= i < |shapes| && shapes[i - 1].value == "."
  }

  predicate IsCall(shapes: seq<Shape>, i: nat) {
    i + 1 < |shapes| && shapes[i + 1].value == "("
  }

  /** The contribution of one token, brackets apart. */
  function ReportAt(shapes: seq<Shape>, i: nat): Report
    requires i < |shapes|
  {
    var shape := shapes[i];
    var lowered := Lower(shape.value);
    if shape.kind == UnknownToken then Report([], false, true)
    else if shape.kind == StringToken then Report([], false, HasMarker(shape.value))
    else if shape.kind == PunctuationToken then
      Report([], false, shape.value in {";", "+", "=", "?", "!", "*", "%", "/"})
    else if shape.kind != Identifier then Report([], false, false)
    else if IsMember(shapes, i) then
      if IsCall(shapes, i) then Report([lowered], IsWriteMethod(lowered), false)
      else Report([], IsWriteMethod(lowered), true)
    else if IsCall(shapes, i) then
      if IsAnonymousStep(lowered) then Report([lowered], false, false)
      else if IsWriteMethod(lowered) then Report([], true, false)
      else Report([], false, true)
    else Report([], false, !((i == 0 && lowered == "g") || IsArgumentWord(lowered)))
  }

  function Methods(shapes: seq<Shape>, n: nat): seq<string>
    requires n <= |shapes|
  {
    if n == 0 then [] else Methods(shapes, n - 1) + ReportAt(shapes, n - 1).methods
  }

  predicate Writes(shapes: seq<Shape>) {
    exists i :: 0 <= i < |shapes| && ReportAt(shapes, i).writes
  }

  predicate Doubtful(shapes: seq<Shape>) {
    exists i :: 0 <= i < |shapes| && ReportAt(shapes, i).doubtful
  }

  /** Brackets among the punctuation tokens match, starting from the open ones in `stack`. */
  predicate Nested(shapes: seq<Shape>, i: nat, stack: seq<string>)
    requires i <= |shapes|
    decreases |shapes| - i
  {
    if i == |shapes| then stack == []
    else if shapes[i].kind != PunctuationToken then Nested(shapes, i + 1, stack)
    else if IsOpener(shapes[i].value) then Nested(shapes, i + 1, stack + [shapes[i].value])
    else if IsCloser(shapes[i].value) then
      stack != [] && stack[|stack| - 1] == OpenerOf(shapes[i].value) && Nested(shapes, i + 1, stack[..|stack| - 1])
    else Nested(shapes, i + 1, stack)
  }

  predicate Rooted(shapes: seq<Shape>) {
    && |shapes| >= 4
    && shapes[0].kind == Identifier && Lower(shapes[0].value) == "g"
    && shapes[1].value == "."
    && shapes[2].kind == Identifier && Lower(shapes[2].value) in {"v", "e"}
    && shapes[3].value == "("
  }

  predicate DotsNamed(shapes: seq<Shape>) {
    forall i :: 0 <= i < |shapes| && shapes[i].value == "." ==> i + 1 < |shapes| && shapes[i + 1].kind == Identifier
  }

  predicate Braceless(shapes: seq<Shape>) {
    forall i :: 0 <= i < |shapes| ==> shapes[i].value != "{" && shapes[i].value != "}"
  }

  function Shapes(tokens: seq<Token>): (shapes: seq<Shape>)
    ensures |shapes| == |tokens|
  {
    seq(|tokens|, k requires 0 <= k < |tokens| => tokens[k].shape)
  }

  predicate UncertainTokens(shapes: seq<Shape>, valid: bool, normalized: string) {
    || !valid
    || shapes == []
    || AdjacencyRefused(shapes, 1, [])
    || Doubtful(shapes)
    || !Nested(shapes, 0, [])
    || !Rooted(shapes)
    || !DotsNamed(shapes)
    || HasMarker(normalized)
    || !Braceless(shapes)
  }

  /** The branches of the loop body for one token, brackets apart. */
  method InspectToken(shapes: seq<Shape>, index: nat) returns (report: Report)
    requires index < |shapes|
    ensures report == ReportAt(shapes, index)
  {
    hide IsWriteMethod, IsAnonymousStep, IsArgumentWord;
    var shape := shapes[index];
    if shape.kind == UnknownToken || (shape.kind == StringToken && HasMarker(shape.value)) {
      return Report([], false, true);
    }
    if shape.kind == PunctuationToken {
      return Report([], false, shape.value in {";", "+", "=", "?", "!", "*", "%", "/"});
    }
    if shape.kind != Identifier {
      return Report([], false, false);
    }
    var lowered := Lower(shape.value);
    if IsMember(shapes, index) {
      if !IsCall(shapes, index) {
        return Report([], IsWriteMethod(lowered), true);
      }
      return Report([lowered], IsWriteMethod(lowered), false);
    }
    if IsCall(shapes, index) {
      if IsAnonymousStep(lowered) {
        return Report([lowered], false, false);
      }
      return Report([], IsWriteMethod(lowered), !IsWriteMethod(lowered));
    }
    if (index == 0 && lowered == "g") || IsArgumentWord(lowered) {
      return Report([], false, false);
    }
    report := Report([], false, true);
  }

  /** The main loop of `_analyze_tokens`. */
  method WalkTokens(shapes: seq<Shape>) returns (methods: seq<string>, writes: bool, uncertain: bool)
    ensures methods == Methods(shapes, |shapes|)
    ensures writes == Writes(shapes)
    ensures uncertain == (Doubtful(shapes) || !Nested(shapes, 0, []))
  {
    hide ReportAt;
    methods, writes, uncertain := [], false, false;
    var stack: seq<string> := [];
    ghost var doubtful, broken := false, false;
    for index := 0 to |shapes|
      invariant methods == Methods(shapes, index)
      invariant writes == exists i :: 0 <= i < index && ReportAt(shapes, i).writes
      invariant doubtful == exists i :: 0 <= i < index && ReportAt(shapes, i).doubtful
      invariant uncertain == (doubtful || broken)
      invariant if broken then !Nested(shapes, 0, []) else Nested(shapes, index, stack) == Nested(shapes, 0, [])
    {
      var shape := shapes[index];
      var report := InspectToken(shapes, index);
      methods := methods + report.methods;
      writes := writes || report.writes;
      doubtful := doubtful || report.doubtful;
      uncertain := uncertain || report.doubtful;
      if shape.kind == PunctuationToken {
        if IsOpener(shape.value) {
          stack := stack + [shape.value];
        } else if IsCloser(shape.value) {
          if stack == [] || stack[|stack| - 1] != OpenerOf(shape.value) {
            uncertain := true;
            broken := true;
          }
          if stack != [] {
            stack := stack[..|stack| - 1];
          }
        }
      }
    }
    if stack != [] {
      uncertain := true;
    }
  }

  /** `_analyze_tokens`. */
  method AnalyzeTokens(lexed: LexResult) returns (methods: seq<string>, writes: bool, uncertain: bool)
    ensures methods == Methods(Shapes(lexed.tokens), |lexed.tokens|)
    ensures writes == Writes(Shapes(lexed.tokens))
    ensures uncertain == UncertainTokens(Shapes(lexed.tokens), lexed.valid, lexed.normalized)
  {
    hide Nested, AdjacencyRefused, Writes, Doubtful, Methods, HasMarker;
    var shapes := Shapes(lexed.tokens);
    var invalid := HasInvalidTokenAdjacency(shapes);
    methods, writes, uncertain := WalkTokens(shapes);
    uncertain := uncertain || !lexed.valid || shapes == [] || invalid;
    if !Rooted(shapes) {
      uncertain := true;
    }
    var dotsNamed := true;
    for index := 0 to |shapes|
      invariant dotsNamed <==>
        forall i :: 0 <= i < index && shapes[i].value == "." ==> i + 1 < |shapes| && shapes[i + 1].kind == Identifier
    {
      if shapes[index].value == "." && (index + 1 >= |shapes| || shapes[index + 1].kind != Identifier) {
        dotsNamed := false;
      }
    }
    uncertain := uncertain || !dotsNamed || HasMarker(lexed.normalized) || !Braceless(shapes);
  }

  // ---------- Classification ----------

  predicate IsBlank(query: string) {
    forall k :: 0 <= k < |query| ==> IsSpace(query[k])
  }

  function Classify(query: string): Safety {
    var lexed := Lex(query);
    var shapes := Shapes(lexed.tokens);
    if IsBlank(query) then Uncertain
    else if Writes(shapes) then Unsafe
    else if UncertainTokens(shapes, lexed.valid, lexed.normalized) then Uncertain
    else if exists name | name in Methods(shapes, |shapes|) :: !IsReadMethod(name) then Uncertain
    else Safe
  }

  /** `classify_gremlin_read_safety`. */
  method ClassifyGremlinReadSafety(query: string) returns (safety: Safety)
    ensures safety == Classify(query)
  {
    if IsBlank(query) {
      return Uncertain;
    }
    var lexed := LexGremlinQuery(query);
    var methods, writes, uncertain := AnalyzeTokens(lexed);
    if writes {
      return Unsafe;
    }
    if uncertain {
      return Uncertain;
    }
    if exists name | name in methods :: !IsReadMethod(name) {
      return Uncertain;
    }
    safety := Safe;
  }
}
