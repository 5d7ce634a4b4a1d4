/** What a validation without issues says about a property graph. */
module GraphLaws {
  import opened Wrappers
  import opened PropertySchema
  import opened GraphNormalization
  import opened NormalizationLaws
  import opened GraphValidation

  // ---------- No issues, exactly ----------

  /** The values to be checked against the data type of a property. */
  function Elements(cardinality: Option<string>, value: Json): seq<Json> {
    if value.List? && (cardinality.None? || cardinality.value in {"LIST", "SET"}) then value.items else [value]
  }

  /** A given property is declared, not null, of the right shape, and all its values are of its type. */
  ghost predicate ValueFine(schema: Schema, readers: Readers, definition: Definition, key: string, value: Json) {
    var PropertyKey(dataType, cardinality) := KeyOf(schema, key);
    && (definition.properties.Some? ==> key in definition.properties.value)
    && value != Null
    && (cardinality == Some("LIST") || cardinality == Some("SET") ==> value.List?)
    && (cardinality == Some("SET") ==>
          forall i, j :: 0 <= i < j < |value.items| ==> readers.dump(value.items[i]) != readers.dump(value.items[j]))
    && (if dataType.Some? && dataType.value != ""
        then forall v :: v in Elements(cardinality, value) ==> ValidScalar(readers, v, dataType.value)
        else cardinality == Some("SINGLE") ==> !value.Object? && !value.List?)
  }

  /** The entry itself is in order: its type, its label, and all its properties. */
  ghost predicate EntryFine(schema: Schema, readers: Readers, kind: Kind, item: Json) {
    && item.Object? && ("type" in item.fields ==> item.fields["type"] == Str(KindName(kind)))
    && DefinitionOf(schema, kind, item.fields).Some? && Get(item.fields, "properties").Object?
    && var definition, properties := DefinitionOf(schema, kind, item.fields).value,
                                     Get(item.fields, "properties").fields;
       && (forall key :: key in Required(definition) ==> !Blank(Get(properties, key)))
       && (forall key :: key in properties ==> ValueFine(schema, readers, definition, key, properties[key]))
  }

  function Dumps(readers: Readers, values: seq<Json>): set<string> {
    set v | v in values :: readers.dump(v)
  }

  ghost predicate DumpsRepeat(readers: Readers, values: seq<Json>) {
    exists i, j :: 0 <= i < j < |values| && readers.dump(values[i]) == readers.dump(values[j])
  }

  lemma DumpsSnoc(readers: Readers, values: seq<Json>, last: Json)
    ensures Dumps(readers, values + [last]) == Dumps(readers, values) + {readers.dump(last)}
    ensures DumpsRepeat(readers, values + [last])
            <==> DumpsRepeat(readers, values) || readers.dump(last) in Dumps(readers, values)
  {
    var longer, text := values + [last], readers.dump(last);
    assert forall i :: 0 <= i < |values| ==> longer[i] == values[i];
    if text in Dumps(readers, values) {
      var v :| v in values && readers.dump(v) == text;
      var i :| 0 <= i < |values| && values[i] == v;
      assert readers.dump(longer[i]) == readers.dump(longer[|values|]);
    }
    if i, j :| 0 <= i < j < |values| && readers.dump(values[i]) == readers.dump(values[j]) {
      assert readers.dump(longer[i]) == readers.dump(longer[j]);
    }
    if i, j :| 0 <= i < j < |longer| && readers.dump(longer[i]) == readers.dump(longer[j]) {
      assert longer[i] in values;
    }
  }

  /** As many distinct texts as values means that no two values have the same text. */
  lemma {:induction false} DumpsDistinct(readers: Readers, values: seq<Json>)
    ensures |Dumps(readers, values)| <= |values|
    ensures |Dumps(readers, values)| == |values| <==> !DumpsRepeat(readers, values)
  {
    if values != [] {
      var last := |values| - 1;
      DumpsDistinct(readers, values[..last]);
      DumpsSnoc(readers, values[..last], values[last]);
      assert values == values[..last] + [values[last]];
      var fewer, text := Dumps(readers, values[..last]), readers.dump(values[last]);
      if text in fewer {
        assert fewer + {text} == fewer;
      }
    }
  }

  lemma IllTypedMeans(readers: Readers, dataType: Option<string>, values: seq<Json>)
    ensures IllTyped(readers, dataType, values) <==>
              dataType.Some? && dataType.value != "" && !forall v ::
                v in values ==> ValidScalar(readers, v, dataType.value)
  {
    hide ValidScalar;
  }

  lemma ValueProblemsExactly(schema: Schema, readers: Readers, definition: Definition, key: string, value: Json)
    requires value != Null
    ensures ValueProblems(schema, readers, definition, key, value) == {}
            <==> ValueFine(schema, readers, definition, key, value)
  {
    hide ValidScalar, IllTyped, Dumps;
    var PropertyKey(dataType, cardinality) := KeyOf(schema, key);
    IllTypedMeans(readers, dataType, Elements(cardinality, value));
    if value.List? {
      DumpsDistinct(readers, value.items);
      DuplicatesMean(readers, value.items);
    }
  }

  lemma DuplicatesMean(readers: Readers, values: seq<Json>)
    ensures HasDuplicates(readers, values) <==> |Dumps(readers, values)| != |values|
  {
    assert Dumps(readers, values) == set v | v in values :: readers.dump(v);
  }

  /** A null property is a problem of its own, or stands for a missing required one. */
  lemma NullIsAProblem(schema: Schema, readers: Readers, definition: Definition, properties: map<string, Json>,
                       key: string)
    requires key in properties && properties[key] == Null
    ensures PropertyProblems(schema, readers, definition, properties) != {}
  {
    hide Required;
    var problems := PropertyProblems(schema, readers, definition, properties);
    if key in Required(definition) {
      assert MissingProperty(key) in problems;
    } else {
      assert NullProperty(key) in ValueProblems(schema, readers, definition, key, properties[key]);
      assert NullProperty(key) in problems;
    }
  }

  lemma PropertyProblemsExactly(schema: Schema, readers: Readers, definition: Definition, properties: map<string, Json>)
    ensures PropertyProblems(schema, readers, definition, properties) == {} <==>
              && (forall key :: key in Required(definition) ==> !Blank(Get(properties, key)))
              && (forall key :: key in properties ==> ValueFine(schema, readers, definition, key, properties[key]))
  {
    hide ValueProblems, Required, ValueFine;
    var problems := PropertyProblems(schema, readers, definition, properties);
    assert forall key ::
             key in Required(definition) && Blank(Get(properties, key)) ==> MissingProperty(key) in problems;
    assert forall key, p ::
             key in properties && p in ValueProblems(schema, readers, definition, key, properties[key]) ==>
               p in problems;
    forall key | key in properties
      ensures properties[key] == Null ==>
                problems != {} && !ValueFine(schema, readers, definition, key, properties[key])
      ensures properties[key] != Null ==>
                (ValueProblems(schema, readers, definition, key, properties[key]) == {}
                 <==> ValueFine(schema, readers, definition, key, properties[key]))
    {
      if properties[key] == Null {
        NullIsAProblem(schema, readers, definition, properties, key);
        NullIsNotFine(schema, readers, definition, key);
      } else {
        ValueProblemsExactly(schema, readers, definition, key, properties[key]);
      }
    }
  }

  lemma NullIsNotFine(schema: Schema, readers: Readers, definition: Definition, key: string)
    ensures !ValueFine(schema, readers, definition, key, Null)
  {
  }

  lemma EntryProblemsExactly(schema: Schema, readers: Readers, kind: Kind, item: map<string, Json>)
    ensures EntryProblems(schema, readers, kind, item) == {} <==> EntryFine(schema, readers, kind, Object(item))
  {
    hide PropertyProblems, Required, ValueFine;
    var definition, properties := DefinitionOf(schema, kind, item), Get(item, "properties");
    if definition.Some? && properties.Object? {
      PropertyProblemsExactly(schema, readers, definition.value, properties.fields);
    }
  }

  /** Vertex `i` is the one the edge names: it has the identity and the label given by the edge. */
  ghost predicate Answers(schema: Schema, readers: Readers, vertex: Json, edge: map<string, Json>, endpoint: string,
                          labelKey: string) {
    && Get(edge, labelKey).Str? && vertex.Object? && Get(vertex.fields, "label") == Get(edge, labelKey)
    && IdentityOf(schema, readers, vertex).Some?
    && IdentityOf(schema, readers, vertex)
       == VertexIdentity(readers, Get(edge, endpoint), DefinitionOf(schema, Vertex, vertex.fields))
  }

  ghost predicate Attached(schema: Schema, readers: Readers, vertices: seq<Json>, edge: map<string, Json>,
                           endpoint: string, labelKey: string,
                           declared: Option<string>) {
    && (exists i :: 0 <= i < |vertices| && Answers(schema, readers, vertices[i], edge, endpoint, labelKey))
    && (declared.Some? ==> Get(edge, labelKey) == Str(declared.value))
  }

  ghost predicate VertexFine(schema: Schema, readers: Readers, item: Json) {
    && EntryFine(schema, readers, Vertex, item) && ValidId(Get(item.fields, "id"))
    && IdFits(readers, Get(item.fields, "id"), Strategy(schema, item.fields))
  }

  ghost predicate IdFits(readers: Readers, id: Json, strategy: Option<string>) {
    && (strategy == Some("CUSTOMIZE_STRING") ==> id.Str?)
    && (strategy == Some("CUSTOMIZE_NUMBER") ==> ValidScalar(readers, id, "LONG"))
    && (strategy == Some("CUSTOMIZE_UUID") ==> ValidScalar(readers, id, "UUID"))
  }

  lemma StrategyProblemsExactly(readers: Readers, id: Json, strategy: Option<string>)
    ensures StrategyProblems(readers, id, strategy) == {} <==> IdFits(readers, id, strategy)
  {
    hide ValidScalar;
  }

  ghost predicate EdgeFine(schema: Schema, readers: Readers, vertices: seq<Json>, item: Json) {
    && EntryFine(schema, readers, Edge, item)
    && DefinitionOf(schema, Edge, item.fields).Some?
    && var definition := DefinitionOf(schema, Edge, item.fields).value;
       && Attached(schema, readers, vertices, item.fields, "outV", "outVLabel", definition.sourceLabel)
       && Attached(schema, readers, vertices, item.fields, "inV", "inVLabel", definition.targetLabel)
  }

  /** The graph meets its schema. */
  ghost predicate Sound(schema: Schema, readers: Readers, vertices: seq<Json>, edges: seq<Json>) {
    && (forall j :: 0 <= j < |vertices| ==>
          VertexFine(schema, readers, vertices[j]) && IdentityOf(schema, readers, vertices[j]).Some?)
    && (forall i, j :: 0 <= i < j < |vertices| ==>
          IdentityOf(schema, readers, vertices[i]) != IdentityOf(schema, readers, vertices[j]))
    && (forall i, j :: 0 <= i < j < |vertices| && PrimaryTuple(schema, readers, vertices[j]).Some? ==>
          PrimaryTuple(schema, readers, vertices[i]) != PrimaryTuple(schema, readers, vertices[j]))
    && (forall i, j :: 0 <= i < j < |vertices| ==> !SameDates(schema, readers, vertices[j], vertices[i]))
    && (forall j :: 0 <= j < |edges| ==> EdgeFine(schema, readers, vertices, edges[j]))
  }

  lemma IdentityExists(schema: Schema, readers: Readers, item: Json)
    requires VertexFine(schema, readers, item)
    ensures IdentityOf(schema, readers, item).Some?
  {
    hide ValueFine, Required;
  }

  lemma VertexProblemsExactly(schema: Schema, readers: Readers, vertices: seq<Json>, j: nat)
    requires j < |vertices|
    ensures VertexProblems(schema, readers, vertices, j) == {} <==>
              && VertexFine(schema, readers, vertices[j]) && IdentityOf(schema, readers, vertices[j]).Some?
              && (forall i ::
                    0 <= i < j ==> IdentityOf(schema, readers, vertices[i]) != IdentityOf(schema, readers, vertices[j]))
              && (PrimaryTuple(schema, readers, vertices[j]).Some? ==>
                    forall i ::
                      0 <= i < j ==>
                        PrimaryTuple(schema, readers, vertices[i]) != PrimaryTuple(schema, readers, vertices[j]))
              && (forall i :: 0 <= i < j ==> !SameDates(schema, readers, vertices[j], vertices[i]))
  {
    hide EntryProblems, EntryFine, PrimaryTuple, IdentityOf, SameDates, StrategyProblems, IdFits, Strategy, ValidId;
    var item := vertices[j];
    if item.Object? {
      EntryProblemsExactly(schema, readers, Vertex, item.fields);
      assert Object(item.fields) == item;
      StrategyProblemsExactly(readers, Get(item.fields, "id"), Strategy(schema, item.fields));
      if VertexFine(schema, readers, item) {
        IdentityExists(schema, readers, item);
      }
    } else {
      NotFine(schema, readers, item);
    }
  }

  lemma NotFine(schema: Schema, readers: Readers, item: Json)
    requires !item.Object?
    ensures !VertexFine(schema, readers, item)
  {
  }

  lemma AttachedExactly(schema: Schema, readers: Readers, vertices: seq<Json>, edge: map<string, Json>,
                        endpoint: string, labelKey: string,
                        declared: Option<string>)
    requires forall i, j ::
               0 <= i < j < |vertices| ==>
                 IdentityOf(schema, readers, vertices[i]) != IdentityOf(schema, readers, vertices[j])
    ensures EndpointProblems(schema, readers, vertices, edge, endpoint, labelKey, declared) == {}
            <==> Attached(schema, readers, vertices, edge, endpoint, labelKey, declared)
  {
  }

  lemma EdgeProblemsExactly(schema: Schema, readers: Readers, vertices: seq<Json>, item: Json)
    requires forall i, j ::
               0 <= i < j < |vertices| ==>
                 IdentityOf(schema, readers, vertices[i]) != IdentityOf(schema, readers, vertices[j])
    ensures EdgeProblems(schema, readers, vertices, item) == {} <==> EdgeFine(schema, readers, vertices, item)
  {
    hide IdentityOf, EndpointProblems, Attached, EntryProblems, EntryFine, Lookup;
    if item.Object? {
      EntryProblemsExactly(schema, readers, Edge, item.fields);
      assert Object(item.fields) == item;
      var definition := DefinitionOf(schema, Edge, item.fields);
      if definition.Some? {
        AttachedExactly(schema, readers, vertices, item.fields, "outV", "outVLabel", definition.value.sourceLabel);
        AttachedExactly(schema, readers, vertices, item.fields, "inV", "inVLabel", definition.value.targetLabel);
      } else {
        UnknownIsNotFine(schema, readers, item);
      }
    } else {
      EntryNeedsObject(schema, readers, item);
    }
  }

  lemma UnknownIsNotFine(schema: Schema, readers: Readers, item: Json)
    requires item.Object? && DefinitionOf(schema, Edge, item.fields).None?
    ensures !EntryFine(schema, readers, Edge, item)
  {
  }

  lemma EntryNeedsObject(schema: Schema, readers: Readers, item: Json)
    requires !item.Object?
    ensures !EntryFine(schema, readers, Edge, item)
  {
  }

  lemma NoVertexIssues(schema: Schema, readers: Readers, vertices: seq<Json>)
    ensures VertexIssues(schema, readers, vertices, |vertices|) == {}
            <==> forall j :: 0 <= j < |vertices| ==> VertexProblems(schema, readers, vertices, j) == {}
  {
    hide VertexProblems;
    var issues := VertexIssues(schema, readers, vertices, |vertices|);
    assert forall j: nat, p ::
             j < |vertices| && p in VertexProblems(schema, readers, vertices, j) ==> Issue(Vertex, j, p) in issues;
  }

  lemma NoEdgeIssues(schema: Schema, readers: Readers, vertices: seq<Json>, edges: seq<Json>)
    ensures EdgeIssues(schema, readers, vertices, edges, |edges|) == {}
            <==> forall j :: 0 <= j < |edges| ==> EdgeProblems(schema, readers, vertices, edges[j]) == {}
  {
    hide EdgeProblems;
    var issues := EdgeIssues(schema, readers, vertices, edges, |edges|);
    assert forall j: nat, p ::
             j < |edges| && p in EdgeProblems(schema, readers, vertices, edges[j]) ==> Issue(Edge, j, p) in issues;
  }

  /** A normal graph has no issues exactly when it meets its schema: entries in order, identities
      and primary keys pairwise distinct, dates unambiguous, and each end of each edge attached
      to a vertex of the right identity, label and direction. */
  lemma NoIssuesExactly(schema: Schema, readers: Readers, vertices: seq<Json>, edges: seq<Json>)
    ensures Issues(schema, readers, vertices, edges) == {} <==> Sound(schema, readers, vertices, edges)
  {
    hide VertexProblems, EdgeProblems, VertexFine, EdgeFine, IdentityOf, PrimaryTuple, SameDates, VertexIssues,
         EdgeIssues;
    NoVertexIssues(schema, readers, vertices);
    NoEdgeIssues(schema, readers, vertices, edges);
    forall j | 0 <= j < |vertices| {
      VertexProblemsExactly(schema, readers, vertices, j);
    }
    if forall i, j :: 0 <= i < j < |vertices| ==>
         IdentityOf(schema, readers, vertices[i]) != IdentityOf(schema, readers, vertices[j]) {
      forall j | 0 <= j < |edges| {
        EdgeProblemsExactly(schema, readers, vertices, edges[j]);
      }
    }
  }

  /** In a sound graph an end of an edge belongs to one vertex only. */
  lemma EndpointUnique(schema: Schema, readers: Readers, vertices: seq<Json>, edges: seq<Json>, e: nat,
                       endpoint: string, labelKey: string, i: nat, j: nat)
    requires Sound(schema, readers, vertices, edges) && e < |edges| && i < |vertices| && j < |vertices|
    requires Answers(schema, readers, vertices[i], edges[e].fields, endpoint, labelKey)
    requires Answers(schema, readers, vertices[j], edges[e].fields, endpoint, labelKey)
    ensures i == j
  {
    hide IdentityOf, VertexFine, EdgeFine, PrimaryTuple, SameDates, VertexIdentity;
    assert DefinitionOf(schema, Vertex, vertices[i].fields) == DefinitionOf(schema, Vertex, vertices[j].fields);
    assert IdentityOf(schema, readers, vertices[i]) == IdentityOf(schema, readers, vertices[j]);
  }

  // ---------- Validating twice ----------

  ghost function Report(schema: Schema, readers: Readers, vertices: seq<Json>,
                        edges: seq<Json>): (seq<Json>, seq<Json>, set<Issue>) {
    var normal, rewired := NormalVertices(schema, readers, vertices), NormalEdges(schema, readers, vertices, edges);
    (normal, rewired, AliasIssues(AliasesOf(schema, readers, vertices)) + Issues(schema, readers, normal, rewired))
  }

  /** Validating the graph that validation left gives the same graph and the same issues. */
  lemma ValidateTwice(schema: Schema, readers: Readers, vertices: seq<Json>, edges: seq<Json>)
    ensures var (normal, rewired, issues) := Report(schema, readers, vertices, edges);
            Report(schema, readers, normal, rewired) == (normal, rewired, issues)
  {
    hide NormalVertices, NormalEdges, AliasesOf, AliasIssues, Issues;
    NormalizeTwice(schema, readers, vertices, edges);
  }
}
