/** Normalisation of vertex identifiers and of the edges that refer to them (property_graph.py,
    `_normalize`): a graph is changed in place, or left alone when an alias is ambiguous. */
module GraphNormalization {
  import opened Wrappers
  import opened PropertySchema

  class Graph {
    var vertices: seq<Json>
    var edges: seq<Json>

    constructor (vertices: seq<Json>, edges: seq<Json>)
      ensures this.vertices == vertices && this.edges == edges
    {
      this.vertices, this.edges := vertices, edges;
    }
  }

  // ---------- Targets and aliases ----------

  /** The identifier a vertex is given: the one made of its primary keys, else its own. */
  function Target(schema: Schema, readers: Readers, item: Json): (target: Option<Json>)
    ensures target.Some? ==> item.Object? && Get(item.fields, "label").Str? && ValidId(target.value)
  {
    if !item.Object? then None
    else
      match Lookup(schema.vertexLabels, Get(item.fields, "label"))
      case None => None
      case Some(definition) =>
        var properties := Get(item.fields, "properties");
        if !properties.Object? then None
        else
          var canonical := readers.primaryKeyId(definition, properties.fields);
          var target := if canonical.Some? then canonical.value else Get(item.fields, "id");
          if ValidId(target) then Some(target) else None
  }

  type Aliases = map<(string, Json), set<Json>>

  function Add(aliases: Aliases, name: string, alias: Json, target: Json): Aliases {
    if !ValidId(alias) then aliases
    else aliases[(name, alias) := (if (name, alias) in aliases then aliases[(name, alias)] else {}) + {target}]
  }

  /** Every label and identifier that names a vertex, with the identifiers it may stand for. */
  function AliasesOf(schema: Schema, readers: Readers, vertices: seq<Json>): Aliases {
    if vertices == [] then map[]
    else
      var item := vertices[|vertices| - 1];
      var earlier := AliasesOf(schema, readers, vertices[..|vertices| - 1]);
      match Target(schema, readers, item)
      case None => earlier
      case Some(target) =>
        var name := Get(item.fields, "label").s;
        Add(Add(earlier, name, target, target), name, Get(item.fields, "id"), target)
  }

  predicate Ambiguous(aliases: Aliases) {
    exists key | key in aliases :: |aliases[key]| > 1
  }

  // ---------- The new entries ----------

  function NormalVertex(schema: Schema, readers: Readers, item: Json): Json {
    match Target(schema, readers, item)
    case None => item
    case Some(target) => Object(item.fields["id" := target])
  }

  /** An endpoint of an edge as the edge names it, directly or by the properties of the vertex. */
  function Named(schema: Schema, readers: Readers, edge: map<string, Json>, endpoint: string, labelKey: string,
                 legacyKey: string): (Json, Json) {
    var id, name, legacy := Get(edge, endpoint), Get(edge, labelKey), Get(edge, legacyKey);
    if id != Null || !legacy.Object? then (name, id)
    else
      var legacyName := Get(legacy.fields, "label");
      match Lookup(schema.vertexLabels, legacyName)
      case None => (legacyName, Null)
      case Some(definition) =>
        var properties := Get(legacy.fields, "properties");
        if !properties.Object? then (legacyName, Null)
        else
          (match readers.primaryKeyId(definition, properties.fields)
           case None => (legacyName, Null)
           case Some(canonical) => (legacyName, canonical))
  }

  ghost function SoleTarget(targets: set<Json>): Json
    requires targets != {}
  {
    var target :| target in targets; target
  }

  ghost function NormalEndpoint(schema: Schema, readers: Readers, aliases: Aliases, edge: map<string, Json>,
                                endpoint: string, labelKey: string, legacyKey: string): map<string, Json> {
    var (name, id) := Named(schema, readers, edge, endpoint, labelKey, legacyKey);
    if name.Str? && ValidId(id) && (name.s, id) in aliases && aliases[(name.s, id)] != {}
    then edge[endpoint := SoleTarget(aliases[(name.s, id)])][labelKey := name]
    else edge
  }

  ghost function NormalEdge(schema: Schema, readers: Readers, aliases: Aliases, edge: Json): Json {
    if !edge.Object? then edge
    else
      var half := NormalEndpoint(schema, readers, aliases, edge.fields, "outV", "outVLabel", "source");
      Object(NormalEndpoint(schema, readers, aliases, half, "inV", "inVLabel", "target"))
  }

  ghost function NormalVertices(schema: Schema, readers: Readers, vertices: seq<Json>): (normal: seq<Json>)
    ensures |normal| == |vertices|
  {
    if Ambiguous(AliasesOf(schema, readers, vertices)) then vertices
    else seq(|vertices|, i requires 0 <= i < |vertices| => NormalVertex(schema, readers, vertices[i]))
  }

  ghost function NormalEdges(schema: Schema, readers: Readers, vertices: seq<Json>,
                             edges: seq<Json>): (normal: seq<Json>)
    ensures |normal| == |edges|
  {
    var aliases := AliasesOf(schema, readers, vertices);
    if Ambiguous(aliases) then edges
    else seq(|edges|, i requires 0 <= i < |edges| => NormalEdge(schema, readers, aliases, edges[i]))
  }

  function AliasIssues(aliases: Aliases): set<Issue> {
    set key | key in aliases && |aliases[key]| > 1 :: Issue(Vertex, 0, AmbiguousAlias(key.0, key.1))
  }

  // ---------- The method ----------

  lemma OnlyMember(targets: set<Json>, target: Json)
    requires target in targets && |targets| <= 1
    ensures SoleTarget(targets) == target
  {
    assert |targets - {target}| == |targets| - 1;
    assert targets - {target} == {};
  }

  /** The rewriting of one endpoint. */
  method RenameEndpoint(schema: Schema, readers: Readers, aliases: Aliases, edge: map<string, Json>,
                        endpoint: string, labelKey: string, legacyKey: string) returns (renamed: map<string, Json>)
    requires !Ambiguous(aliases)
    ensures renamed == NormalEndpoint(schema, readers, aliases, edge, endpoint, labelKey, legacyKey)
  {
    renamed := edge;
    var id, name := Get(edge, endpoint), Get(edge, labelKey);
    var legacy := Get(edge, legacyKey);
    if id == Null && legacy.Object? {
      name := Get(legacy.fields, "label");
      var definition := Lookup(schema.vertexLabels, name);
      var properties := Get(legacy.fields, "properties");
      if definition.Some? && properties.Object? {
        var canonical := readers.primaryKeyId(definition.value, properties.fields);
        id := if canonical.Some? then canonical.value else Null;
      }
    }
    assert (name, id) == Named(schema, readers, edge, endpoint, labelKey, legacyKey);
    if name.Str? && ValidId(id) && (name.s, id) in aliases {
      var matches := aliases[(name.s, id)];
      if matches != {} {
        var target :| target in matches;
        OnlyMember(matches, target);
        renamed := renamed[endpoint := target];
        renamed := renamed[labelKey := name];
      }
    }
  }

  /** The updates list every vertex that gets an identifier, with that identifier. */
  ghost predicate Lists(schema: Schema, readers: Readers, vertices: seq<Json>, updates: seq<(nat, Json)>) {
    && (forall k :: 0 <= k < |updates| ==>
          updates[k].0 < |vertices| && Target(schema, readers, vertices[updates[k].0]) == Some(updates[k].1))
    && (forall j :: 0 <= j < |vertices| && Target(schema, readers, vertices[j]).Some? ==>
          exists k :: 0 <= k < |updates| && updates[k].0 == j)
  }

  lemma ListsSnoc(schema: Schema, readers: Readers, vertices: seq<Json>, updates: seq<(nat, Json)>, i: nat)
    requires i < |vertices| && Lists(schema, readers, vertices[..i], updates)
    ensures var target := Target(schema, readers, vertices[i]);
            Lists(schema, readers, vertices[..i + 1], if target.None? then updates else updates + [(i, target.value)])
  {
    var target := Target(schema, readers, vertices[i]);
    var longer := if target.None? then updates else updates + [(i, target.value)];
    var taken := vertices[..i + 1];
    forall j | 0 <= j < |taken| && Target(schema, readers, taken[j]).Some?
      ensures exists k :: 0 <= k < |longer| && longer[k].0 == j
    {
      if j < i {
        assert vertices[..i][j] == vertices[j];
        var k :| 0 <= k < |updates| && updates[k].0 == j;
        assert longer[k].0 == j;
      } else {
        assert longer[|updates|].0 == j;
      }
    }
  }

  /** The first loop: aliases and updates. */
  method CollectAliases(schema: Schema, readers: Readers, vertices: seq<Json>)
    returns (aliases: Aliases, updates: seq<(nat, Json)>)
    ensures aliases == AliasesOf(schema, readers, vertices)
    ensures Lists(schema, readers, vertices, updates)
  {
    hide Lists, Target, Add;
    aliases, updates := map[], [];
    assert Lists(schema, readers, [], []) by { NothingListed(schema, readers); }
    assert vertices[..0] == [];
    for i := 0 to |vertices|
      invariant aliases == AliasesOf(schema, readers, vertices[..i])
      invariant Lists(schema, readers, vertices[..i], updates)
    {
      var item := vertices[i];
      assert vertices[..i + 1][..i] == vertices[..i];
      ListsSnoc(schema, readers, vertices, updates, i);
      var target := Target(schema, readers, item);
      if target.Some? {
        updates := updates + [(i, target.value)];
        var name := Get(item.fields, "label").s;
        aliases := Add(aliases, name, target.value, target.value);
        aliases := Add(aliases, name, Get(item.fields, "id"), target.value);
      }
    }
    assert vertices[..|vertices|] == vertices;
  }

  lemma NothingListed(schema: Schema, readers: Readers)
    ensures Lists(schema, readers, [], [])
  {
  }

  /** The second loop: new identifiers. */
  method RenameVertices(schema: Schema, readers: Readers, vertices: seq<Json>, updates: seq<(nat, Json)>)
    returns (renamed: seq<Json>)
    requires Lists(schema, readers, vertices, updates)
    ensures |renamed| == |vertices|
    ensures forall j :: 0 <= j < |vertices| ==> renamed[j] == NormalVertex(schema, readers, vertices[j])
  {
    hide Target;
    renamed := vertices;
    for k := 0 to |updates|
      invariant |renamed| == |vertices|
      invariant forall j ::
                  0 <= j < |vertices| ==>
                    renamed[j] == vertices[j] || renamed[j] == NormalVertex(schema, readers, vertices[j])
      invariant forall m ::
                  0 <= m < k ==> renamed[updates[m].0] == NormalVertex(schema, readers, vertices[updates[m].0])
    {
      var (j, target) := updates[k];
      renamed := renamed[j := Object(vertices[j].fields["id" := target])];
    }
  }

  /** `_normalize`. */
  method Normalize(schema: Schema, readers: Readers, graph: Graph) returns (issues: set<Issue>)
    modifies graph
    ensures graph.vertices == NormalVertices(schema, readers, old(graph.vertices))
    ensures graph.edges == NormalEdges(schema, readers, old(graph.vertices), old(graph.edges))
    ensures issues == AliasIssues(AliasesOf(schema, readers, old(graph.vertices)))
  {
    hide Lists, NormalVertex, NormalEndpoint, AliasesOf;
    var edges := graph.edges;
    var aliases, updates := CollectAliases(schema, readers, graph.vertices);
    issues := AliasIssues(aliases);
    if exists key | key in aliases :: |aliases[key]| > 1 {
      return;
    }
    var renamed := RenameVertices(schema, readers, graph.vertices, updates);
    var rewired: seq<Json> := [];
    for i := 0 to |edges|
      invariant |rewired| == i && forall k ::
                  0 <= k < i ==> rewired[k] == NormalEdge(schema, readers, aliases, edges[k])
    {
      var edge := edges[i];
      if edge.Object? {
        var half := RenameEndpoint(schema, readers, aliases, edge.fields, "outV", "outVLabel", "source");
        var whole := RenameEndpoint(schema, readers, aliases, half, "inV", "inVLabel", "target");
        edge := Object(whole);
      }
      rewired := rewired + [edge];
    }
    graph.vertices, graph.edges := renamed, rewired;
  }
}
