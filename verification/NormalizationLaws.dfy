/** What normalisation keeps: it is idempotent, and edges go on naming the vertices they named. */
module NormalizationLaws {
  import opened Wrappers
  import opened PropertySchema
  import opened GraphNormalization

  // ---------- What the aliases mean ----------

  /** The vertex is named `id` under its label, and is given the identifier `target`. */
  ghost predicate Names(schema: Schema, readers: Readers, item: Json, name: string, id: Json, target: Json) {
    && Target(schema, readers, item) == Some(target) && Get(item.fields, "label").s == name
    && ValidId(id) && (id == target || id == Get(item.fields, "id"))
  }

  ghost predicate StandsFor(aliases: Aliases, name: string, id: Json, target: Json) {
    (name, id) in aliases && target in aliases[(name, id)]
  }

  lemma AddMeaning(aliases: Aliases, key: string, alias: Json, added: Json, name: string, id: Json, target: Json)
    ensures StandsFor(Add(aliases, key, alias, added), name, id, target)
            <==> StandsFor(aliases, name, id, target)
                 || (ValidId(alias) && key == name && alias == id && added == target)
  {
  }

  lemma AliasStep(schema: Schema, readers: Readers, vertices: seq<Json>, name: string, id: Json, target: Json)
    requires vertices != []
    ensures var last := |vertices| - 1;
            StandsFor(AliasesOf(schema, readers, vertices), name, id, target)
            <==> StandsFor(AliasesOf(schema, readers, vertices[..last]), name, id, target)
                 || Names(schema, readers, vertices[last], name, id, target)
  {
    hide StandsFor, Add, Target;
    var item := vertices[|vertices| - 1];
    var given := Target(schema, readers, item);
    if given.Some? {
      var earlier := AliasesOf(schema, readers, vertices[..|vertices| - 1]);
      var key, alias := Get(item.fields, "label").s, Get(item.fields, "id");
      AddMeaning(earlier, key, given.value, given.value, name, id, target);
      AddMeaning(Add(earlier, key, given.value, given.value), key, alias, given.value, name, id, target);
    }
  }

  lemma {:induction false} AliasMeaning(schema: Schema, readers: Readers, vertices: seq<Json>, name: string, id: Json,
                                        target: Json)
    ensures StandsFor(AliasesOf(schema, readers, vertices), name, id, target)
            <==> exists i :: 0 <= i < |vertices| && Names(schema, readers, vertices[i], name, id, target)
  {
    hide Names;
    if vertices != [] {
      var last := |vertices| - 1;
      AliasMeaning(schema, readers, vertices[..last], name, id, target);
      AliasStep(schema, readers, vertices, name, id, target);
      assert forall i :: 0 <= i < last ==> vertices[..last][i] == vertices[i];
      if i :| 0 <= i < |vertices| && Names(schema, readers, vertices[i], name, id, target) {
        if i < last {
          assert Names(schema, readers, vertices[..last][i], name, id, target);
        }
      }
    }
  }

  lemma {:induction false} AliasesStandForSomething(schema: Schema, readers: Readers, vertices: seq<Json>,
                                                    key: (string, Json))
    requires key in AliasesOf(schema, readers, vertices)
    ensures AliasesOf(schema, readers, vertices)[key] != {} && ValidId(key.1)
  {
    hide Target;
    if vertices != [] {
      var earlier := AliasesOf(schema, readers, vertices[..|vertices| - 1]);
      if key in earlier {
        AliasesStandForSomething(schema, readers, vertices[..|vertices| - 1], key);
      }
    }
  }

  // ---------- References ----------

  /** Without ambiguity, an alias stands for one identifier. */
  lemma SoleMeaning(aliases: Aliases, name: string, id: Json, target: Json)
    requires !Ambiguous(aliases) && StandsFor(aliases, name, id, target)
    ensures SoleTarget(aliases[(name, id)]) == target
  {
    assert |aliases[(name, id)]| <= 1;
    OnlyMember(aliases[(name, id)], target);
  }

  /** Whichever way an edge names an endpoint that a vertex answers to, it ends up with that
      vertex's new identifier and label. */
  lemma EndpointFollows(schema: Schema, readers: Readers, vertices: seq<Json>, i: nat, edge: map<string, Json>,
                        endpoint: string, labelKey: string, legacyKey: string)
    requires i < |vertices| && !Ambiguous(AliasesOf(schema, readers, vertices)) && endpoint != labelKey
    requires Target(schema, readers, vertices[i]).Some?
    requires var (name, id) := Named(schema, readers, edge, endpoint, labelKey, legacyKey);
             && name == Get(vertices[i].fields, "label") && ValidId(id)
             && (id == Get(vertices[i].fields, "id") || Some(id) == Target(schema, readers, vertices[i]))
    ensures var renamed := NormalEndpoint(schema, readers, AliasesOf(schema, readers, vertices), edge, endpoint,
                                          labelKey, legacyKey);
            var vertex := NormalVertex(schema, readers, vertices[i]);
            && Get(renamed, endpoint) == Get(vertex.fields, "id")
            && Get(renamed, labelKey) == Get(vertex.fields, "label")
  {
    hide Target, Named, AliasesOf;
    var (name, id) := Named(schema, readers, edge, endpoint, labelKey, legacyKey);
    var target := Target(schema, readers, vertices[i]).value;
    assert Names(schema, readers, vertices[i], name.s, id, target);
    AliasMeaning(schema, readers, vertices, name.s, id, target);
    SoleMeaning(AliasesOf(schema, readers, vertices), name.s, id, target);
  }

  /** Both endpoints of an edge follow the vertices they named. */
  lemma ReferencesKept(schema: Schema, readers: Readers, vertices: seq<Json>, edges: seq<Json>, i: nat, e: nat)
    requires i < |vertices| && e < |edges| && !Ambiguous(AliasesOf(schema, readers, vertices))
    requires Target(schema, readers, vertices[i]).Some? && edges[e].Object?
    ensures var vertex := NormalVertices(schema, readers, vertices)[i];
            var edge, normal := edges[e].fields, NormalEdges(schema, readers, vertices, edges)[e];
            && vertex.Object? && normal.Object?
            && (NamesVertex(edge, "outV", "outVLabel", vertices[i]) ==>
                  NamesVertex(normal.fields, "outV", "outVLabel", vertex))
            && (NamesVertex(edge, "inV", "inVLabel", vertices[i]) ==>
                  NamesVertex(normal.fields, "inV", "inVLabel", vertex))
  {
    hide Target, AliasesOf, NormalVertex, NormalEndpoint;
    var aliases := AliasesOf(schema, readers, vertices);
    var edge := edges[e].fields;
    var half := NormalEndpoint(schema, readers, aliases, edge, "outV", "outVLabel", "source");
    NormalVertexKeepsLabel(schema, readers, vertices[i]);
    EndpointFrame(schema, readers, aliases, edge, "outV", "outVLabel", "source");
    EndpointFrame(schema, readers, aliases, half, "inV", "inVLabel", "target");
    if NamesVertex(edge, "outV", "outVLabel", vertices[i]) {
      EndpointFollows(schema, readers, vertices, i, edge, "outV", "outVLabel", "source");
    }
    if NamesVertex(edge, "inV", "inVLabel", vertices[i]) {
      EndpointFollows(schema, readers, vertices, i, half, "inV", "inVLabel", "target");
    }
  }

  /** The edge names the vertex by label and identifier. */
  ghost predicate NamesVertex(edge: map<string, Json>, endpoint: string, labelKey: string, vertex: Json) {
    && vertex.Object? && ValidId(Get(edge, endpoint))
    && Get(edge, labelKey) == Get(vertex.fields, "label") && Get(edge, endpoint) == Get(vertex.fields, "id")
  }

  lemma NormalVertexKeepsLabel(schema: Schema, readers: Readers, item: Json)
    requires Target(schema, readers, item).Some?
    ensures NormalVertex(schema, readers, item).Object?
    ensures var fields := NormalVertex(schema, readers, item).fields;
            && Get(fields, "id") == Target(schema, readers, item).value && ValidId(Get(fields, "id"))
            && forall key :: key != "id" ==> Get(fields, key) == Get(item.fields, key)
  {
  }

  lemma EndpointFrame(schema: Schema, readers: Readers, aliases: Aliases, edge: map<string, Json>,
                      endpoint: string, labelKey: string, legacyKey: string)
    ensures var renamed := NormalEndpoint(schema, readers, aliases, edge, endpoint, labelKey, legacyKey);
            forall key :: key != endpoint && key != labelKey ==> Get(renamed, key) == Get(edge, key)
  {
  }

  // ---------- Idempotence ----------

  lemma TargetStable(schema: Schema, readers: Readers, item: Json)
    ensures Target(schema, readers, NormalVertex(schema, readers, item)) == Target(schema, readers, item)
    ensures NormalVertex(schema, readers, NormalVertex(schema, readers, item)) == NormalVertex(schema, readers, item)
  {
  }

  /** After normalisation every alias stands for itself, and stood for itself before. */
  lemma NormalAliases(schema: Schema, readers: Readers, vertices: seq<Json>, name: string, id: Json, target: Json)
    requires !Ambiguous(AliasesOf(schema, readers, vertices))
    requires StandsFor(AliasesOf(schema, readers, NormalVertices(schema, readers, vertices)), name, id, target)
    ensures id == target && StandsFor(AliasesOf(schema, readers, vertices), name, target, target)
  {
    hide Target, AliasesOf, NormalVertex;
    var normal := NormalVertices(schema, readers, vertices);
    AliasMeaning(schema, readers, normal, name, id, target);
    var i :| 0 <= i < |normal| && Names(schema, readers, normal[i], name, id, target);
    TargetStable(schema, readers, vertices[i]);
    NormalVertexKeepsLabel(schema, readers, vertices[i]);
    assert Names(schema, readers, vertices[i], name, target, target);
    AliasMeaning(schema, readers, vertices, name, target, target);
  }

  lemma NormalUnambiguous(schema: Schema, readers: Readers, vertices: seq<Json>)
    requires !Ambiguous(AliasesOf(schema, readers, vertices))
    ensures !Ambiguous(AliasesOf(schema, readers, NormalVertices(schema, readers, vertices)))
  {
    hide AliasesOf, NormalVertices;
    var aliases := AliasesOf(schema, readers, NormalVertices(schema, readers, vertices));
    forall key | key in aliases
      ensures |aliases[key]| <= 1
    {
      forall target | target in aliases[key]
        ensures target == key.1
      {
        NormalAliases(schema, readers, vertices, key.0, key.1, target);
      }
      AtMostOne(aliases[key], key.1);
    }
  }

  lemma AtMostOne(targets: set<Json>, only: Json)
    requires forall target :: target in targets ==> target == only
    ensures |targets| <= 1
  {
    if only in targets {
      assert targets == {only};
    } else {
      assert targets == {};
    }
  }

  /** A rewritten endpoint is left alone by a second rewriting, whatever was done elsewhere. */
  lemma EndpointStable(schema: Schema, readers: Readers, vertices: seq<Json>, edge: map<string, Json>,
                       later: map<string, Json>,
                       endpoint: string, labelKey: string, legacyKey: string)
    requires !Ambiguous(AliasesOf(schema, readers, vertices))
    requires endpoint != labelKey && endpoint != legacyKey && labelKey != legacyKey
    requires var renamed := NormalEndpoint(schema, readers, AliasesOf(schema, readers, vertices), edge, endpoint,
                                           labelKey, legacyKey);
             && Get(later, endpoint) == Get(renamed, endpoint) && Get(later, labelKey) == Get(renamed, labelKey)
             && Get(later, legacyKey) == Get(renamed, legacyKey)
    ensures NormalEndpoint(schema, readers, AliasesOf(schema, readers, NormalVertices(schema, readers, vertices)),
                           later,
                           endpoint, labelKey, legacyKey) == later
  {
    hide AliasesOf, NormalVertices, Lookup;
    var aliases := AliasesOf(schema, readers, vertices);
    var again := AliasesOf(schema, readers, NormalVertices(schema, readers, vertices));
    var (name, id) := Named(schema, readers, edge, endpoint, labelKey, legacyKey);
    if name.Str? && ValidId(id) && (name.s, id) in aliases {
      AliasesStandForSomething(schema, readers, vertices, (name.s, id));
      var target := SoleTarget(aliases[(name.s, id)]);
      TargetsValid(schema, readers, vertices, name.s, id, target);
      assert Named(schema, readers, later, endpoint, labelKey, legacyKey) == (name, target);
      if (name.s, target) in again && again[(name.s, target)] != {} {
        NormalAliases(schema, readers, vertices, name.s, target, SoleTarget(again[(name.s, target)]));
        assert later[endpoint := target][labelKey := name] == later;
      }
    } else {
      assert Named(schema, readers, later, endpoint, labelKey, legacyKey) == (name, id);
      if name.Str? && ValidId(id) && (name.s, id) in again && again[(name.s, id)] != {} {
        NormalAliases(schema, readers, vertices, name.s, id, SoleTarget(again[(name.s, id)]));
        assert false;
      }
    }
  }

  lemma TargetsValid(schema: Schema, readers: Readers, vertices: seq<Json>, name: string, id: Json, target: Json)
    requires StandsFor(AliasesOf(schema, readers, vertices), name, id, target)
    ensures ValidId(target)
  {
    hide AliasesOf;
    AliasMeaning(schema, readers, vertices, name, id, target);
  }

  lemma EdgeStable(schema: Schema, readers: Readers, vertices: seq<Json>, edge: Json)
    requires !Ambiguous(AliasesOf(schema, readers, vertices))
    ensures var normal := NormalEdge(schema, readers, AliasesOf(schema, readers, vertices), edge);
            NormalEdge(schema, readers, AliasesOf(schema, readers, NormalVertices(schema, readers, vertices)), normal)
            == normal
  {
    hide AliasesOf, NormalVertices, NormalEndpoint;
    if edge.Object? {
      var aliases := AliasesOf(schema, readers, vertices);
      var half := NormalEndpoint(schema, readers, aliases, edge.fields, "outV", "outVLabel", "source");
      var whole := NormalEndpoint(schema, readers, aliases, half, "inV", "inVLabel", "target");
      EndpointFrame(schema, readers, aliases, half, "inV", "inVLabel", "target");
      EndpointStable(schema, readers, vertices, edge.fields, whole, "outV", "outVLabel", "source");
      EndpointStable(schema, readers, vertices, half, whole, "inV", "inVLabel", "target");
    }
  }

  /** Normalising a second time changes nothing and reports the same issues; an ambiguous graph
      is left as it was. */
  lemma NormalizeTwice(schema: Schema, readers: Readers, vertices: seq<Json>, edges: seq<Json>)
    ensures var normal, rewired := NormalVertices(schema, readers, vertices),
                                   NormalEdges(schema, readers, vertices, edges);
            && NormalVertices(schema, readers, normal) == normal
            && NormalEdges(schema, readers, normal, rewired) == rewired
            && AliasIssues(AliasesOf(schema, readers, normal)) == AliasIssues(AliasesOf(schema, readers, vertices))
            && (Ambiguous(AliasesOf(schema, readers, vertices)) ==> normal == vertices && rewired == edges)
  {
    hide AliasesOf, NormalVertex, NormalEdge;
    if !Ambiguous(AliasesOf(schema, readers, vertices)) {
      NormalUnambiguous(schema, readers, vertices);
      var normal, rewired := NormalVertices(schema, readers, vertices), NormalEdges(schema, readers, vertices, edges);
      forall i | 0 <= i < |vertices|
        ensures NormalVertex(schema, readers, normal[i]) == normal[i]
      {
        TargetStable(schema, readers, vertices[i]);
      }
      forall i | 0 <= i < |edges|
        ensures NormalEdge(schema, readers, AliasesOf(schema, readers, normal), rewired[i]) == rewired[i]
      {
        EdgeStable(schema, readers, vertices, edges[i]);
      }
    }
  }

  // ---------- Identifiers ----------

  /** The vertex has a known label and properties. */
  predicate IsKnown(schema: Schema, item: Json) {
    && item.Object? && Get(item.fields, "properties").Object?
    && Lookup(schema.vertexLabels, Get(item.fields, "label")).Some?
  }

  /** The identifier its primary keys make, if its label has any and the vertex gives them all. */
  function KeyId(schema: Schema, readers: Readers, item: Json): Option<Json>
    requires IsKnown(schema, item)
  {
    readers.primaryKeyId(Lookup(schema.vertexLabels, Get(item.fields, "label")).value,
                         Get(item.fields, "properties").fields)
  }

  /** In an unambiguous graph every known vertex leaves normalisation with the identifier that its
      primary keys make, whatever identifier it came with; all others keep theirs, and no other
      entry of a vertex changes. */
  lemma IdsFromPrimaryKeys(schema: Schema, readers: Readers, vertices: seq<Json>, i: nat)
    requires i < |vertices| && !Ambiguous(AliasesOf(schema, readers, vertices))
    ensures var item, normal := vertices[i], NormalVertices(schema, readers, vertices)[i];
            if IsKnown(schema, item) && KeyId(schema, readers, item).Some?
               && ValidId(KeyId(schema, readers, item).value)
            then normal == Object(item.fields["id" := KeyId(schema, readers, item).value])
            else normal == item
  {
  }
}
