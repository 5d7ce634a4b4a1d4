/** When date keys are proof against every time zone, exactly: a date key without a declared
    cardinality, or with LIST or SET, may hold a list of dates, and validation compares lists by
    their text only. */
module ListDates {
  import opened Wrappers
  import opened PropertySchema
  import opened GraphNormalization
  import opened NormalizationLaws
  import opened GraphValidation
  import opened GraphLaws
  import opened DateKeys

  // ---------- The promise ----------

  /** Two vertices of one label that have all their primary keys. */
  predicate Rivals(schema: Schema, item: Json, other: Json) {
    KeysOf(schema, item).Some? && KeysOf(schema, other).Some? && LabelOf(item) == LabelOf(other)
  }

  /** At every offset under a day the composite keys of any two vertices of a label differ. */
  ghost predicate KeysDiffer(schema: Schema, readers: Readers, vertices: seq<Json>) {
    forall i: nat, j: nat, offset: int ::
      i < |vertices| && j < |vertices| && i != j && Rivals(schema, vertices[i], vertices[j])
      && -MILLISECONDS_PER_DAY < offset < MILLISECONDS_PER_DAY ==>
        ServerKey(schema, readers, offset, vertices[i]) != ServerKey(schema, readers, offset, vertices[j])
  }

  /** Every normal graph without issues keeps the promise. */
  ghost predicate AlwaysTimezoneProof(schema: Schema, readers: Readers) {
    forall vertices, edges :: Issues(schema, readers, vertices, edges) == {} ==> KeysDiffer(schema, readers, vertices)
  }

  /** Every graph that `validate` leaves without reporting an issue keeps the promise. */
  ghost predicate ValidationTimezoneProof(schema: Schema, readers: Readers) {
    forall vertices, edges ::
      Report(schema, readers, vertices, edges).2 == {} ==>
        KeysDiffer(schema, readers, Report(schema, readers, vertices, edges).0)
  }

  // ---------- The condition ----------

  predicate HoldsListDate(schema: Schema, item: Json) {
    && KeysOf(schema, item).Some?
    && exists key | key in KeysOf(schema, item).value.0 ::
         IsDate(schema, key) && Get(KeysOf(schema, item).value.1, key).List?
  }

  /** No vertex in order holds a list under a date among its primary keys. */
  ghost predicate NoListDates(schema: Schema, readers: Readers) {
    forall item :: VertexFine(schema, readers, item) ==> !HoldsListDate(schema, item)
  }

  predicate AdmitsLists(schema: Schema, key: string) {
    var cardinality := KeyOf(schema, key).cardinality;
    cardinality == None || cardinality == Some("LIST") || cardinality == Some("SET")
  }

  /** A date key of the vertex is declared so that it may hold a list. */
  predicate HasListKey(schema: Schema, item: Json) {
    && KeysOf(schema, item).Some?
    && exists key | key in KeysOf(schema, item).value.0 :: IsDate(schema, key) && AdmitsLists(schema, key)
  }

  // ---------- The promise is kept ----------

  lemma NoListsKeepsPromise(schema: Schema, readers: Readers, vertices: seq<Json>, edges: seq<Json>)
    requires NoListDates(schema, readers) && Issues(schema, readers, vertices, edges) == {}
    ensures KeysDiffer(schema, readers, vertices)
  {
    hide VertexFine, EdgeFine, KeysOf, ServerKey, Issues, IdentityOf, PrimaryTuple, SameDates, IsDate;
    NoIssuesExactly(schema, readers, vertices, edges);
    forall i: nat, j: nat, offset: int | i < |vertices| && j < |vertices| && i != j
    && Rivals(schema, vertices[i], vertices[j])
                                         && -MILLISECONDS_PER_DAY < offset < MILLISECONDS_PER_DAY
      ensures ServerKey(schema, readers, offset, vertices[i]) != ServerKey(schema, readers, offset, vertices[j])
    {
      assert VertexFine(schema, readers, vertices[i]);
      DateKeysAreTimezoneProof(schema, readers, vertices, edges, i, j, offset);
    }
  }

  // ---------- Replacing a date by a list ----------

  function WithDate(item: Json, key: string, date: Json, id: string): Json
    requires item.Object? && Get(item.fields, "properties").Object?
  {
    var properties := Get(item.fields, "properties").fields[key := List([date])];
    Object(item.fields["properties" := Object(properties)]["id" := Str(id)])
  }

  lemma ListAdmitted(schema: Schema, readers: Readers, definition: Definition, key: string, items: seq<Json>)
    requires IsDate(schema, key) && ValueFine(schema, readers, definition, key, List(items))
    ensures AdmitsLists(schema, key)
  {
    var cardinality := KeyOf(schema, key).cardinality;
    assert !ValidScalar(readers, List(items), "DATE");
    assert List(items) in [List(items)];
    assert Elements(cardinality, List(items)) != [List(items)];
  }

  lemma OneDateFine(schema: Schema, readers: Readers, definition: Definition, key: string, given: Json, date: Json)
    requires IsDate(schema, key) && AdmitsLists(schema, key) && ValueFine(schema, readers, definition, key, given)
    requires DateIdentity(readers, date).Some?
    ensures ValueFine(schema, readers, definition, key, List([date]))
  {
    hide DateIdentity;
    assert Elements(KeyOf(schema, key).cardinality, List([date])) == [date];
  }

  lemma ReplacedKeys(schema: Schema, item: Json, key: string, date: Json, id: string)
    requires KeysOf(schema, item).Some? && key in KeysOf(schema, item).value.0
    ensures item.Object? && Get(item.fields, "properties").Object?
    ensures var (keys, properties) := KeysOf(schema, item).value;
            && KeysOf(schema, WithDate(item, key, date, id)) == Some((keys, properties[key := List([date])]))
            && LabelOf(WithDate(item, key, date, id)) == LabelOf(item)
  {
    var (keys, properties) := KeysOf(schema, item).value;
    var replaced := WithDate(item, key, date, id).fields;
    assert Get(replaced, "label") == Get(item.fields, "label");
    assert forall k :: k in keys ==> !Blank(Get(properties[key := List([date])], k));
  }

  lemma ReplacedEntry(schema: Schema, readers: Readers, item: Json, key: string, date: Json, id: string)
    requires EntryFine(schema, readers, Vertex, item) && KeysOf(schema, item).Some?
    requires key in KeysOf(schema, item).value.0 && IsDate(schema, key) && AdmitsLists(schema, key)
    requires DateIdentity(readers, date).Some?
    ensures EntryFine(schema, readers, Vertex, WithDate(item, key, date, id))
  {
    hide ValueFine, Required, DateIdentity, AdmitsLists, IsDate;
    var definition, properties := DefinitionOf(schema, Vertex, item.fields).value,
                                  Get(item.fields, "properties").fields;
    var replaced := WithDate(item, key, date, id).fields;
    assert Get(replaced, "label") == Get(item.fields, "label");
    assert !Blank(Get(properties, key)) && key in properties;
    OneDateFine(schema, readers, definition, key, properties[key], date);
    assert forall k :: k in Required(definition) ==> !Blank(Get(properties[key := List([date])], k));
  }

  /** A label with primary keys has a strategy under which every non-empty string is an identity. */
  lemma KeyedStrategy(schema: Schema, item: Json)
    requires KeysOf(schema, item).Some?
    ensures Strategy(schema, item.fields) != Some("CUSTOMIZE_STRING")
            && Strategy(schema, item.fields) != Some("CUSTOMIZE_NUMBER")
    ensures Strategy(schema, item.fields) != Some("CUSTOMIZE_UUID")
  {
    assert |Upper("CUSTOMIZE_STRING")| != |"PRIMARY_KEY"| && |Upper("CUSTOMIZE_NUMBER")| != |"PRIMARY_KEY"|;
    assert |Upper("CUSTOMIZE_UUID")| != |"PRIMARY_KEY"|;
  }

  lemma ReplacedIdentity(schema: Schema, readers: Readers, item: Json, key: string, date: Json, id: string)
    requires KeysOf(schema, item).Some? && key in KeysOf(schema, item).value.0 && id != ""
    ensures item.Object? && Get(item.fields, "properties").Object?
    ensures IdentityOf(schema, readers, WithDate(item, key, date, id)) == Some(StringId(Str(id)))
    ensures IdFits(readers, Str(id), Strategy(schema, WithDate(item, key, date, id).fields))
  {
    hide KeysOf, ValidScalar;
    ReplacedKeys(schema, item, key, date, id);
    KeyedStrategy(schema, WithDate(item, key, date, id));
  }

  lemma ListIsPlain(schema: Schema, readers: Readers, key: string, items: seq<Json>)
    requires IsDate(schema, key)
    ensures PrimaryIdentity(schema, readers, key, List(items)) == TextKey(Some("DATE"), readers.dump(List(items)))
  {
  }

  lemma ReplacedDates(schema: Schema, readers: Readers, item: Json, key: string, date: Json, id: string)
    requires KeysOf(schema, item).Some? && key in KeysOf(schema, item).value.0 && IsDate(schema, key)
    ensures item.Object? && Get(item.fields, "properties").Object?
    ensures Dates(schema, readers, WithDate(item, key, date, id)) == None
  {
    hide KeysOf, PrimaryIdentity, Sorted, WithDate, IsDate;
    ReplacedKeys(schema, item, key, date, id);
    var (keys, properties) := KeysOf(schema, item).value;
    var after := properties[key := List([date])];
    var dated := Sorted(schema, keys, true);
    SortedKeys(schema, keys, true);
    var m :| 0 <= m < |dated| && dated[m] == key;
    ListIsPlain(schema, readers, key, [date]);
    var identities := Identities(schema, readers, dated, after);
    assert identities[m] == TextKey(Some("DATE"), readers.dump(List([date])));
    assert identities[m] in identities && !identities[m].DateKey?;
  }

  /** The replaced vertex is in order, and its dates take no part in the ambiguity rule. */
  lemma Replaced(schema: Schema, readers: Readers, item: Json, key: string, date: Json, id: string)
    requires VertexFine(schema, readers, item) && KeysOf(schema, item).Some?
    requires key in KeysOf(schema, item).value.0 && IsDate(schema, key) && AdmitsLists(schema, key)
    requires DateIdentity(readers, date).Some? && id != ""
    ensures item.Object? && Get(item.fields, "properties").Object?
    ensures var replaced := WithDate(item, key, date, id);
            && VertexFine(schema, readers, replaced) && IdentityOf(schema, readers, replaced) == Some(StringId(Str(id)))
            && Dates(schema, readers, replaced) == None
  {
    hide EntryFine, KeysOf, DateIdentity, IdentityOf, Dates, IdFits, Strategy, IsDate, AdmitsLists;
    ReplacedEntry(schema, readers, item, key, date, id);
    ReplacedIdentity(schema, readers, item, key, date, id);
    ReplacedDates(schema, readers, item, key, date, id);
  }

  // ---------- Two lists of the same date ----------

  /** The text reads as the epoch, and JSON text tells a list of it from a list of the number 0. */
  ghost predicate ReadsAsEpoch(readers: Readers, text: string) {
    readers.date(text) == Some(0) && readers.dump(List([Int(0)])) != readers.dump(List([Str(text)]))
  }

  lemma EpochDates(readers: Readers, text: string)
    requires ReadsAsEpoch(readers, text)
    ensures DateIdentity(readers, Int(0)) == Some((Epoch, 0)) && DateIdentity(readers, Str(text)) == Some((Wall, 0))
  {
  }

  lemma TuplesDiffer(schema: Schema, readers: Readers, item: Json, key: string, text: string, a: string, b: string)
    requires KeysOf(schema, item).Some? && key in KeysOf(schema, item).value.0 && IsDate(schema, key)
    requires ReadsAsEpoch(readers, text)
    ensures item.Object? && Get(item.fields, "properties").Object?
    ensures PrimaryTuple(schema, readers, WithDate(item, key, Int(0), a))
            != PrimaryTuple(schema, readers, WithDate(item, key, Str(text), b))
  {
    hide KeysOf, PrimaryIdentity, WithDate, IsDate;
    ReplacedKeys(schema, item, key, Int(0), a);
    ReplacedKeys(schema, item, key, Str(text), b);
    var (keys, properties) := KeysOf(schema, item).value;
    var k :| 0 <= k < |keys| && keys[k] == key;
    ListIsPlain(schema, readers, key, [Int(0)]);
    ListIsPlain(schema, readers, key, [Str(text)]);
    assert Identities(schema, readers, keys, properties[key := List([Int(0)])])[k]
           != Identities(schema, readers, keys, properties[key := List([Str(text)])])[k];
  }

  lemma ListsReadAlike(schema: Schema, readers: Readers, key: string, text: string)
    requires IsDate(schema, key) && ReadsAsEpoch(readers, text)
    ensures Read(schema, readers, 0, key, List([Int(0)])) == Read(schema, readers, 0, key, List([Str(text)]))
  {
    EpochDates(readers, text);
    assert Read(schema, readers, 0, key, Int(0)) == One(DateKey(Epoch, 0));
    assert Read(schema, readers, 0, key, Str(text)) == One(DateKey(Epoch, 0));
  }

  lemma KeysReadAlike(schema: Schema, readers: Readers, item: Json, key: string, text: string, a: string, b: string)
    requires KeysOf(schema, item).Some? && key in KeysOf(schema, item).value.0 && IsDate(schema, key)
    requires ReadsAsEpoch(readers, text)
    ensures item.Object? && Get(item.fields, "properties").Object?
    ensures Rivals(schema, WithDate(item, key, Int(0), a), WithDate(item, key, Str(text), b))
    ensures ServerKey(schema, readers, 0, WithDate(item, key, Int(0), a))
            == ServerKey(schema, readers, 0, WithDate(item, key, Str(text), b))
  {
    hide KeysOf, Read, WithDate, IsDate;
    ReplacedKeys(schema, item, key, Int(0), a);
    ReplacedKeys(schema, item, key, Str(text), b);
    ListsReadAlike(schema, readers, key, text);
  }

  /** The two vertices make a graph without issues whose keys a server in UTC cannot tell apart. */
  lemma CollidingPair(schema: Schema, readers: Readers, item: Json, key: string, text: string, a: string, b: string)
    requires VertexFine(schema, readers, item) && KeysOf(schema, item).Some?
    requires key in KeysOf(schema, item).value.0 && IsDate(schema, key) && AdmitsLists(schema, key)
    requires ReadsAsEpoch(readers, text) && a != "" && b != "" && a != b
    ensures item.Object? && Get(item.fields, "properties").Object?
    ensures var vertices := [WithDate(item, key, Int(0), a), WithDate(item, key, Str(text), b)];
            Issues(schema, readers, vertices, []) == {} && !KeysDiffer(schema, readers, vertices)
  {
    hide VertexFine, KeysOf, IdentityOf, PrimaryTuple, Dates, Group, DateIdentity, Issues, WithDate, ServerKey, IsDate,
         AdmitsLists;
    EpochDates(readers, text);
    Replaced(schema, readers, item, key, Int(0), a);
    Replaced(schema, readers, item, key, Str(text), b);
    TuplesDiffer(schema, readers, item, key, text, a, b);
    var vertices := [WithDate(item, key, Int(0), a), WithDate(item, key, Str(text), b)];
    NoIssuesExactly(schema, readers, vertices, []);
    KeysReadAlike(schema, readers, item, key, text, a, b);
    assert Rivals(schema, vertices[0], vertices[1])
           && ServerKey(schema, readers, 0, vertices[0]) == ServerKey(schema, readers, 0, vertices[1]);
  }

  // ---------- Exactly when ----------

  /** A vertex in order holds a list date, or could: it is only a question of the cardinality. */
  lemma ListKeyOfHolder(schema: Schema, readers: Readers, item: Json)
    requires VertexFine(schema, readers, item) && HoldsListDate(schema, item)
    ensures HasListKey(schema, item)
  {
    hide Required, ValueFine, AdmitsLists, IsDate;
    var (keys, properties) := KeysOf(schema, item).value;
    var key :| key in keys && IsDate(schema, key) && Get(properties, key).List?;
    ListAdmitted(schema, readers, DefinitionOf(schema, Vertex, item.fields).value, key, properties[key].items);
  }

  /** No vertex in order holds a list date exactly when none has a date key that admits lists. */
  lemma NoListDatesExactly(schema: Schema, readers: Readers)
    ensures NoListDates(schema, readers)
            <==> forall item :: VertexFine(schema, readers, item) ==> !HasListKey(schema, item)
  {
    hide VertexFine, KeysOf, IsDate, AdmitsLists;
    forall item | VertexFine(schema, readers, item)
      ensures HoldsListDate(schema, item) ==> HasListKey(schema, item)
      ensures HasListKey(schema, item) ==> !NoListDates(schema, readers)
    {
      if HoldsListDate(schema, item) {
        ListKeyOfHolder(schema, readers, item);
      }
      if HasListKey(schema, item) {
        CouldHoldList(schema, readers, item);
      }
    }
  }

  lemma CouldHoldList(schema: Schema, readers: Readers, item: Json)
    requires VertexFine(schema, readers, item) && HasListKey(schema, item)
    ensures !NoListDates(schema, readers)
  {
    hide VertexFine, KeysOf, IsDate, AdmitsLists, DateIdentity, WithDate;
    var key :| key in KeysOf(schema, item).value.0 && IsDate(schema, key) && AdmitsLists(schema, key);
    ZeroIsADate(readers);
    Replaced(schema, readers, item, key, Int(0), "a");
    ReplacedKeys(schema, item, key, Int(0), "a");
    assert HoldsListDate(schema, WithDate(item, key, Int(0), "a"));
  }

  lemma ZeroIsADate(readers: Readers)
    ensures DateIdentity(readers, Int(0)).Some?
  {
  }

  /** Date keys are proof against time zones in every graph without issues exactly when no vertex
      in order holds a list under a date among its primary keys. */
  lemma TimezoneProofExactly(schema: Schema, readers: Readers, text: string)
    requires ReadsAsEpoch(readers, text)
    ensures AlwaysTimezoneProof(schema, readers) <==> NoListDates(schema, readers)
  {
    hide VertexFine, KeysOf, IsDate, AdmitsLists, KeysDiffer, Issues, WithDate;
    if NoListDates(schema, readers) {
      forall vertices, edges | Issues(schema, readers, vertices, edges) == {}
        ensures KeysDiffer(schema, readers, vertices)
      {
        NoListsKeepsPromise(schema, readers, vertices, edges);
      }
    } else {
      var item, key := ListHolder(schema, readers);
      CollidingPair(schema, readers, item, key, text, "a", "b");
    }
  }

  lemma ListHolder(schema: Schema, readers: Readers) returns (item: Json, key: string)
    requires !NoListDates(schema, readers)
    ensures VertexFine(schema, readers, item) && KeysOf(schema, item).Some?
    ensures key in KeysOf(schema, item).value.0 && IsDate(schema, key) && AdmitsLists(schema, key)
  {
    hide VertexFine, KeysOf, IsDate, AdmitsLists;
    item :| VertexFine(schema, readers, item) && HoldsListDate(schema, item);
    ListKeyOfHolder(schema, readers, item);
    key :| key in KeysOf(schema, item).value.0 && IsDate(schema, key) && AdmitsLists(schema, key);
  }

  // ---------- The same for what validation returns ----------

  /** The identifier made of primary keys is missing for both lists, or tells them apart. */
  ghost predicate IdsTellApart(readers: Readers, text: string) {
    forall definition, properties, key ::
      key in PrimaryKeys(definition) ==> ListIdsApart(readers, text, definition, properties, key)
  }

  ghost predicate ListIdsApart(readers: Readers, text: string, definition: Definition, properties: map<string, Json>,
                               key: string) {
    IdsApart(readers.primaryKeyId(definition, properties[key := List([Int(0)])]),
             readers.primaryKeyId(definition, properties[key := List([Str(text)])]))
  }

  predicate IdsApart(first: Option<Json>, second: Option<Json>) {
    match (first, second)
    case (None, None) => true
    case (Some(Str(a)), Some(Str(b))) => a != "" && b != "" && a != b
    case _ => false
  }

  function IdOr(id: Option<Json>, fallback: string): string {
    if id.Some? && id.value.Str? then id.value.s else fallback
  }

  /** A graph whose vertices carry their targets already is left as it is. */
  lemma AlreadyNormal(schema: Schema, readers: Readers, vertices: seq<Json>)
    requires forall i :: 0 <= i < |vertices| ==>
               Target(schema, readers, vertices[i]).Some?
               && Some(Get(vertices[i].fields, "id")) == Target(schema, readers, vertices[i])
               && "id" in vertices[i].fields
    ensures NormalVertices(schema, readers, vertices) == vertices && NormalEdges(schema, readers, vertices, []) == []
    ensures AliasIssues(AliasesOf(schema, readers, vertices)) == {}
  {
    hide Target, AliasesOf;
    var aliases := AliasesOf(schema, readers, vertices);
    forall key | key in aliases
      ensures |aliases[key]| <= 1
    {
      forall target | target in aliases[key]
        ensures target == key.1
      {
        AliasMeaning(schema, readers, vertices, key.0, key.1, target);
        assert StandsFor(aliases, key.0, key.1, target);
      }
      AtMostOne(aliases[key], key.1);
    }
    forall i | 0 <= i < |vertices|
      ensures NormalVertex(schema, readers, vertices[i]) == vertices[i]
    {
      var id := Get(vertices[i].fields, "id");
      assert vertices[i].fields["id" := id] == vertices[i].fields;
    }
  }

  /** A replaced vertex that carries the identifier of its primary keys, if there is one. */
  lemma ReplacedTarget(schema: Schema, readers: Readers, item: Json, key: string, date: Json, id: string,
                       fallback: string)
    requires KeysOf(schema, item).Some? && key in KeysOf(schema, item).value.0 && id != ""
    requires var canonical := readers.primaryKeyId(DefinitionOf(schema, Vertex, item.fields).value,
                                                   KeysOf(schema, item).value.1[key := List([date])]);
             id == IdOr(canonical, fallback) && (canonical.Some? ==> canonical.value.Str?)
    ensures item.Object? && Get(item.fields, "properties").Object?
    ensures Target(schema, readers, WithDate(item, key, date, id)) == Some(Str(id))
    ensures var replaced := WithDate(item, key, date, id);
            replaced.Object? && "id" in replaced.fields && replaced.fields["id"] == Str(id)
  {
    var replaced := WithDate(item, key, date, id).fields;
    assert Get(replaced, "label") == Get(item.fields, "label") && Get(replaced, "id") == Str(id);
  }

  lemma KeysOfDefinition(schema: Schema, item: Json)
    requires KeysOf(schema, item).Some?
    ensures item.Object? && DefinitionOf(schema, Vertex, item.fields).Some?
    ensures KeysOf(schema, item).value.0 == PrimaryKeys(DefinitionOf(schema, Vertex, item.fields).value)
  {
  }

  /** The colliding pair with the identifiers that normalisation would give it. */
  function Listed(schema: Schema, readers: Readers, item: Json, key: string, date: Json, fallback: string): Json
    requires KeysOf(schema, item).Some?
  {
    var definition, properties := DefinitionOf(schema, Vertex, item.fields).value, KeysOf(schema, item).value.1;
    WithDate(item, key, date, IdOr(readers.primaryKeyId(definition, properties[key := List([date])]), fallback))
  }

  lemma ValidatedPair(schema: Schema, readers: Readers, item: Json, key: string, text: string)
    requires VertexFine(schema, readers, item) && KeysOf(schema, item).Some?
    requires key in KeysOf(schema, item).value.0 && IsDate(schema, key) && AdmitsLists(schema, key)
    requires ReadsAsEpoch(readers, text) && IdsTellApart(readers, text)
    ensures var vertices := [Listed(schema, readers, item, key, Int(0), "a"),
                             Listed(schema, readers, item, key, Str(text), "b")];
            Report(schema, readers, vertices, []) == (vertices, [], {}) && !KeysDiffer(schema, readers, vertices)
  {
    hide VertexFine, KeysOf, KeysDiffer, Issues, WithDate, Target, IsDate, AdmitsLists, ReadsAsEpoch;
    KeysOfDefinition(schema, item);
    var definition, properties := DefinitionOf(schema, Vertex, item.fields).value, KeysOf(schema, item).value.1;
    var first, second := readers.primaryKeyId(definition, properties[key := List([Int(0)])]),
                         readers.primaryKeyId(definition, properties[key := List([Str(text)])]);
    assert ListIdsApart(readers, text, definition, properties, key);
    var a, b := IdOr(first, "a"), IdOr(second, "b");
    CollidingPair(schema, readers, item, key, text, a, b);
    ReplacedTarget(schema, readers, item, key, Int(0), a, "a");
    ReplacedTarget(schema, readers, item, key, Str(text), b, "b");
    AlreadyNormal(schema, readers, [WithDate(item, key, Int(0), a), WithDate(item, key, Str(text), b)]);
  }

  /** What `validate` returns without issues is proof against time zones under the same condition. */
  lemma ValidationProofExactly(schema: Schema, readers: Readers, text: string)
    requires ReadsAsEpoch(readers, text) && IdsTellApart(readers, text)
    ensures ValidationTimezoneProof(schema, readers) <==> NoListDates(schema, readers)
  {
    hide VertexFine, KeysOf, IsDate, AdmitsLists, KeysDiffer, Issues, Listed, IdsTellApart, ReadsAsEpoch,
         NormalVertices, NormalEdges;
    if NoListDates(schema, readers) {
      forall vertices, edges | Report(schema, readers, vertices, edges).2 == {}
        ensures KeysDiffer(schema, readers, Report(schema, readers, vertices, edges).0)
      {
        NoListsKeepsPromise(schema, readers, NormalVertices(schema, readers, vertices),
                            NormalEdges(schema, readers, vertices, edges));
      }
    } else {
      var item, key := ListHolder(schema, readers);
      ValidatedPair(schema, readers, item, key, text);
    }
  }

  /** What a caller can look up: it is enough that every date among the primary keys of a label
      is declared with a cardinality other than LIST and SET. */
  lemma SingleDatesSuffice(schema: Schema, readers: Readers)
    requires forall name, key ::
               name in schema.vertexLabels && key in PrimaryKeys(schema.vertexLabels[name]) && IsDate(schema, key) ==>
               !AdmitsLists(schema, key)
    ensures NoListDates(schema, readers) && AlwaysTimezoneProof(schema, readers)
            && ValidationTimezoneProof(schema, readers)
  {
    hide VertexFine, KeysDiffer, Issues, NormalVertices, NormalEdges, PrimaryKeys, IsDate, AdmitsLists;
    forall item | VertexFine(schema, readers, item)
      ensures !HoldsListDate(schema, item)
    {
      if HoldsListDate(schema, item) {
        ListKeyOfHolder(schema, readers, item);
        KeysOfDefinition(schema, item);
      }
    }
    forall vertices, edges | Issues(schema, readers, vertices, edges) == {}
      ensures KeysDiffer(schema, readers, vertices)
    {
      NoListsKeepsPromise(schema, readers, vertices, edges);
    }
  }

  // ---------- A witness ----------

  const DAY_LABEL := Definition(None, ["d"], {}, None, None, None, None)
  const DAY_SCHEMA := Schema(map["day" := DAY_LABEL], map[], map["d" := PropertyKey(Some("DATE"), None)])

  const DAY := Object(map["label" := Str("day"), "id" := Str("a"), "properties" := Object(map["d" := Int(0)])])

  lemma DayFine(readers: Readers)
    ensures VertexFine(DAY_SCHEMA, readers, DAY) && KeysOf(DAY_SCHEMA, DAY) == Some((["d"], map["d" := Int(0)]))
    ensures HasListKey(DAY_SCHEMA, DAY)
  {
    assert DefinitionOf(DAY_SCHEMA, Vertex, DAY.fields) == Some(DAY_LABEL);
    assert IsDate(DAY_SCHEMA, "d") && AdmitsLists(DAY_SCHEMA, "d") && "d" in DAY_LABEL.primaryKeys;
    assert KeysOf(DAY_SCHEMA, DAY).value.0 == DAY_LABEL.primaryKeys;
  }

  /** A label with one date key without a declared cardinality: two vertices with a list of the
      same date come out of `validate` without an issue, and a server in UTC sees one key. */
  lemma ListDatesCollide(readers: Readers, text: string)
    requires ReadsAsEpoch(readers, text) && IdsTellApart(readers, text)
    ensures KeysOf(DAY_SCHEMA, DAY).Some?
    ensures var vertices := [Listed(DAY_SCHEMA, readers, DAY, "d", Int(0), "a"),
                             Listed(DAY_SCHEMA, readers, DAY, "d", Str(text), "b")];
            Report(DAY_SCHEMA, readers, vertices, []) == (vertices, [], {})
            && !KeysDiffer(DAY_SCHEMA, readers, vertices)
    ensures !ValidationTimezoneProof(DAY_SCHEMA, readers)
  {
    hide VertexFine, Listed, Issues, KeysDiffer, NormalVertices, NormalEdges, ReadsAsEpoch, IdsTellApart;
    DayFine(readers);
    ValidatedPair(DAY_SCHEMA, readers, DAY, "d", text);
  }
}
