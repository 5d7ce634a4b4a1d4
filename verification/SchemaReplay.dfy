/** A valid batch replays cleanly: creating its objects one by one never redefines a name and
    never refers to a missing one. */
module SchemaReplay {
  import opened Wrappers
  import opened PropertySchema
  import opened SchemaBatch
  import opened Characters

  // ---------- Creating one object ----------

  /** A string with something else in it than blanks. */
  predicate IsName(value: Json) {
    value.Str? && exists k | 0 <= k < |value.s| :: !IsSpace(value.s[k])
  }

  predicate IsOneOf(value: Json, allowed: set<string>) {
    value.Str? && Upper(value.s) in allowed
  }

  predicate IsUnset(op: map<string, Json>, field: string) {
    field !in op || op[field] == Null || op[field] == Str("")
  }

  /** What an operation must carry to create an object of a kind. */
  predicate Carries(op: map<string, Json>, creation: Creation) {
    match creation
    case CreatePropertyKey =>
      Get(op, "type") == Str("create_property_key") && IsName(Get(op, "name"))
      && IsOneOf(Get(op, "data_type"), DATA_TYPES)
    case CreateVertexLabel => Get(op, "type") == Str("create_vertex_label") && IsName(Get(op, "name"))
    case CreateEdgeLabel =>
      && Get(op, "type") == Str("create_edge_label") && IsName(Get(op, "name"))
      && IsName(Get(op, "source_label")) && IsName(Get(op, "target_label"))
    case CreateIndexLabel =>
      && Get(op, "type") == Str("create_index_label") && IsName(Get(op, "name"))
      && IsOneOf(Get(op, "base_type"), {"VERTEX", "EDGE"}) && IsName(Get(op, "base_label"))
  }

  function ListedNames(value: Json): set<string> {
    if value.List? then set item | item in value.items && item.Str? :: item.s else {}
  }

  /** The vertices of the label are identified by their primary keys. */
  predicate KeyedByProperties(op: map<string, Json>) {
    IsUnset(op, "id_strategy") || (op["id_strategy"].Str? && Upper(op["id_strategy"].s) == "PRIMARY_KEY")
  }

  /** Every existing object that an operation refers to, by kind and name. */
  ghost function References(op: map<string, Json>, creation: Creation): set<(Creation, string)> {
    match creation
    case CreatePropertyKey => {}
    case CreateVertexLabel =>
      set n | n in ListedNames(Get(op, "properties")) + ListedNames(Get(op, "nullable_keys"))
                   + (if KeyedByProperties(op) then ListedNames(Get(op, "primary_keys")) else {}) ::
                       (CreatePropertyKey, n)
    case CreateEdgeLabel =>
      (set n | n in ListedNames(Get(op, "properties")) + ListedNames(Get(op, "nullable_keys"))
       + ListedNames(Get(op, "sort_keys"))
        :: (CreatePropertyKey, n))
      + (set f | f in {"source_label", "target_label"} && Get(op, f).Str? :: (CreateVertexLabel, Get(op, f).s))
    case CreateIndexLabel =>
      (set n | n in ListedNames(Get(op, "fields")) :: (CreatePropertyKey, n))
      + (if Get(op, "base_label").Str? && Get(op, "base_type").Str?
         then {(if Upper(Get(op, "base_type").s) == "VERTEX" then CreateVertexLabel else CreateEdgeLabel,
                Get(op, "base_label").s)}
         else {})
  }

  /** A list of names that are not empty, none twice. */
  ghost predicate DistinctNames(value: Json) {
    && value.List?
    && (forall i :: 0 <= i < |value.items| ==> value.items[i].Str? && |value.items[i].s| > 0)
    && (forall i, j :: 0 <= i < j < |value.items| ==> value.items[i] != value.items[j])
  }

  /** Distinct names, or nothing. */
  ghost predicate NameList(op: map<string, Json>, field: string) {
    IsUnset(op, field) || DistinctNames(op[field])
  }

  /** Distinct names taken from the properties, at least one of them. */
  ghost predicate SubList(op: map<string, Json>, field: string) {
    && DistinctNames(Get(op, field)) && |Get(op, field).items| > 0
    && forall n :: n in ListedNames(Get(op, field)) ==> n in ListedNames(Get(op, "properties"))
  }

  /** Nothing, or one of the allowed values in any spelling of its letters. */
  predicate Chosen(op: map<string, Json>, field: string, allowed: set<string>) {
    IsUnset(op, field) || IsOneOf(op[field], allowed)
  }

  /** An aggregate over lists or sets needs that cardinality, one over values a single value. */
  predicate AggregateFits(op: map<string, Json>) {
    if IsUnset(op, "aggregate_type") || !op["aggregate_type"].Str? then true
    else
      var aggregate := Upper(op["aggregate_type"].s);
      var cardinality := if IsUnset(op, "cardinality") || !op["cardinality"].Str? then "SINGLE"
                         else Upper(op["cardinality"].s);
      && (aggregate in {"SET", "LIST"} ==> cardinality == aggregate)
      && (aggregate in {"OLD", "SUM", "MIN", "MAX"} ==> cardinality == "SINGLE")
  }

  /** The values of the operation are in order, whatever the schema. */
  ghost predicate ValuesFine(op: map<string, Json>, creation: Creation) {
    match creation
    case CreatePropertyKey =>
      && Chosen(op, "data_type", DATA_TYPES) && Chosen(op, "cardinality", CARDINALITIES)
      && Chosen(op, "aggregate_type", AGGREGATE_TYPES) && AggregateFits(op)
    case CreateVertexLabel =>
      && Chosen(op, "id_strategy", ID_STRATEGIES) && NameList(op, "properties")
      && (Get(op, "nullable_keys") == Null || SubList(op, "nullable_keys"))
      && (KeyedByProperties(op) ==> SubList(op, "primary_keys"))
    case CreateEdgeLabel =>
      && (forall f :: f in PARENT_FIELDS ==> f !in op) && Chosen(op, "frequency", FREQUENCIES)
      && NameList(op, "properties") && (Get(op, "nullable_keys") == Null || SubList(op, "nullable_keys"))
      && (Get(op, "sort_keys") == Null || SubList(op, "sort_keys"))
    case CreateIndexLabel => IsOneOf(Get(op, "base_type"), {"VERTEX", "EDGE"}) && NameList(op, "fields")
  }

  /** The kinds of objects that a field is documented for. */
  predicate Documented(field: string, creation: Creation) {
    || field == "type" || field == "name"
    || (field == "user_data" && creation != CreateIndexLabel)
    || (field in {"data_type", "cardinality", "aggregate_type"} && creation == CreatePropertyKey)
    || (field in {"properties", "nullable_keys", "enable_label_index"}
        && (creation == CreateVertexLabel || creation == CreateEdgeLabel))
    || (field in {"id_strategy", "primary_keys", "index_labels"} && creation == CreateVertexLabel)
    || (field in {"source_label", "target_label", "sort_keys", "frequency"} && creation == CreateEdgeLabel)
    || (field in {"base_type", "base_label", "fields", "index_type", "unique"} && creation == CreateIndexLabel)
  }

  /** Only the documented fields are there, and flags, mappings and index labels have their shape.
      The parent fields of edge labels are left to the check of their values. */
  ghost predicate FieldsFine(op: map<string, Json>, creation: Creation) {
    && (forall f :: f in op ==> Documented(f, creation) || (creation == CreateEdgeLabel && f in PARENT_FIELDS))
    && ("enable_label_index" in op && Documented("enable_label_index", creation) ==> op["enable_label_index"].Bool?)
    && ("unique" in op && Documented("unique", creation) ==> op["unique"].Bool?)
    && ("user_data" in op && Documented("user_data", creation) ==> op["user_data"].Object?)
    && ("index_labels" in op && Documented("index_labels", creation) ==> DistinctNames(op["index_labels"]))
  }

  lemma DocumentedIsSupported(field: string, creation: Creation)
    ensures Documented(field, creation) <==> field in SupportedFields(creation)
  {
  }

  lemma DistinctMeans(value: Json)
    ensures DistinctNames(value) <==> value.List? && AllNames(value.items) && !Repeats(value.items)
  {
  }

  lemma KnownExactly(op: map<string, Json>, creation: Creation)
    ensures op.Keys <= SupportedFields(creation) + (if creation == CreateEdgeLabel then PARENT_FIELDS else {})
            <==> forall f :: f in op ==> Documented(f, creation) || (creation == CreateEdgeLabel && f in PARENT_FIELDS)
  {
    hide SupportedFields, Documented;
    forall f
      ensures Documented(f, creation) <==> f in SupportedFields(creation)
    {
      DocumentedIsSupported(f, creation);
    }
  }

  lemma FlagsExactly(op: map<string, Json>, creation: Creation)
    ensures (set f | f in op && f in {"enable_label_index", "unique"} * SupportedFields(creation) && !op[f].Bool? ::
               WrongShape(f)) == {} <==>
              && ("enable_label_index" in op && Documented("enable_label_index", creation) ==>
                    op["enable_label_index"].Bool?)
              && ("unique" in op && Documented("unique", creation) ==> op["unique"].Bool?)
  {
    hide SupportedFields, Documented;
    DocumentedIsSupported("enable_label_index", creation);
    DocumentedIsSupported("unique", creation);
    var faults := set f | f in op && f in {"enable_label_index", "unique"} * SupportedFields(creation)
                  && !op[f].Bool? ::
      WrongShape(f);
    assert forall f :: f in op && f in {"enable_label_index", "unique"} * SupportedFields(creation) && !op[f].Bool? ==>
             WrongShape(f) in faults;
  }

  lemma MappingsExactly(op: map<string, Json>, creation: Creation)
    ensures (set f | f in op && f in {"user_data"} * SupportedFields(creation) && !op[f].Object? :: WrongShape(f)) == {}
            <==> ("user_data" in op && Documented("user_data", creation) ==> op["user_data"].Object?)
  {
    hide SupportedFields, Documented;
    DocumentedIsSupported("user_data", creation);
    var faults := set f | f in op && f in {"user_data"} * SupportedFields(creation) && !op[f].Object? :: WrongShape(f);
    assert forall f :: f in op && f in {"user_data"} * SupportedFields(creation) && !op[f].Object? ==>
             WrongShape(f) in faults;
  }

  lemma FieldsExactly(op: map<string, Json>, creation: Creation)
    ensures FieldFaults(op, creation) == {} <==> FieldsFine(op, creation)
  {
    hide SupportedFields, AllNames, Repeats, Documented, DistinctNames;
    KnownExactly(op, creation);
    FlagsExactly(op, creation);
    MappingsExactly(op, creation);
    OnlyVertexLabels(creation);
    DistinctMeans(Get(op, "index_labels"));
  }

  lemma OnlyVertexLabels(creation: Creation)
    ensures Documented("index_labels", creation) <==> creation == CreateVertexLabel
  {
  }

  /** The object can be created in this schema: it is well formed, its name is new, and all it
      refers to is there. */
  ghost predicate Creatable(schema: Names, item: Json) {
    && item.Object?
    && exists creation ::
         && Carries(item.fields, creation)
         && FieldsFine(item.fields, creation) && ValuesFine(item.fields, creation)
         && Get(item.fields, "name").s !in Defined(schema, creation)
         && forall kind, name :: (kind, name) in References(item.fields, creation) ==> name in Defined(schema, kind)
  }

  function Created(schema: Names, item: Json): Names {
    if item.Object? && CreationOf(item.fields).Some? && Get(item.fields, "name").Str? then
      AddName(schema, CreationOf(item.fields).value, Get(item.fields, "name").s)
    else schema
  }

  /** The schema after the first `n` creations. */
  function After(live: Names, ops: seq<Json>, n: nat): Names
    requires n <= |ops|
  {
    if n == 0 then live else Created(After(live, ops, n - 1), ops[n - 1])
  }

  ghost predicate Replays(live: Names, ops: seq<Json>) {
    forall j :: 0 <= j < |ops| ==> Creatable(After(live, ops, j), ops[j])
  }

  // ---------- Faults, exactly ----------

  lemma DefinedMeans(value: Json, names: set<string>)
    requires DistinctNames(value)
    ensures AllDefined(value.items, names) <==> forall n :: n in ListedNames(value) ==> n in names
  {
    forall k | 0 <= k < |value.items|
      ensures value.items[k].Str? && value.items[k].s in ListedNames(value)
    {
      assert value.items[k] in value.items;
    }
  }

  lemma WithinMeans(op: map<string, Json>, value: Json)
    requires DistinctNames(value) && NameList(op, "properties")
    ensures Within(value.items, PropertiesOf(op))
            <==> forall n :: n in ListedNames(value) ==> n in ListedNames(Get(op, "properties"))
  {
    var properties := Get(op, "properties");
    forall k | 0 <= k < |value.items|
      ensures value.items[k].Str? && value.items[k].s in ListedNames(value)
      ensures properties.List? ==> (value.items[k] in properties.items <==> value.items[k].s in ListedNames(properties))
    {
      assert value.items[k] in value.items;
      assert Str(value.items[k].s) == value.items[k];
    }
  }

  lemma ReferencesExactly(op: map<string, Json>, field: string, keys: set<string>)
    ensures ReferenceFaults(op, field, keys) == {}
            <==> NameList(op, field) && forall n :: n in ListedNames(Get(op, field)) ==> n in keys
  {
    hide DistinctNames;
    DistinctMeans(Get(op, field));
    if DistinctNames(Get(op, field)) {
      DefinedMeans(Get(op, field), keys);
    }
  }

  lemma SubsetExactly(op: map<string, Json>, field: string, keys: set<string>)
    requires NameList(op, "properties")
    ensures SubsetFaults(op, field, keys) == {}
            <==> (Get(op, field) == Null || SubList(op, field)) && forall n ::
                   n in ListedNames(Get(op, field)) ==> n in keys
  {
    hide AllNames, Repeats, AllDefined, DistinctNames, Within, ListedNames;
    DistinctMeans(Get(op, field));
    NothingListed();
    if DistinctNames(Get(op, field)) {
      DefinedMeans(Get(op, field), keys);
      WithinMeans(op, Get(op, field));
    }
  }

  lemma PrimaryKeysExactly(op: map<string, Json>, keys: set<string>)
    requires NameList(op, "properties")
    ensures PrimaryKeyFaults(op, keys) == {}
            <==> SubList(op, "primary_keys") && forall n :: n in ListedNames(Get(op, "primary_keys")) ==> n in keys
  {
    hide AllNames, Repeats, AllDefined, DistinctNames, Within, ListedNames;
    DistinctMeans(Get(op, "primary_keys"));
    PropertiesListed(op);
    if DistinctNames(Get(op, "primary_keys")) {
      DefinedMeans(Get(op, "primary_keys"), keys);
      WithinMeans(op, Get(op, "primary_keys"));
    }
  }

  lemma NothingListed()
    ensures ListedNames(Null) == {}
  {
  }

  lemma PropertiesListed(op: map<string, Json>)
    requires NameList(op, "properties")
    ensures PropertiesOf(op).List?
  {
  }

  lemma ChosenMeans(op: map<string, Json>, field: string, allowed: set<string>, default: string)
    ensures Enumerated(op, field, allowed, default).Some? <==> Chosen(op, field, allowed)
    ensures Chosen(op, field, allowed) ==>
              Enumerated(op, field, allowed, default).value == if IsUnset(op, field) then default
                                                               else Upper(op[field].s)
    ensures Chosen(op, field, allowed) && !IsUnset(op, field) ==> op[field].Str? && Upper(op[field].s) in allowed
  {
  }

  ghost predicate Resolved(op: map<string, Json>, creation: Creation, names: Names) {
    forall kind, name :: (kind, name) in References(op, creation) ==> name in Defined(names, kind)
  }

  lemma VertexLabelExactly(op: map<string, Json>, names: Names)
    ensures VertexLabelFaults(op, names.propertyKeys) == {}
            <==> ValuesFine(op, CreateVertexLabel) && Resolved(op, CreateVertexLabel, names)
  {
    hide ReferenceFaults, SubsetFaults, PrimaryKeyFaults, NameList, SubList, Enumerated, ListedNames, Chosen;
    hide KeyedByProperties;
    var keys := names.propertyKeys;
    ReferencesExactly(op, "properties", keys);
    KeyedMeans(op);
    if NameList(op, "properties") {
      SubsetExactly(op, "nullable_keys", keys);
      PrimaryKeysExactly(op, keys);
    }
    VertexReferences(op, names);
  }

  lemma KeyedMeans(op: map<string, Json>)
    ensures Enumerated(op, "id_strategy", ID_STRATEGIES, "PRIMARY_KEY").Some?
            <==> Chosen(op, "id_strategy", ID_STRATEGIES)
    ensures Enumerated(op, "id_strategy", ID_STRATEGIES, "PRIMARY_KEY") == Some("PRIMARY_KEY")
            <==> KeyedByProperties(op)
  {
  }

  lemma VertexReferences(op: map<string, Json>, names: Names)
    ensures Resolved(op, CreateVertexLabel, names) <==>
              && (forall n :: n in ListedNames(Get(op, "properties")) ==> n in names.propertyKeys)
              && (forall n :: n in ListedNames(Get(op, "nullable_keys")) ==> n in names.propertyKeys)
              && (KeyedByProperties(op) ==>
                    forall n :: n in ListedNames(Get(op, "primary_keys")) ==> n in names.propertyKeys)
  {
    hide ListedNames, KeyedByProperties;
    assert forall n :: n in ListedNames(Get(op, "properties")) ==>
             (CreatePropertyKey, n) in References(op, CreateVertexLabel);
    assert forall n :: n in ListedNames(Get(op, "nullable_keys")) ==>
             (CreatePropertyKey, n) in References(op, CreateVertexLabel);
    assert KeyedByProperties(op) ==>
        forall n :: n in ListedNames(Get(op, "primary_keys")) ==>
          (CreatePropertyKey, n) in References(op, CreateVertexLabel);
  }

  lemma EdgeReferences(op: map<string, Json>, names: Names)
    requires Get(op, "source_label").Str? && Get(op, "target_label").Str?
    ensures Resolved(op, CreateEdgeLabel, names) <==>
              && (forall n :: n in ListedNames(Get(op, "properties")) ==> n in names.propertyKeys)
              && (forall n :: n in ListedNames(Get(op, "nullable_keys")) ==> n in names.propertyKeys)
              && (forall n :: n in ListedNames(Get(op, "sort_keys")) ==> n in names.propertyKeys)
              && Get(op, "source_label").s in names.vertexLabels && Get(op, "target_label").s in names.vertexLabels
  {
    hide ListedNames;
    var all := References(op, CreateEdgeLabel);
    assert forall n :: n in ListedNames(Get(op, "properties")) ==> (CreatePropertyKey, n) in all;
    assert forall n :: n in ListedNames(Get(op, "nullable_keys")) ==> (CreatePropertyKey, n) in all;
    assert forall n :: n in ListedNames(Get(op, "sort_keys")) ==> (CreatePropertyKey, n) in all;
    assert (CreateVertexLabel, Get(op, "source_label").s) in all
           && (CreateVertexLabel, Get(op, "target_label").s) in all;
  }

  lemma EdgeLabelExactly(op: map<string, Json>, names: Names)
    requires Get(op, "source_label").Str? && Get(op, "target_label").Str?
    ensures EdgeLabelFaults(op, names.propertyKeys, names.vertexLabels) == {}
            <==> ValuesFine(op, CreateEdgeLabel) && Resolved(op, CreateEdgeLabel, names)
  {
    hide ReferenceFaults, SubsetFaults, NameList, SubList, Enumerated, ListedNames, References, Chosen;
    ReferencesExactly(op, "properties", names.propertyKeys);
    ChosenMeans(op, "frequency", FREQUENCIES, "");
    ParentsMean(op);
    if NameList(op, "properties") {
      SubsetExactly(op, "nullable_keys", names.propertyKeys);
      SubsetExactly(op, "sort_keys", names.propertyKeys);
    }
    EdgeReferences(op, names);
  }

  lemma ParentsMean(op: map<string, Json>)
    ensures op.Keys * PARENT_FIELDS == {} <==> forall f :: f in PARENT_FIELDS ==> f !in op
  {
    assert forall f :: f in op.Keys * PARENT_FIELDS <==> f in op && f in PARENT_FIELDS;
  }

  lemma IndexLabelExactly(op: map<string, Json>, names: Names)
    requires Get(op, "base_label").Str?
    ensures IndexLabelFaults(op, names) == {}
            <==> ValuesFine(op, CreateIndexLabel) && Resolved(op, CreateIndexLabel, names)
  {
    hide ReferenceFaults, NameList, ListedNames, Upper;
    ReferencesExactly(op, "fields", names.propertyKeys);
    var all := References(op, CreateIndexLabel);
    assert forall n :: n in ListedNames(Get(op, "fields")) ==> (CreatePropertyKey, n) in all;
    var base := if BaseType(op) == "VERTEX" then CreateVertexLabel else CreateEdgeLabel;
    assert Get(op, "base_type").Str? ==> (base, Get(op, "base_label").s) in all;
  }

  lemma CreationExactly(op: map<string, Json>, creation: Creation, names: Names)
    requires Identified(op, creation)
    ensures CreationFaults(op, creation, names) == {} <==> ValuesFine(op, creation) && Resolved(op, creation, names)
  {
    hide PropertyKeyFaults, VertexLabelFaults, EdgeLabelFaults, IndexLabelFaults, References, ValuesFine;
    match creation
    case CreatePropertyKey =>
      NoReferences(op, names);
    case CreateVertexLabel =>
      VertexLabelExactly(op, names);
    case CreateEdgeLabel =>
      assert "source_label" in IdentifierFields(creation) && "target_label" in IdentifierFields(creation);
      EdgeLabelExactly(op, names);
    case CreateIndexLabel =>
      assert "base_label" in IdentifierFields(creation);
      IndexLabelExactly(op, names);
  }

  lemma NoReferences(op: map<string, Json>, names: Names)
    ensures Resolved(op, CreatePropertyKey, names)
    ensures ValuesFine(op, CreatePropertyKey) <==> PropertyKeyFaults(op) == {}
  {
    hide Enumerated, Chosen, Upper;
    ChosenMeans(op, "data_type", DATA_TYPES, "TEXT");
    ChosenMeans(op, "cardinality", CARDINALITIES, "SINGLE");
    ChosenMeans(op, "aggregate_type", AGGREGATE_TYPES, "");
  }

  /** One round finds no fault exactly when the object could be created, but for its name. */
  lemma OperationExactly(item: Json, live: Names, available: Names)
    ensures OperationFaults(item, live, available) == {} <==>
              && Reaches(item)
              && var op, creation := item.fields, CreationOf(item.fields).value;
                 && FieldsFine(op, creation) && ValuesFine(op, creation) && Resolved(op, creation, available)
                 && !NameIn(Get(op, "name"), Defined(live, creation))
  {
    hide FieldFaults, FieldsFine, CreationFaults, ValuesFine, Resolved, MissingFields, Identified;
    if Reaches(item) {
      FieldsExactly(item.fields, CreationOf(item.fields).value);
      CreationExactly(item.fields, CreationOf(item.fields).value, available);
    }
  }

  // ---------- Single faults ----------

  /** Python's `not value`: null, false, zero, and what is empty. */
  lemma FalsyExactly(value: Json)
    ensures Falsy(value) <==>
              || value in [Null, Bool(false), Int(0), Str(""), List([]), Object(map[])]
              || (value.Float? && value.number.numerator == 0)
  {
  }

  /** The field must be given for an object of the kind. */
  predicate MustBeSet(field: string, creation: Creation) {
    || field == "name"
    || (field == "data_type" && creation == CreatePropertyKey)
    || (field in {"source_label", "target_label"} && creation == CreateEdgeLabel)
    || (field in {"base_type", "base_label"} && creation == CreateIndexLabel)
  }

  /** The field names an object. */
  predicate NamesObject(field: string, creation: Creation) {
    MustBeSet(field, creation) && field != "data_type" && field != "base_type"
  }

  lemma TablesMean(field: string, creation: Creation)
    ensures field in RequiredFields(creation) <==> MustBeSet(field, creation)
    ensures field in IdentifierFields(creation) <==> NamesObject(field, creation)
  {
  }

  lemma MissingExactly(op: map<string, Json>, creation: Creation, field: string)
    ensures MissingField(field) in MissingFields(op, creation) <==> MustBeSet(field, creation) && IsUnset(op, field)
  {
    TablesMean(field, creation);
  }

  lemma IdentifiedExactly(op: map<string, Json>, creation: Creation)
    ensures Identified(op, creation) <==> forall f :: NamesObject(f, creation) ==> IsName(Get(op, f))
  {
    hide IdentifierFields, NamesObject, IsName, IsIdentifier;
    forall f
      ensures f in IdentifierFields(creation) <==> NamesObject(f, creation)
      ensures IsName(Get(op, f)) <==> IsIdentifier(Get(op, f))
    {
      TablesMean(f, creation);
      NamesAreIdentifiers(Get(op, f));
    }
  }

  /** When one round reports that something is no operation, is missing, is no name, or exists. */
  lemma FaultsExactly(item: Json, live: Names, available: Names, field: string)
    ensures NotAnOperation in OperationFaults(item, live, available) <==> !item.Object?
    ensures UnsupportedType in OperationFaults(item, live, available) <==>
              item.Object? && CreationOf(item.fields).None?
    ensures item.Object? && CreationOf(item.fields).Some? ==>
              var op, creation, faults := item.fields, CreationOf(item.fields).value,
                                          OperationFaults(item, live, available);
              && (MissingField(field) in faults && field != "primary_keys" <==>
                    MustBeSet(field, creation) && IsUnset(op, field))
              && (BadIdentifier in faults <==>
                    && (forall f :: MustBeSet(f, creation) ==> !IsUnset(op, f))
                    && (exists f :: NamesObject(f, creation) && !IsName(Get(op, f))))
              && (AlreadyExists in faults <==>
                    && (forall f :: MustBeSet(f, creation) ==> !IsUnset(op, f))
                    && (forall f :: NamesObject(f, creation) ==> IsName(Get(op, f)))
                    && Get(op, "name").Str? && Get(op, "name").s in Defined(live, creation))
  {
    hide CreationOf, MustBeSet, NamesObject, IsUnset, IsName, Identified, MissingFields, CreationFaults, FieldFaults;
    if item.Object? && CreationOf(item.fields).Some? {
      var op, creation := item.fields, CreationOf(item.fields).value;
      IdentifiedExactly(op, creation);
      NothingMissing(op, creation);
      MissingExactly(op, creation, field);
      OnlyMissing(op, creation);
      OtherFaults(op, creation, available, field);
    }
  }

  lemma NothingMissing(op: map<string, Json>, creation: Creation)
    ensures MissingFields(op, creation) == {} <==> forall f :: MustBeSet(f, creation) ==> !IsUnset(op, f)
  {
    hide MustBeSet, IsUnset, RequiredFields;
    forall f
      ensures MissingField(f) in MissingFields(op, creation) <==> MustBeSet(f, creation) && IsUnset(op, f)
    {
      MissingExactly(op, creation, f);
    }
    OnlyMissing(op, creation);
  }

  lemma OnlyMissing(op: map<string, Json>, creation: Creation)
    ensures forall fault :: fault in MissingFields(op, creation) ==>
              exists f :: fault == MissingField(f) && f != "primary_keys"
  {
    TablesMean("primary_keys", creation);
  }

  /** A fault of the fields or values, none of the above. */
  predicate IsDetail(fault: Fault) {
    && fault != NotAnOperation && fault != UnsupportedType && fault != BadIdentifier && fault != AlreadyExists
    && (fault.MissingField? ==> fault.field == "primary_keys")
  }

  predicate AllDetails(faults: set<Fault>) {
    forall fault | fault in faults :: IsDetail(fault)
  }

  lemma ListDetails(op: map<string, Json>, field: string, keys: set<string>)
    ensures AllDetails(ReferenceFaults(op, field, keys)) && AllDetails(SubsetFaults(op, field, keys))
    ensures AllDetails(PrimaryKeyFaults(op, keys))
  {
  }

  lemma FieldDetails(op: map<string, Json>, creation: Creation)
    ensures AllDetails(FieldFaults(op, creation)) && AllDetails(PropertyKeyFaults(op))
  {
    hide SupportedFields, Enumerated;
  }

  lemma CreationDetails(op: map<string, Json>, creation: Creation, names: Names)
    ensures AllDetails(CreationFaults(op, creation, names))
  {
    hide ReferenceFaults, SubsetFaults, PrimaryKeyFaults, PropertyKeyFaults, Enumerated, NameIn, BaseType, IsDetail;
    var keys := names.propertyKeys;
    ListDetails(op, "properties", keys);
    ListDetails(op, "nullable_keys", keys);
    ListDetails(op, "sort_keys", keys);
    ListDetails(op, "fields", keys);
    FieldDetails(op, creation);
    assert forall f :: IsDetail(BadValue(f)) && IsDetail(UndefinedNames(f)) && IsDetail(UnsupportedFields) by {
      DetailKinds();
    }
  }

  lemma DetailKinds()
    ensures forall f :: IsDetail(BadValue(f)) && IsDetail(UndefinedNames(f)) && IsDetail(UnsupportedFields)
  {
  }

  /** The other checks report none of these. */
  lemma OtherFaults(op: map<string, Json>, creation: Creation, names: Names, field: string)
    ensures forall faults :: faults in [FieldFaults(op, creation), CreationFaults(op, creation, names)] ==>
              && NotAnOperation !in faults && UnsupportedType !in faults && BadIdentifier !in faults
              && AlreadyExists !in faults && (field != "primary_keys" ==> MissingField(field) !in faults)
  {
    hide FieldFaults, CreationFaults;
    FieldDetails(op, creation);
    CreationDetails(op, creation, names);
  }

  // ---------- The schema along the batch ----------

  /** What has been created is what was offered, and the index labels. */
  lemma {:induction false} OfferedIsCreated(live: Names, ops: seq<Json>, n: nat)
    requires n <= |ops| && forall k :: 0 <= k < n ==> Reaches(ops[k])
    ensures var offered, created := Available(live, ops, n), After(live, ops, n);
            offered.propertyKeys == created.propertyKeys && offered.vertexLabels == created.vertexLabels
            && offered.edgeLabels == created.edgeLabels
  {
    hide Reaches;
    if n > 0 {
      OfferedIsCreated(live, ops, n - 1);
      OfferIs(Available(live, ops, n - 1), ops[n - 1]);
      CreatedIs(After(live, ops, n - 1), ops[n - 1]);
    }
  }

  lemma ResolvedAlike(op: map<string, Json>, creation: Creation, names: Names, others: Names)
    requires names.propertyKeys == others.propertyKeys && names.vertexLabels == others.vertexLabels
             && names.edgeLabels == others.edgeLabels
    ensures Resolved(op, creation, names) <==> Resolved(op, creation, others)
  {
  }

  /** A name is defined after `n` creations if it was before, or if one of them planned it. */
  lemma {:induction false} DefinedAfter(live: Names, ops: seq<Json>, n: nat, creation: Creation, name: string)
    requires n <= |ops| && forall k :: 0 <= k < n ==> Reaches(ops[k])
    ensures name in Defined(After(live, ops, n), creation)
            <==> name in Defined(live, creation) || exists k ::
                   0 <= k < n && Planned(ops[k]) == Some((creation, Str(name)))
  {
    hide Reaches, Planned;
    if n > 0 {
      DefinedAfter(live, ops, n - 1, creation, name);
      NamePlanned(ops[n - 1]);
      CreatedIs(After(live, ops, n - 1), ops[n - 1]);
    }
  }

  lemma CreatedIs(names: Names, item: Json)
    requires Reaches(item)
    ensures item.Object? && CreationOf(item.fields).Some? && Get(item.fields, "name").Str?
    ensures Created(names, item) == AddName(names, CreationOf(item.fields).value, Get(item.fields, "name").s)
  {
  }

  // ---------- Valid batches ----------

  lemma NoErrors(live: Names, ops: seq<Json>)
    ensures Errors(live, ops) == {} <==>
              forall j ::
                0 <= j < |ops| ==>
                  !PlannedBefore(ops, j) && OperationFaults(ops[j], live, Available(live, ops, j)) == {}
  {
    hide OperationFaults, PlannedBefore;
    var errors := Errors(live, ops);
    assert forall j: nat :: j < |ops| && PlannedBefore(ops, j) ==> Error(j, DuplicateCreation) in errors;
    assert forall j: nat, f ::
             j < |ops| && f in OperationFaults(ops[j], live, Available(live, ops, j)) ==> Error(j, f) in errors;
  }

  /** At each step: without faults and without an earlier plan of the same name, exactly the
      objects that can be created. */
  lemma StepExactly(live: Names, ops: seq<Json>, j: nat)
    requires j < |ops| && forall k :: 0 <= k < j ==> Reaches(ops[k])
    ensures !PlannedBefore(ops, j) && OperationFaults(ops[j], live, Available(live, ops, j)) == {}
            <==> Creatable(After(live, ops, j), ops[j])
  {
    hide OperationFaults, Reaches, FieldsFine, ValuesFine, Resolved, Available, After, Planned, Creatable;
    var item := ops[j];
    OperationExactly(item, live, Available(live, ops, j));
    if Creatable(After(live, ops, j), item) {
      CreatableReaches(After(live, ops, j), item);
    }
    if Reaches(item) {
      NamePlanned(item);
      var op, creation := item.fields, CreationOf(item.fields).value;
      OfferedIsCreated(live, ops, j);
      ResolvedAlike(op, creation, Available(live, ops, j), After(live, ops, j));
      DefinedAfter(live, ops, j, creation, Get(op, "name").s);
      CreatableIs(After(live, ops, j), item);
    }
  }

  lemma CreatableIs(schema: Names, item: Json)
    requires Reaches(item)
    ensures item.Object? && CreationOf(item.fields).Some?
    ensures var op, creation := item.fields, CreationOf(item.fields).value;
            Creatable(schema, item) <==>
              && FieldsFine(op, creation) && ValuesFine(op, creation) && Resolved(op, creation, schema)
              && !NameIn(Get(op, "name"), Defined(schema, creation))
  {
    hide FieldsFine, ValuesFine, References, Carries, Identified, MissingFields, CreationOf;
    var op, creation := item.fields, CreationOf(item.fields).value;
    NamePlanned(item);
    if ValuesFine(op, creation) {
      ReachesCarries(op, creation);
    }
    forall other | Carries(op, other)
      ensures other == creation
    {
      CarriesKind(op, other);
    }
  }

  lemma CarriesKind(op: map<string, Json>, creation: Creation)
    requires Carries(op, creation)
    ensures CreationOf(op) == Some(creation) && Get(op, "name").Str?
  {
  }

  lemma NamesAreIdentifiers(value: Json)
    ensures IsName(value) <==> IsIdentifier(value)
    ensures IsName(value) ==> !IsBlank(value)
  {
    if IsIdentifier(value) {
      var c :| c in value.s && !IsSpace(c);
      var k :| 0 <= k < |value.s| && value.s[k] == c;
    }
  }

  lemma ReachesCarries(op: map<string, Json>, creation: Creation)
    requires Reaches(Object(op)) && CreationOf(op) == Some(creation) && ValuesFine(op, creation)
    ensures Carries(op, creation)
  {
    hide IsName, IsIdentifier, NameList, SubList, Upper;
    forall f | f in IdentifierFields(creation)
      ensures IsName(Get(op, f))
    {
      NamesAreIdentifiers(Get(op, f));
    }
    assert forall f :: f in RequiredFields(creation) && IsBlank(Get(op, f)) ==>
             MissingField(f) in MissingFields(op, creation);
    assert RequiredFields(CreatePropertyKey)[1] == "data_type" && RequiredFields(CreateIndexLabel)[1] == "base_type";
    assert IdentifierFields(creation)[0] == "name";
    assert IdentifierFields(CreateEdgeLabel)[1] == "source_label"
           && IdentifierFields(CreateEdgeLabel)[2] == "target_label";
    assert IdentifierFields(CreateIndexLabel)[1] == "base_label";
  }

  lemma CarriesReaches(op: map<string, Json>, creation: Creation)
    requires Carries(op, creation)
    ensures Reaches(Object(op)) && CreationOf(op) == Some(creation)
  {
    hide IsName, IsIdentifier, Upper;
    NamesAreIdentifiers(Get(op, "name"));
    NamesAreIdentifiers(Get(op, "source_label"));
    NamesAreIdentifiers(Get(op, "target_label"));
    NamesAreIdentifiers(Get(op, "base_label"));
    assert forall f :: f in RequiredFields(creation) ==> !IsBlank(Get(op, f));
  }

  /** A batch is reported valid exactly when it replays: when each object can be created in the
      schema that the live one and the earlier creations make. */
  lemma ValidExactly(live: Names, ops: seq<Json>)
    ensures Errors(live, ops) == {} <==> Replays(live, ops)
  {
    hide OperationFaults, PlannedBefore, Creatable, Available, After, Errors, Reaches;
    NoErrors(live, ops);
    if Errors(live, ops) == {} {
      forall j | 0 <= j < |ops|
        ensures Creatable(After(live, ops, j), ops[j])
      {
        forall k | 0 <= k < j ensures Reaches(ops[k]) {
          OperationExactly(ops[k], live, Available(live, ops, k));
        }
        StepExactly(live, ops, j);
      }
    }
    if Replays(live, ops) {
      forall j | 0 <= j < |ops|
        ensures !PlannedBefore(ops, j) && OperationFaults(ops[j], live, Available(live, ops, j)) == {}
      {
        forall k | 0 <= k < j ensures Reaches(ops[k]) {
          CreatableReaches(After(live, ops, k), ops[k]);
        }
        StepExactly(live, ops, j);
      }
    }
  }

  lemma CreatableReaches(schema: Names, item: Json)
    requires Creatable(schema, item)
    ensures Reaches(item)
  {
    hide FieldsFine, ValuesFine, References, Carries;
    var creation :| Carries(item.fields, creation);
    CarriesReaches(item.fields, creation);
    assert Object(item.fields) == item;
  }

  /** What every operation of a valid batch carries. */
  lemma ValidCarries(live: Names, ops: seq<Json>, j: nat)
    requires Errors(live, ops) == {} && j < |ops|
    ensures ops[j].Object? && exists creation :: Carries(ops[j].fields, creation)
  {
    hide Errors, After, FieldsFine, ValuesFine, References, Carries;
    ValidExactly(live, ops);
    assert Creatable(After(live, ops, j), ops[j]);
  }

  lemma {:induction false} AfterSplits(live: Names, first: seq<Json>, rest: seq<Json>, n: nat)
    requires n <= |first + rest|
    ensures After(live, first + rest, n)
            == if n <= |first| then After(live, first, n) else After(After(live, first, |first|), rest, n - |first|)
  {
    if n > 0 {
      AfterSplits(live, first, rest, n - 1);
      assert (first + rest)[n - 1] == if n <= |first| then first[n - 1] else rest[n - 1 - |first|];
    }
  }

  /** A batch is valid exactly when its first part is valid and the rest is valid against the
      schema that the first part leaves: so every prefix of a valid batch is valid, and an
      application that stopped midway can go on with the remaining operations. */
  lemma ValiditySplits(live: Names, first: seq<Json>, rest: seq<Json>)
    ensures Errors(live, first + rest) == {}
            <==> Errors(live, first) == {} && Errors(After(live, first, |first|), rest) == {}
  {
    hide Creatable, After, Errors;
    var ops, middle := first + rest, After(live, first, |first|);
    ValidExactly(live, ops);
    ValidExactly(live, first);
    ValidExactly(middle, rest);
    forall j | 0 <= j < |ops|
      ensures j < |first| ==> ops[j] == first[j] && After(live, ops, j) == After(live, first, j)
      ensures j >= |first| ==> ops[j] == rest[j - |first|] && After(live, ops, j) == After(middle, rest, j - |first|)
    {
      AfterSplits(live, first, rest, j);
      if j == |first| {
        AfterNothing(middle, rest);
      }
    }
    if Replays(live, first) && Replays(middle, rest) {
      forall j | 0 <= j < |ops|
        ensures Creatable(After(live, ops, j), ops[j])
      {
      }
    }
    if Replays(live, ops) {
      forall j | 0 <= j < |first|
        ensures Creatable(After(live, first, j), first[j])
      {
        assert ops[j] == first[j];
      }
      forall j | 0 <= j < |rest|
        ensures Creatable(After(middle, rest, j), rest[j])
      {
        assert ops[|first| + j] == rest[j];
      }
    }
  }

  lemma AfterNothing(live: Names, ops: seq<Json>)
    ensures After(live, ops, 0) == live
  {
  }
}
