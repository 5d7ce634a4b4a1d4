/** Validation of an ordered batch of schema operations (manage_schema.py): a pass that collects
    the planned names, and a pass that checks each operation against the live schema and the
    earlier operations of the batch. */
module SchemaBatch {
  import opened Wrappers
  import opened Characters
  import opened PropertySchema

  // ---------- Operations ----------

  /** The names a schema defines. */
  datatype Names = Names(propertyKeys: set<string>, vertexLabels: set<string>, edgeLabels: set<string>,
                         indexLabels: set<string>)

  datatype Creation = CreatePropertyKey | CreateVertexLabel | CreateEdgeLabel | CreateIndexLabel

  function CreationOf(op: map<string, Json>): Option<Creation> {
    var t := Get(op, "type");
    if t == Str("create_property_key") then Some(CreatePropertyKey)
    else if t == Str("create_vertex_label") then Some(CreateVertexLabel)
    else if t == Str("create_edge_label") then Some(CreateEdgeLabel)
    else if t == Str("create_index_label") then Some(CreateIndexLabel)
    else None
  }

  function SupportedFields(creation: Creation): set<string> {
    match creation
    case CreatePropertyKey => {"type", "name", "data_type", "cardinality", "aggregate_type", "user_data"}
    case CreateVertexLabel =>
      {"type", "name", "id_strategy", "properties", "primary_keys", "nullable_keys", "index_labels",
       "enable_label_index", "user_data"}
    case CreateEdgeLabel =>
      {"type", "name", "source_label", "target_label", "properties", "nullable_keys", "sort_keys", "frequency",
       "enable_label_index", "user_data"}
    case CreateIndexLabel => {"type", "name", "base_type", "base_label", "fields", "index_type", "unique"}
  }

  const PARENT_FIELDS := {"parent_label", "parentLabel", "edgelabel_type", "edgeLabelType"}

  function RequiredFields(creation: Creation): seq<string> {
    match creation
    case CreatePropertyKey => ["name", "data_type"]
    case CreateVertexLabel => ["name"]
    case CreateEdgeLabel => ["name", "source_label", "target_label"]
    case CreateIndexLabel => ["name", "base_type", "base_label"]
  }

  function IdentifierFields(creation: Creation): seq<string> {
    match creation
    case CreatePropertyKey => ["name"]
    case CreateVertexLabel => ["name"]
    case CreateEdgeLabel => ["name", "source_label", "target_label"]
    case CreateIndexLabel => ["name", "base_label"]
  }

  const DATA_TYPES :=
    {"TEXT", "INT", "INTEGER", "LONG", "DOUBLE", "FLOAT", "BOOLEAN", "BOOL", "DATE", "BYTE", "BLOB", "OBJECT"}
  const CARDINALITIES := {"SINGLE", "SET", "LIST"}
  const AGGREGATE_TYPES := {"NONE", "OLD", "SUM", "MIN", "MAX", "SET", "LIST"}
  const ID_STRATEGIES := {"PRIMARY_KEY", "CUSTOMIZE_STRING", "CUSTOMIZE_NUMBER", "AUTOMATIC"}
  const FREQUENCIES := {"SINGLE", "MULTIPLE"}

  function AggregateCardinalities(aggregate: string): set<string> {
    if aggregate == "NONE" then CARDINALITIES
    else if aggregate == "SET" then {"SET"}
    else if aggregate == "LIST" then {"LIST"}
    else {"SINGLE"}
  }

  // ---------- Faults ----------

  datatype Fault =
    | NotAnOperation
    | UnsupportedType
    | UnsupportedFields
    | WrongShape(field: string)
    | MissingField(field: string)
    | BadIdentifier
    | AlreadyExists
    | BadValue(field: string)
    | AggregateMismatch
    | NotAList(field: string)
    | EmptyList(field: string)
    | InvalidNames(field: string)
    | DuplicateNames(field: string)
    | UndefinedNames(field: string)
    | NotInProperties(field: string)
    | DuplicateCreation

  function When(condition: bool, fault: Fault): set<Fault> {
    if condition then {fault} else {}
  }

  predicate IsBlank(value: Json) {
    value == Null || value == Str("")
  }

  /** A string that does not only hold blanks. */
  predicate IsIdentifier(value: Json) {
    value.Str? && exists c | c in value.s :: !IsSpace(c)
  }

  /** Python's `not value`. */
  predicate Falsy(value: Json) {
    match value
    case Null => true
    case Bool(b) => !b
    case Int(n) => n == 0
    case Float(number) => number.numerator == 0
    case Str(s) => s == ""
    case List(items) => items == []
    case Object(fields) => fields == map[]
  }

  /** `_invalid_schema_names` finds nothing. */
  predicate AllNames(items: seq<Json>) {
    forall item | item in items :: item.Str? && item.s != ""
  }

  /** `_duplicate_names` finds something. */
  predicate Repeats(items: seq<Json>) {
    exists i, j :: 0 <= i < j < |items| && items[i] == items[j]
  }

  predicate AllDefined(items: seq<Json>, names: set<string>) {
    forall item | item in items :: item.Str? && item.s in names
  }

  function PropertiesOf(op: map<string, Json>): Json {
    if Falsy(Get(op, "properties")) then List([]) else Get(op, "properties")
  }

  predicate Within(items: seq<Json>, properties: Json) {
    !properties.List? || forall item | item in items :: item in properties.items
  }

  /** `_validate_property_references`. */
  function ReferenceFaults(op: map<string, Json>, field: string, propertyKeys: set<string>): set<Fault> {
    var values := if field in op then op[field] else List([]);
    if IsBlank(values) then {}
    else if !values.List? then {NotAList(field)}
    else if !AllNames(values.items) then {InvalidNames(field)}
    else if Repeats(values.items) then {DuplicateNames(field)}
    else When(!AllDefined(values.items, propertyKeys), UndefinedNames(field))
  }

  /** `_validate_property_subset_references`. */
  function SubsetFaults(op: map<string, Json>, field: string, propertyKeys: set<string>): set<Fault> {
    var values := Get(op, field);
    if values == Null then {}
    else if !values.List? then {NotAList(field)}
    else if values.items == [] then {EmptyList(field)}
    else if !AllNames(values.items) then {InvalidNames(field)}
    else if Repeats(values.items) then {DuplicateNames(field)}
    else
      When(!AllDefined(values.items, propertyKeys), UndefinedNames(field))
      + When(!Within(values.items, PropertiesOf(op)), NotInProperties(field))
  }

  /** `_validate_vertex_primary_keys`, under the strategy PRIMARY_KEY. */
  function PrimaryKeyFaults(op: map<string, Json>, propertyKeys: set<string>): set<Fault> {
    var values := Get(op, "primary_keys");
    if Falsy(values) then {MissingField("primary_keys")}
    else if !values.List? then {NotAList("primary_keys")}
    else if !AllNames(values.items) then {InvalidNames("primary_keys")}
    else if Repeats(values.items) then {DuplicateNames("primary_keys")}
    else if !PropertiesOf(op).List? then {}
    else
      When(!Within(values.items, PropertiesOf(op)), NotInProperties("primary_keys"))
      + When(!AllDefined(values.items, propertyKeys), UndefinedNames("primary_keys"))
  }

  /** `_validate_enum_field`: the normalised value, the default for a blank one, None if refused. */
  function Enumerated(op: map<string, Json>, field: string, allowed: set<string>, default: string): Option<string> {
    var value := Get(op, field);
    if IsBlank(value) then Some(default)
    else if value.Str? && Upper(value.s) in allowed then Some(Upper(value.s))
    else None
  }

  function PropertyKeyFaults(op: map<string, Json>): set<Fault> {
    var cardinality := Enumerated(op, "cardinality", CARDINALITIES, "SINGLE");
    var aggregate := Enumerated(op, "aggregate_type", AGGREGATE_TYPES, "");
    When(Enumerated(op, "data_type", DATA_TYPES, "TEXT").None?, BadValue("data_type"))
    + When(cardinality.None?, BadValue("cardinality"))
    + When(aggregate.None?, BadValue("aggregate_type"))
    + When(aggregate.Some? && aggregate.value != ""
           && (cardinality.None? || cardinality.value !in AggregateCardinalities(aggregate.value)), AggregateMismatch)
  }

  function VertexLabelFaults(op: map<string, Json>, propertyKeys: set<string>): set<Fault> {
    var strategy := Enumerated(op, "id_strategy", ID_STRATEGIES, "PRIMARY_KEY");
    When(strategy.None?, BadValue("id_strategy"))
    + ReferenceFaults(op, "properties", propertyKeys)
    + (if strategy == Some("PRIMARY_KEY") then PrimaryKeyFaults(op, propertyKeys) else {})
    + SubsetFaults(op, "nullable_keys", propertyKeys)
  }

  predicate NameIn(value: Json, names: set<string>) {
    value.Str? && value.s in names
  }

  function EdgeLabelFaults(op: map<string, Json>, propertyKeys: set<string>, vertexLabels: set<string>): set<Fault> {
    When(op.Keys * PARENT_FIELDS != {}, UnsupportedFields)
    + When(!NameIn(Get(op, "source_label"), vertexLabels), UndefinedNames("source_label"))
    + When(!NameIn(Get(op, "target_label"), vertexLabels), UndefinedNames("target_label"))
    + When(Enumerated(op, "frequency", FREQUENCIES, "").None?, BadValue("frequency"))
    + ReferenceFaults(op, "properties", propertyKeys)
    + SubsetFaults(op, "nullable_keys", propertyKeys)
    + SubsetFaults(op, "sort_keys", propertyKeys)
  }

  function BaseType(op: map<string, Json>): string {
    if Get(op, "base_type").Str? then Upper(Get(op, "base_type").s) else ""
  }

  function IndexLabelFaults(op: map<string, Json>, names: Names): set<Fault> {
    (if BaseType(op) == "VERTEX" then
       When(!NameIn(Get(op, "base_label"), names.vertexLabels), UndefinedNames("base_label"))
     else if BaseType(op) == "EDGE" then
       When(!NameIn(Get(op, "base_label"), names.edgeLabels), UndefinedNames("base_label"))
     else {BadValue("base_type")})
    + ReferenceFaults(op, "fields", names.propertyKeys)
  }

  function Defined(names: Names, creation: Creation): set<string> {
    match creation
    case CreatePropertyKey => names.propertyKeys
    case CreateVertexLabel => names.vertexLabels
    case CreateEdgeLabel => names.edgeLabels
    case CreateIndexLabel => names.indexLabels
  }

  /** The checks that follow once the identifiers are in order. */
  function CreationFaults(op: map<string, Json>, creation: Creation, names: Names): set<Fault> {
    match creation
    case CreatePropertyKey => PropertyKeyFaults(op)
    case CreateVertexLabel => VertexLabelFaults(op, names.propertyKeys)
    case CreateEdgeLabel => EdgeLabelFaults(op, names.propertyKeys, names.vertexLabels)
    case CreateIndexLabel => IndexLabelFaults(op, names)
  }

  /** The checks of fields by themselves. */
  function FieldFaults(op: map<string, Json>, creation: Creation): set<Fault> {
    var parents := if creation == CreateEdgeLabel then PARENT_FIELDS else {};
    var labels := Get(op, "index_labels");
    When(!(op.Keys <= SupportedFields(creation) + parents), UnsupportedFields)
    + (set f | f in op && f in {"enable_label_index", "unique"} * SupportedFields(creation) && !op[f].Bool? ::
         WrongShape(f))
    + (set f | f in op && f in {"user_data"} * SupportedFields(creation) && !op[f].Object? :: WrongShape(f))
    + When(creation == CreateVertexLabel && "index_labels" in op
           && !(labels.List? && AllNames(labels.items) && !Repeats(labels.items)), WrongShape("index_labels"))
  }

  function MissingFields(op: map<string, Json>, creation: Creation): set<Fault> {
    set f | f in RequiredFields(creation) && IsBlank(Get(op, f)) :: MissingField(f)
  }

  predicate Identified(op: map<string, Json>, creation: Creation) {
    forall f | f in IdentifierFields(creation) :: IsIdentifier(Get(op, f))
  }

  /** One round of the validation loop: `live` is the schema before the batch, `available` adds
      what earlier operations create. */
  function OperationFaults(item: Json, live: Names, available: Names): set<Fault> {
    if !item.Object? then {NotAnOperation}
    else
      match CreationOf(item.fields)
      case None => {UnsupportedType}
      case Some(creation) =>
        var op := item.fields;
        FieldFaults(op, creation)
        + (if MissingFields(op, creation) != {} then MissingFields(op, creation)
           else if !Identified(op, creation) then {BadIdentifier}
           else
             When(NameIn(Get(op, "name"), Defined(live, creation)), AlreadyExists)
             + CreationFaults(op, creation, available))
  }

  // ---------- The two passes ----------

  /** The kind and name an operation plans to create, if it gives a name at all. */
  function Planned(item: Json): Option<(Creation, Json)> {
    if !item.Object? then None
    else
      match CreationOf(item.fields)
      case None => None
      case Some(creation) => if Falsy(Get(item.fields, "name")) then None
                             else Some((creation, Get(item.fields, "name")))
  }

  /** Operation `j` plans what an earlier one already planned. */
  predicate PlannedBefore(ops: seq<Json>, j: nat)
    requires j < |ops|
  {
    Planned(ops[j]).Some? && exists i :: 0 <= i < j && Planned(ops[i]) == Planned(ops[j])
  }

  function AddName(names: Names, creation: Creation, name: string): Names {
    match creation
    case CreatePropertyKey => names.(propertyKeys := names.propertyKeys + {name})
    case CreateVertexLabel => names.(vertexLabels := names.vertexLabels + {name})
    case CreateEdgeLabel => names.(edgeLabels := names.edgeLabels + {name})
    case CreateIndexLabel => names.(indexLabels := names.indexLabels + {name})
  }

  /** An operation becomes available once its identifiers are in order, whatever else is wrong. */
  predicate Reaches(item: Json) {
    item.Object? && CreationOf(item.fields).Some?
    && MissingFields(item.fields, CreationOf(item.fields).value) == {}
    && Identified(item.fields, CreationOf(item.fields).value)
  }

  function Offer(names: Names, item: Json): Names {
    if Reaches(item) && !CreationOf(item.fields).value.CreateIndexLabel? && Get(item.fields, "name").Str?
    then AddName(names, CreationOf(item.fields).value, Get(item.fields, "name").s)
    else names
  }

  function Available(live: Names, ops: seq<Json>, n: nat): Names
    requires n <= |ops|
  {
    if n == 0 then live else Offer(Available(live, ops, n - 1), ops[n - 1])
  }

  datatype Error = Error(index: nat, fault: Fault)

  function Errors(live: Names, ops: seq<Json>): set<Error> {
    (set j | 0 <= j < |ops| && PlannedBefore(ops, j) :: Error(j, DuplicateCreation))
    + (set j, f | 0 <= j < |ops| && f in OperationFaults(ops[j], live, Available(live, ops, j)) :: Error(j, f))
  }

  /** `_collect_planned_creates`. */
  method CollectPlannedCreates(ops: seq<Json>) returns (planned: set<(Creation, Json)>, errors: set<Error>)
    ensures errors == set j | 0 <= j < |ops| && PlannedBefore(ops, j) :: Error(j, DuplicateCreation)
    ensures forall p :: p in planned <==> exists i :: 0 <= i < |ops| && Planned(ops[i]) == Some(p)
  {
    hide Planned;
    planned, errors := {}, {};
    for j := 0 to |ops|
      invariant errors == set k | 0 <= k < j && PlannedBefore(ops, k) :: Error(k, DuplicateCreation)
      invariant forall p :: p in planned <==> exists i :: 0 <= i < j && Planned(ops[i]) == Some(p)
    {
      var plan := Planned(ops[j]);
      if plan.Some? {
        if plan.value in planned {
          errors := errors + {Error(j, DuplicateCreation)};
        } else {
          planned := planned + {plan.value};
        }
      }
    }
  }

  // ---------- The checks of one operation, step by step ----------

  /** `_duplicate_names`: each name that occurs again, once, in the order of its second occurrence. */
  method DuplicatedNames(items: seq<Json>) returns (duplicates: seq<Json>)
    ensures forall v :: v in duplicates <==> exists i, j :: 0 <= i < j < |items| && items[i] == v == items[j]
    ensures forall k, l :: 0 <= k < l < |duplicates| ==> duplicates[k] != duplicates[l]
  {
    var seen: set<Json> := {};
    duplicates := [];
    for n := 0 to |items|
      invariant forall v :: v in seen <==> v in items[..n]
      invariant forall v :: v in duplicates <==> exists i, j :: 0 <= i < j < n && items[i] == v == items[j]
      invariant forall k, l :: 0 <= k < l < |duplicates| ==> duplicates[k] != duplicates[l]
    {
      if items[n] in seen && items[n] !in duplicates {
        duplicates := duplicates + [items[n]];
      }
      seen := seen + {items[n]};
      assert items[..n + 1] == items[..n] + [items[n]];
    }
  }

  /** `_validate_property_references`. */
  method CheckReferences(op: map<string, Json>, field: string, propertyKeys: set<string>) returns (faults: set<Fault>)
    ensures faults == ReferenceFaults(op, field, propertyKeys)
  {
    var values := if field in op then op[field] else List([]);
    if IsBlank(values) {
      return {};
    }
    if !values.List? {
      return {NotAList(field)};
    }
    if !AllNames(values.items) {
      return {InvalidNames(field)};
    }
    var duplicates := DuplicatedNames(values.items);
    RepeatsMeans(values.items, duplicates);
    if duplicates != [] {
      return {DuplicateNames(field)};
    }
    faults := if exists name | name in values.items :: !NameIn(name, propertyKeys) then {UndefinedNames(field)} else {};
  }

  lemma RepeatsMeans(items: seq<Json>, duplicates: seq<Json>)
    requires forall v :: v in duplicates <==> exists i, j :: 0 <= i < j < |items| && items[i] == v == items[j]
    ensures duplicates != [] <==> Repeats(items)
  {
    if duplicates != [] {
      assert duplicates[0] in duplicates;
    }
    if Repeats(items) {
      var i, j :| 0 <= i < j < |items| && items[i] == items[j];
      assert items[i] in duplicates;
    }
  }

  /** `_validate_property_subset_references`. */
  method CheckSubset(op: map<string, Json>, field: string, propertyKeys: set<string>) returns (faults: set<Fault>)
    ensures faults == SubsetFaults(op, field, propertyKeys)
  {
    var values := Get(op, field);
    if values == Null {
      return {};
    }
    if !values.List? {
      return {NotAList(field)};
    }
    if values.items == [] {
      return {EmptyList(field)};
    }
    if !AllNames(values.items) {
      return {InvalidNames(field)};
    }
    var duplicates := DuplicatedNames(values.items);
    RepeatsMeans(values.items, duplicates);
    if duplicates != [] {
      return {DuplicateNames(field)};
    }
    faults := {};
    if exists name | name in values.items :: !NameIn(name, propertyKeys) {
      faults := faults + {UndefinedNames(field)};
    }
    var properties := PropertiesOf(op);
    if !properties.List? {
      return;
    }
    if exists name | name in values.items :: name !in properties.items {
      faults := faults + {NotInProperties(field)};
    }
  }

  /** `_validate_vertex_primary_keys`. */
  method CheckPrimaryKeys(op: map<string, Json>, strategy: Option<string>, propertyKeys: set<string>)
    returns (faults: set<Fault>)
    ensures faults == if strategy == Some("PRIMARY_KEY") then PrimaryKeyFaults(op, propertyKeys) else {}
  {
    if strategy != Some("PRIMARY_KEY") {
      return {};
    }
    var values := Get(op, "primary_keys");
    if Falsy(values) {
      return {MissingField("primary_keys")};
    }
    if !values.List? {
      return {NotAList("primary_keys")};
    }
    if !AllNames(values.items) {
      return {InvalidNames("primary_keys")};
    }
    var duplicates := DuplicatedNames(values.items);
    RepeatsMeans(values.items, duplicates);
    if duplicates != [] {
      return {DuplicateNames("primary_keys")};
    }
    faults := {};
    var properties := PropertiesOf(op);
    if !properties.List? {
      return;
    }
    if exists name | name in values.items :: name !in properties.items {
      faults := faults + {NotInProperties("primary_keys")};
    }
    if exists name | name in values.items :: !NameIn(name, propertyKeys) {
      faults := faults + {UndefinedNames("primary_keys")};
    }
  }

  /** `_validate_enum_field`, with a default or for a value that is not blank. */
  method CheckEnum(op: map<string, Json>, field: string, allowed: set<string>, default: Option<string>)
    returns (value: Option<string>, faults: set<Fault>)
    ensures default.Some? ==> value == Enumerated(op, field, allowed, default.value)
    ensures !IsBlank(Get(op, field)) ==> value == Enumerated(op, field, allowed, "")
    ensures IsBlank(Get(op, field)) && default.None? ==> value == None && faults == {}
    ensures default.Some? || !IsBlank(Get(op, field)) ==> faults == When(value.None?, BadValue(field))
  {
    var raw := Get(op, field);
    if raw == Null || raw == Str("") {
      return default, {};
    }
    if !raw.Str? {
      return None, {BadValue(field)};
    }
    var normalized := Upper(raw.s);
    if normalized !in allowed {
      return None, {BadValue(field)};
    }
    return Some(normalized), {};
  }

  method CheckPropertyKey(op: map<string, Json>) returns (faults: set<Fault>)
    ensures faults == PropertyKeyFaults(op)
  {
    hide Upper;
    var dataType, more := CheckEnum(op, "data_type", DATA_TYPES, Some("TEXT"));
    faults := more;
    var cardinality;
    cardinality, more := CheckEnum(op, "cardinality", CARDINALITIES, Some("SINGLE"));
    faults := faults + more;
    var aggregate := None;
    if !IsBlank(Get(op, "aggregate_type")) {
      aggregate, more := CheckEnum(op, "aggregate_type", AGGREGATE_TYPES, None);
      faults := faults + more;
    }
    if aggregate.Some? && (cardinality.None? || cardinality.value !in AggregateCardinalities(aggregate.value)) {
      faults := faults + {AggregateMismatch};
    }
  }

  method CheckVertexLabel(op: map<string, Json>, propertyKeys: set<string>) returns (faults: set<Fault>)
    ensures faults == VertexLabelFaults(op, propertyKeys)
  {
    hide Enumerated, ReferenceFaults, PrimaryKeyFaults, SubsetFaults;
    var strategy, more := CheckEnum(op, "id_strategy", ID_STRATEGIES, Some("PRIMARY_KEY"));
    faults := more;
    more := CheckReferences(op, "properties", propertyKeys);
    faults := faults + more;
    more := CheckPrimaryKeys(op, strategy, propertyKeys);
    faults := faults + more;
    more := CheckSubset(op, "nullable_keys", propertyKeys);
    faults := faults + more;
  }

  method CheckEdgeLabel(op: map<string, Json>, propertyKeys: set<string>, vertexLabels: set<string>)
    returns (faults: set<Fault>)
    ensures faults == EdgeLabelFaults(op, propertyKeys, vertexLabels)
  {
    hide ReferenceFaults, SubsetFaults, Upper;
    faults := if exists f | f in PARENT_FIELDS :: f in op then {UnsupportedFields} else {};
    assert forall f :: f in op.Keys * PARENT_FIELDS <==> f in PARENT_FIELDS && f in op;
    for k := 0 to 2
      invariant faults == When(op.Keys * PARENT_FIELDS != {}, UnsupportedFields)
                          + (if k > 0 then
                               When(!NameIn(Get(op, "source_label"), vertexLabels), UndefinedNames("source_label"))
                               else {})
                          + (if k > 1 then
                               When(!NameIn(Get(op, "target_label"), vertexLabels), UndefinedNames("target_label"))
                               else {})
    {
      var field := ["source_label", "target_label"][k];
      if !NameIn(Get(op, field), vertexLabels) {
        faults := faults + {UndefinedNames(field)};
      }
    }
    if !IsBlank(Get(op, "frequency")) {
      var frequency, wrong := CheckEnum(op, "frequency", FREQUENCIES, None);
      faults := faults + wrong;
    }
    var more := CheckReferences(op, "properties", propertyKeys);
    faults := faults + more;
    more := CheckSubset(op, "nullable_keys", propertyKeys);
    faults := faults + more;
    more := CheckSubset(op, "sort_keys", propertyKeys);
    faults := faults + more;
  }

  method CheckIndexLabel(op: map<string, Json>, names: Names) returns (faults: set<Fault>)
    ensures faults == IndexLabelFaults(op, names)
  {
    hide ReferenceFaults;
    var baseType, baseLabel := BaseType(op), Get(op, "base_label");
    faults := {};
    if baseType == "VERTEX" {
      if !NameIn(baseLabel, names.vertexLabels) {
        faults := {UndefinedNames("base_label")};
      }
    } else if baseType == "EDGE" {
      if !NameIn(baseLabel, names.edgeLabels) {
        faults := {UndefinedNames("base_label")};
      }
    } else {
      faults := {BadValue("base_type")};
    }
    var more := CheckReferences(op, "fields", names.propertyKeys);
    faults := faults + more;
  }

  /** `_validate_supported_fields`, the loop over the field table, and `_validate_index_labels_field`. */
  method CheckFields(op: map<string, Json>, creation: Creation) returns (faults: set<Fault>)
    ensures faults == FieldFaults(op, creation)
  {
    var supported := SupportedFields(creation);
    faults := {};
    if exists f | f in op.Keys :: f !in supported && !(creation == CreateEdgeLabel && f in PARENT_FIELDS) {
      faults := {UnsupportedFields};
    }
    var misshapen := CheckShapes(op, supported);
    faults := faults + misshapen;
    if creation == CreateVertexLabel {
      var more := CheckIndexLabels(op);
      faults := faults + more;
    }
  }

  method CheckShapes(op: map<string, Json>, supported: set<string>) returns (faults: set<Fault>)
    ensures faults == (set f | f in op && f in {"enable_label_index", "unique"} * supported && !op[f].Bool? ::
                         WrongShape(f))
                      + (set f | f in op && f in {"user_data"} * supported && !op[f].Object? :: WrongShape(f))
  {
    faults := {};
    var rest := supported;
    while rest != {}
      invariant rest <= supported
      invariant faults == (set f | f in op && f in {"enable_label_index", "unique"} * (supported - rest)
                           && !op[f].Bool? :: WrongShape(f))
                          + (set f | f in op && f in {"user_data"} * (supported - rest) && !op[f].Object? ::
                               WrongShape(f))
    {
      var field :| field in rest;
      rest := rest - {field};
      if field in {"enable_label_index", "unique"} {
        if field in op && !op[field].Bool? {
          faults := faults + {WrongShape(field)};
        }
      } else if field == "user_data" {
        if field in op && !op[field].Object? {
          faults := faults + {WrongShape(field)};
        }
      }
    }
  }

  method CheckIndexLabels(op: map<string, Json>) returns (faults: set<Fault>)
    ensures var labels := Get(op, "index_labels");
            faults == When("index_labels" in op && !(labels.List? && AllNames(labels.items) && !Repeats(labels.items)),
                           WrongShape("index_labels"))
  {
    if "index_labels" !in op {
      return {};
    }
    var labels := op["index_labels"];
    if !labels.List? || !AllNames(labels.items) {
      return {WrongShape("index_labels")};
    }
    var duplicates := DuplicatedNames(labels.items);
    RepeatsMeans(labels.items, duplicates);
    faults := if duplicates != [] then {WrongShape("index_labels")} else {};
  }

  method CheckRequired(op: map<string, Json>, creation: Creation) returns (faults: set<Fault>)
    ensures faults == MissingFields(op, creation)
  {
    var fields := RequiredFields(creation);
    faults := {};
    for k := 0 to |fields|
      invariant faults == set f | f in fields[..k] && IsBlank(Get(op, f)) :: MissingField(f)
    {
      if fields[k] !in op || op[fields[k]] in {Null, Str("")} {
        faults := faults + {MissingField(fields[k])};
      }
      assert fields[..k + 1] == fields[..k] + [fields[k]];
    }
    assert fields[..|fields|] == fields;
  }

  /** `_validate_identifier_field` for one field after the other, up to the first that fails. */
  method CheckIdentifiers(op: map<string, Json>, creation: Creation) returns (ok: bool)
    ensures ok == Identified(op, creation)
  {
    hide IsIdentifier;
    var fields := IdentifierFields(creation);
    for k := 0 to |fields|
      invariant forall f :: f in fields[..k] ==> IsIdentifier(Get(op, f))
    {
      if !IsIdentifier(Get(op, fields[k])) {
        assert fields[k] in fields;
        return false;
      }
      assert fields[..k + 1] == fields[..k] + [fields[k]];
    }
    assert fields[..|fields|] == fields;
    ok := true;
  }

  method CheckCreation(op: map<string, Json>, creation: Creation, live: Names, available: Names)
    returns (faults: set<Fault>)
    ensures faults == When(NameIn(Get(op, "name"), Defined(live, creation)), AlreadyExists)
            + CreationFaults(op, creation, available)
  {
    hide PropertyKeyFaults, VertexLabelFaults, EdgeLabelFaults, IndexLabelFaults;
    faults := if NameIn(Get(op, "name"), Defined(live, creation)) then {AlreadyExists} else {};
    var more;
    match creation {
      case CreatePropertyKey => more := CheckPropertyKey(op);
      case CreateVertexLabel => more := CheckVertexLabel(op, available.propertyKeys);
      case CreateEdgeLabel => more := CheckEdgeLabel(op, available.propertyKeys, available.vertexLabels);
      case CreateIndexLabel => more := CheckIndexLabel(op, available);
    }
    faults := faults + more;
  }

  /** One round of the loop, up to where the operation may become available (`reached`). */
  method CheckOperation(item: Json, live: Names, available: Names) returns (faults: set<Fault>, reached: bool)
    ensures faults == OperationFaults(item, live, available) && reached == Reaches(item)
  {
    hide CreationOf, FieldFaults, MissingFields, Identified, NameIn, CreationFaults;
    if !item.Object? {
      return {NotAnOperation}, false;
    }
    var op := item.fields;
    var creation := CreationOf(op);
    if creation.None? {
      return {UnsupportedType}, false;
    }
    faults := CheckFields(op, creation.value);
    var missing := CheckRequired(op, creation.value);
    if missing != {} {
      return faults + missing, false;
    }
    var identified := CheckIdentifiers(op, creation.value);
    if !identified {
      return faults + {BadIdentifier}, false;
    }
    var more := CheckCreation(op, creation.value, live, available);
    return faults + more, true;
  }

  /** `validate_schema_operations`, given the names of the live schema. */
  method ValidateSchemaOperations(ops: seq<Json>, live: Names) returns (valid: bool, errors: set<Error>)
    ensures errors == Errors(live, ops) && valid == (errors == {})
  {
    hide OperationFaults, Offer, Reaches, CreationOf, Planned, PlannedBefore;
    var planned, duplicates := CollectPlannedCreates(ops);
    errors := duplicates;
    var available := live;
    for j := 0 to |ops|
      invariant available == Available(live, ops, j)
      invariant errors == duplicates
                + (set k, f | 0 <= k < j && f in OperationFaults(ops[k], live, Available(live, ops, k)) :: Error(k, f))
    {
      var item := ops[j];
      var faults, reached := CheckOperation(item, live, available);
      errors := errors + (set f | f in faults :: Error(j, f));
      if reached {
        NamePlanned(item);
        var creation, name := CreationOf(item.fields).value, Get(item.fields, "name").s;
        if !creation.CreateIndexLabel? && (creation, Get(item.fields, "name")) in planned {
          available := AddName(available, creation, name);
        }
      }
      OfferIs(Available(live, ops, j), item);
    }
    valid := errors == {};
  }

  lemma OfferIs(names: Names, item: Json)
    ensures !Reaches(item) ==> Offer(names, item) == names
    ensures Reaches(item) ==>
              && CreationOf(item.fields).Some? && Get(item.fields, "name").Str?
              && Offer(names, item) == if CreationOf(item.fields).value.CreateIndexLabel? then names
                                       else AddName(names, CreationOf(item.fields).value, Get(item.fields, "name").s)
  {
  }

  lemma NamePlanned(item: Json)
    requires Reaches(item)
    ensures item.Object? && CreationOf(item.fields).Some? && Get(item.fields, "name").Str?
    ensures Planned(item) == Some((CreationOf(item.fields).value, Get(item.fields, "name")))
  {
  }
}
