/** Property-graph entries as JSON, the schema they are checked against, scalar values and
    identities (property_graph.py). */
module PropertySchema {
  import opened Wrappers
  import opened Powers
  import opened Float32

  // ---------- JSON and the schema ----------

  /** A parsed JSON value; parsing has refused numbers that are not finite. */
  datatype Json =
    | Null
    | Bool(b: bool)
    | Int(n: int)
    | Float(number: Number)
    | Str(s: string)
    | List(items: seq<Json>)
    | Object(fields: map<string, Json>)

  /** `dict.get`. */
  function Get(fields: map<string, Json>, key: string): Json {
    if key in fields then fields[key] else Null
  }

  /** A vertex or edge label; absent entries of the definition are None. */
  datatype Definition = Definition(
    idStrategy: Option<string>, primaryKeys: seq<string>, sortKeys: set<string>,
    properties: Option<set<string>>, nullableKeys: Option<set<string>>,
    sourceLabel: Option<string>, targetLabel: Option<string>)

  datatype PropertyKey = PropertyKey(dataType: Option<string>, cardinality: Option<string>)

  datatype Schema = Schema(
    vertexLabels: map<string, Definition>, edgeLabels: map<string, Definition>, propertyKeys: map<string, PropertyKey>)

  /** The code this model does not look into: text dates as UTC milliseconds, UUID spellings,
      the hexadecimal form of a double, JSON text, and the identifier made of primary keys. */
  datatype Readers = Readers(
    date: string -> Option<int>,
    uuid: string -> Option<nat>,
    hex: Json -> string,
    dump: Json -> string,
    primaryKeyId: (Definition, map<string, Json>) -> Option<Json>)

  function Lookup(labels: map<string, Definition>, name: Json): Option<Definition> {
    if name.Str? && name.s in labels then Some(labels[name.s]) else None
  }

  function KeyOf(schema: Schema, key: string): PropertyKey {
    if key in schema.propertyKeys then schema.propertyKeys[key] else PropertyKey(None, None)
  }

  function Upper(s: string): (upper: string)
    ensures |upper| == |s|
  {
    seq(|s|, k requires 0 <= k < |s| => if 'a' <= s[k] <= 'z' then ((s[k] as int) - 32) as char else s[k])
  }

  /** `_primary_keys`. */
  function PrimaryKeys(definition: Definition): seq<string> {
    match definition.idStrategy
    case None => definition.primaryKeys
    case Some(strategy) => if strategy == "" || Upper(strategy) == "PRIMARY_KEY" then definition.primaryKeys else []
  }

  // ---------- Scalars ----------

  /** `_valid_id`: a non-empty string or an integer. */
  predicate ValidId(value: Json) {
    (value.Str? && value.s != "") || value.Int?
  }

  datatype Domain = Epoch | Wall

  predicate FitsSigned(n: int, bits: nat)
    requires bits > 0
  {
    0 - Pow2(bits - 1) <= n < Pow2(bits - 1)
  }

  /** `_date_identity`: epoch milliseconds as they are, text dates read as UTC. */
  function DateIdentity(readers: Readers, value: Json): Option<(Domain, int)> {
    match value
    case Int(n) => if FitsSigned(n, 64) then Some((Epoch, n)) else None
    case Str(s) => (match readers.date(s) case Some(ms) => Some((Wall, ms)) case None => None)
    case _ => None
  }

  function Magnitude(n: int): nat {
    if n < 0 then -n else n
  }

  /** Converting to a double does not overflow: below the midpoint above the greatest double. */
  predicate FitsDouble(n: int) {
    Magnitude(n) < Pow2(1024) - Pow2(970)
  }

  function AsNumber(value: Json): Option<Number> {
    match value
    case Int(n) => if FitsDouble(n) then Some(Number(n < 0, Magnitude(n), 1)) else None
    case Float(number) => if number.denominator > 0 then Some(number) else None
    case _ => None
  }

  /** `_valid_scalar`. */
  predicate ValidScalar(readers: Readers, value: Json, dataType: string) {
    if dataType == "TEXT" then value.Str?
    else if dataType == "UUID" then value.Str? && readers.uuid(value.s).Some?
    else if dataType == "BOOLEAN" then value.Bool?
    else if dataType == "BYTE" then value.Int? && FitsSigned(value.n, 8)
    else if dataType == "INT" then value.Int? && FitsSigned(value.n, 32)
    else if dataType == "LONG" then value.Int? && FitsSigned(value.n, 64)
    else if dataType == "DOUBLE" then AsNumber(value).Some?
    else if dataType == "FLOAT" then AsNumber(value).Some? && ValidFloat(AsNumber(value).value)
    else if dataType == "DATE" then DateIdentity(readers, value).Some?
    else value != Null
  }

  // ---------- Identities ----------

  datatype KeyIdentity =
    | DateKey(domain: Domain, ms: int)
    | UuidKey(uuid: nat)
    | FloatKey(signed: bool, units: nat)
    | DoubleKey(hex: string)
    | TextKey(dataType: Option<string>, text: string)

  /** `_primary_identity`. */
  function PrimaryIdentity(schema: Schema, readers: Readers, key: string, value: Json): KeyIdentity {
    var dataType := KeyOf(schema, key).dataType;
    var plain := TextKey(dataType, readers.dump(value));
    match dataType
    case None => plain
    case Some(name) =>
      if name == "DATE" then
        (match DateIdentity(readers, value) case Some((domain, ms)) => DateKey(domain, ms) case None => plain)
      else if name == "" || !ValidScalar(readers, value, name) then plain
      else if name == "UUID" then UuidKey(readers.uuid(value.s).value)
      else if name == "FLOAT" then
        var identity := FloatIdentity(AsNumber(value).value);
        FloatKey(identity.0, identity.1)
      else if name == "DOUBLE" then DoubleKey(readers.hex(value))
      else plain
  }

  datatype Identity = UuidId(uuid: nat) | StringId(id: Json) | NumberId(id: Json)

  /** `_vertex_identity`. */
  function VertexIdentity(readers: Readers, id: Json, definition: Option<Definition>): (identity: Option<Identity>)
    ensures identity.Some? ==> ValidId(id)
  {
    var strategy := if definition.Some? then definition.value.idStrategy else None;
    if !ValidId(id) then None
    else if strategy == Some("CUSTOMIZE_UUID") then
      if id.Str? && readers.uuid(id.s).Some? then Some(UuidId(readers.uuid(id.s).value)) else None
    else if strategy == Some("CUSTOMIZE_STRING") || strategy == Some("PRIMARY_KEY") then Some(StringId(id))
    else if strategy == Some("CUSTOMIZE_NUMBER") then Some(NumberId(id))
    else Some(if id.Str? then StringId(id) else NumberId(id))
  }

  // ---------- Issues ----------

  datatype Kind = Vertex | Edge

  datatype Problem =
    | AmbiguousAlias(name: string, id: Json)
    | NotAnObject
    | WrongType
    | UnknownLabel
    | PropertiesNotAnObject
    | MissingProperty(key: string)
    | UndeclaredProperty(key: string)
    | NullProperty(key: string)
    | ExpectedArray(key: string)
    | DuplicateElements(key: string)
    | ExpectedScalar(key: string)
    | WrongDataType(key: string)
    | DuplicatePrimaryKey
    | AmbiguousDate
    | InvalidId
    | DuplicateId
    | StrategyMismatch
    | DanglingEndpoint(endpoint: string)
    | WrongEndpointLabel(endpoint: string)
    | WrongDirection(endpoint: string)

  /** What is wrong with the entry at `index` of one of the two lists. */
  datatype Issue = Issue(kind: Kind, index: nat, problem: Problem)
}
