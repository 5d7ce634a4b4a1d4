/** Validation of a property graph against its schema (property_graph.py, `validate`): which
    problems an entry has, given the entries before it, and the method that finds them. */
module GraphValidation {
  import opened Wrappers
  import opened PropertySchema
  import opened GraphNormalization

  // ---------- Properties ----------

  predicate Blank(value: Json) {
    value == Null || value == Str("")
  }

  function Required(definition: Definition): set<string> {
    (set key | key in PrimaryKeys(definition)) + definition.sortKeys
    + (if definition.properties.Some? && definition.nullableKeys.Some?
       then definition.properties.value - definition.nullableKeys.value else {})
  }

  function Optionally(condition: bool, problem: Problem): set<Problem> {
    if condition then {problem} else {}
  }

  predicate IllTyped(readers: Readers, dataType: Option<string>, values: seq<Json>) {
    dataType.Some? && dataType.value != "" && exists v | v in values :: !ValidScalar(readers, v, dataType.value)
  }

  predicate HasDuplicates(readers: Readers, values: seq<Json>) {
    |set v | v in values :: readers.dump(v)| != |values|
  }

  function ValueProblems(schema: Schema, readers: Readers, definition: Definition, key: string,
                         value: Json): set<Problem> {
    var PropertyKey(dataType, cardinality) := KeyOf(schema, key);
    Optionally(definition.properties.Some? && key !in definition.properties.value, UndeclaredProperty(key))
    + (if value == Null then Optionally(key !in Required(definition), NullProperty(key))
       else if cardinality == Some("LIST") || cardinality == Some("SET") then
         if !value.List? then {ExpectedArray(key)}
         else
           Optionally(cardinality == Some("SET") && HasDuplicates(readers, value.items), DuplicateElements(key))
           + Optionally(IllTyped(readers, dataType, value.items), WrongDataType(key))
       else
         var values := if cardinality.None? && value.List? then value.items else [value];
         Optionally(cardinality == Some("SINGLE") && (dataType.None? || dataType.value == "")
                    && (value.Object? || value.List?),
                    ExpectedScalar(key))
         + Optionally(IllTyped(readers, dataType, values), WrongDataType(key)))
  }

  function PropertyProblems(schema: Schema, readers: Readers, definition: Definition,
                            properties: map<string, Json>): set<Problem> {
    (set key | key in Required(definition) && Blank(Get(properties, key)) :: MissingProperty(key))
    + (set key, p | key in properties && p in ValueProblems(schema, readers, definition, key, properties[key]) :: p)
  }

  /** The checks of one given property, in the order of `_validate_properties`. */
  method CheckValue(schema: Schema, readers: Readers, definition: Definition, required: set<string>, key: string,
                    value: Json)
    returns (problems: set<Problem>)
    requires required == Required(definition)
    ensures problems == ValueProblems(schema, readers, definition, key, value)
  {
    hide ValidScalar, IllTyped, HasDuplicates;
    problems := {};
    if definition.properties.Some? && key !in definition.properties.value {
      problems := problems + {UndeclaredProperty(key)};
    }
    if value == Null {
      if key !in required {
        problems := problems + {NullProperty(key)};
      }
      return;
    }
    var PropertyKey(dataType, cardinality) := KeyOf(schema, key);
    var values;
    if cardinality in {Some("LIST"), Some("SET")} {
      if !value.List? {
        return problems + {ExpectedArray(key)};
      }
      if cardinality == Some("SET") && HasDuplicates(readers, value.items) {
        problems := problems + {DuplicateElements(key)};
      }
      values := value.items;
    } else {
      values := if cardinality.None? && value.List? then value.items else [value];
      if cardinality == Some("SINGLE") && (dataType.None? || dataType.value == "") && (value.Object? || value.List?) {
        problems := problems + {ExpectedScalar(key)};
      }
    }
    if IllTyped(readers, dataType, values) {
      problems := problems + {WrongDataType(key)};
    }
  }

  /** `_validate_properties`. */
  method ValidateProperties(schema: Schema, readers: Readers, definition: Definition, properties: map<string, Json>)
    returns (problems: set<Problem>)
    ensures problems == PropertyProblems(schema, readers, definition, properties)
  {
    hide ValueProblems, Required;
    var required := Required(definition);
    problems := {};
    var rest := required;
    while rest != {}
      invariant rest <= required
      invariant problems == set key | key in required - rest && Blank(Get(properties, key)) :: MissingProperty(key)
    {
      var key :| key in rest;
      if key !in properties || Blank(properties[key]) {
        problems := problems + {MissingProperty(key)};
      }
      rest := rest - {key};
    }
    ghost var missing := problems;
    rest := properties.Keys;
    while rest != {}
      invariant rest <= properties.Keys
      invariant problems == missing
        + (set key, p | key in properties.Keys - rest
           && p in ValueProblems(schema, readers, definition, key, properties[key]) :: p)
    {
      var key :| key in rest;
      var found := CheckValue(schema, readers, definition, required, key, properties[key]);
      problems := problems + found;
      rest := rest - {key};
    }
  }

  // ---------- Entries ----------

  function KindName(kind: Kind): string {
    match kind case Vertex => "vertex" case Edge => "edge"
  }

  function Labels(schema: Schema, kind: Kind): map<string, Definition> {
    match kind case Vertex => schema.vertexLabels case Edge => schema.edgeLabels
  }

  function DefinitionOf(schema: Schema, kind: Kind, item: map<string, Json>): Option<Definition> {
    Lookup(Labels(schema, kind), Get(item, "label"))
  }

  function EntryProblems(schema: Schema, readers: Readers, kind: Kind, item: map<string, Json>): set<Problem> {
    var definition, properties := DefinitionOf(schema, kind, item), Get(item, "properties");
    Optionally("type" in item && item["type"] != Str(KindName(kind)), WrongType)
    + Optionally(definition.None?, UnknownLabel)
    + Optionally(!properties.Object?, PropertiesNotAnObject)
    + (if definition.Some? && properties.Object? then
         PropertyProblems(schema, readers, definition.value, properties.fields) else {})
  }

  /** The checks of one entry by itself. */
  method CheckEntry(schema: Schema, readers: Readers, kind: Kind, item: map<string, Json>)
    returns (problems: set<Problem>)
    ensures problems == EntryProblems(schema, readers, kind, item)
  {
    hide PropertyProblems;
    problems := {};
    if "type" in item && item["type"] != Str(KindName(kind)) {
      problems := problems + {WrongType};
    }
    var definition := DefinitionOf(schema, kind, item);
    if definition.None? {
      problems := problems + {UnknownLabel};
    }
    var properties := Get(item, "properties");
    if !properties.Object? {
      problems := problems + {PropertiesNotAnObject};
    } else if definition.Some? {
      var found := ValidateProperties(schema, readers, definition.value, properties.fields);
      problems := problems + found;
    }
  }

  // ---------- Primary keys ----------

  type KeyTuple = (string, seq<KeyIdentity>)

  predicate IsDate(schema: Schema, key: string) {
    KeyOf(schema, key).dataType == Some("DATE")
  }

  /** The identities of the key values, in key order: all of them, or those of one sort. */
  function Identities(schema: Schema, readers: Readers, keys: seq<string>,
                      properties: map<string, Json>): (all: seq<KeyIdentity>)
    ensures |all| == |keys|
  {
    seq(|keys|, k requires 0 <= k < |keys| => PrimaryIdentity(schema, readers, keys[k], Get(properties, keys[k])))
  }

  function Sorted(schema: Schema, keys: seq<string>, dates: bool): seq<string> {
    if keys == [] then []
    else (if IsDate(schema, keys[0]) == dates then [keys[0]] else []) + Sorted(schema, keys[1..], dates)
  }

  /** The primary keys of a vertex with its values for them, when all are there. */
  function KeysOf(schema: Schema, item: Json): Option<(seq<string>, map<string, Json>)> {
    if !item.Object? then None
    else
      var definition, properties := DefinitionOf(schema, Vertex, item.fields), Get(item.fields, "properties");
      if definition.None? || !properties.Object? then None
      else
        var keys := PrimaryKeys(definition.value);
        if keys != [] && forall key | key in keys ::
             !Blank(Get(properties.fields, key)) then Some((keys, properties.fields)) else None
  }

  function LabelOf(item: Json): string {
    if item.Object? && Get(item.fields, "label").Str? then Get(item.fields, "label").s else ""
  }

  function PrimaryTuple(schema: Schema, readers: Readers, item: Json): Option<KeyTuple> {
    match KeysOf(schema, item)
    case None => None
    case Some((keys, properties)) => Some((LabelOf(item), Identities(schema, readers, keys, properties)))
  }

  /** The identities of the dates among the primary keys, when there are any and all are dates. */
  function Dates(schema: Schema, readers: Readers, item: Json): (dates: Option<seq<KeyIdentity>>)
    ensures dates.Some? ==> forall d :: d in dates.value ==> d.DateKey?
  {
    match KeysOf(schema, item)
    case None => None
    case Some((keys, properties)) =>
      var dates := Identities(schema, readers, Sorted(schema, keys, true), properties);
      if dates != [] && forall d | d in dates :: d.DateKey? then Some(dates) else None
  }

  /** The label and the identities of the other primary keys. */
  function Group(schema: Schema, readers: Readers, item: Json): KeyTuple {
    match KeysOf(schema, item)
    case None => ("", [])
    case Some((keys, properties)) => (LabelOf(item),
                                      Identities(schema, readers, Sorted(schema, keys, false), properties))
  }

  const MILLISECONDS_PER_DAY := 86_400_000

  /** Two dates that one reading of the server's time zone could make equal. */
  predicate MayAgree(current: KeyIdentity, previous: KeyIdentity)
    requires current.DateKey? && previous.DateKey?
  {
    if current.domain == previous.domain then current == previous
    else -MILLISECONDS_PER_DAY < current.ms - previous.ms < MILLISECONDS_PER_DAY
  }

  predicate Clash(current: seq<KeyIdentity>, previous: seq<KeyIdentity>)
    requires forall d :: d in current || d in previous ==> d.DateKey?
  {
    var n := if |current| < |previous| then |current| else |previous|;
    && (exists k :: 0 <= k < n && current[k].domain != previous[k].domain)
    && (forall k :: 0 <= k < n ==> MayAgree(current[k], previous[k]))
  }

  // ---------- Vertices ----------

  function IdentityOf(schema: Schema, readers: Readers, item: Json): Option<Identity> {
    if !item.Object? then None
    else VertexIdentity(readers, Get(item.fields, "id"), DefinitionOf(schema, Vertex, item.fields))
  }

  predicate SameDates(schema: Schema, readers: Readers, item: Json, earlier: Json) {
    && Dates(schema, readers, item).Some? && Dates(schema, readers, earlier).Some?
    && Group(schema, readers, item) == Group(schema, readers, earlier)
    && Clash(Dates(schema, readers, item).value, Dates(schema, readers, earlier).value)
  }

  function StrategyProblems(readers: Readers, id: Json, strategy: Option<string>): set<Problem> {
    Optionally(strategy == Some("CUSTOMIZE_STRING") && !id.Str?, StrategyMismatch)
    + Optionally(strategy == Some("CUSTOMIZE_NUMBER") && !ValidScalar(readers, id, "LONG"), StrategyMismatch)
    + Optionally(strategy == Some("CUSTOMIZE_UUID") && !ValidScalar(readers, id, "UUID"), StrategyMismatch)
  }

  function Strategy(schema: Schema, item: map<string, Json>): Option<string> {
    match DefinitionOf(schema, Vertex, item) case None => None case Some(definition) => definition.idStrategy
  }

  /** The problems of vertex `j`; some depend on the vertices before it. */
  ghost function VertexProblems(schema: Schema, readers: Readers, vertices: seq<Json>, j: nat): set<Problem>
    requires j < |vertices|
  {
    var item := vertices[j];
    if !item.Object? then {NotAnObject}
    else
      var key, identity := PrimaryTuple(schema, readers, item), IdentityOf(schema, readers, item);
      EntryProblems(schema, readers, Vertex, item.fields)
      + Optionally(key.Some? && exists i :: 0 <= i < j && PrimaryTuple(schema, readers, vertices[i]) == key,
                   DuplicatePrimaryKey)
      + Optionally(exists i :: 0 <= i < j && SameDates(schema, readers, item, vertices[i]), AmbiguousDate)
      + Optionally(!ValidId(Get(item.fields, "id")), InvalidId)
      + Optionally(identity.Some? && exists i :: 0 <= i < j && IdentityOf(schema, readers, vertices[i]) == identity,
                   DuplicateId)
      + StrategyProblems(readers, Get(item.fields, "id"), Strategy(schema, item.fields))
  }

  // ---------- Edges ----------

  /** The first vertex with the identity. */
  function Find(schema: Schema, readers: Readers, vertices: seq<Json>, identity: Option<Identity>): (found: Option<nat>)
    ensures found.Some? ==>
              found.value < |vertices| && identity.Some?
              && IdentityOf(schema, readers, vertices[found.value]) == identity
    ensures found.None? && identity.Some? ==>
              forall i :: 0 <= i < |vertices| ==> IdentityOf(schema, readers, vertices[i]) != identity
  {
    if vertices == [] || identity.None? then None
    else
      var earlier := Find(schema, readers, vertices[..|vertices| - 1], identity);
      if earlier.Some? then earlier
      else if IdentityOf(schema, readers, vertices[|vertices| - 1]) == identity then Some(|vertices| - 1)
      else None
  }

  /** The vertex an edge names by label and identifier. */
  function Endpoint(schema: Schema, readers: Readers, vertices: seq<Json>, edge: map<string, Json>, endpoint: string,
                    labelKey: string): Option<nat> {
    Find(schema, readers, vertices,
         VertexIdentity(readers, Get(edge, endpoint), Lookup(schema.vertexLabels, Get(edge, labelKey))))
  }

  function EndpointProblems(schema: Schema, readers: Readers, vertices: seq<Json>, edge: map<string, Json>,
                            endpoint: string, labelKey: string, declared: Option<string>): set<Problem> {
    var name, vertex := Get(edge, labelKey), Endpoint(schema, readers, vertices, edge, endpoint, labelKey);
    Optionally(vertex.None?, DanglingEndpoint(endpoint))
    + Optionally(!name.Str? || (vertex.Some? && Get(vertices[vertex.value].fields, "label") != name),
                 WrongEndpointLabel(endpoint))
    + Optionally(declared.Some? && name != Str(declared.value), WrongDirection(endpoint))
  }

  function EdgeProblems(schema: Schema, readers: Readers, vertices: seq<Json>, item: Json): set<Problem> {
    if !item.Object? then {NotAnObject}
    else
      var definition := DefinitionOf(schema, Edge, item.fields);
      EntryProblems(schema, readers, Edge, item.fields)
      + EndpointProblems(schema, readers, vertices, item.fields, "outV", "outVLabel",
                         if definition.Some? then definition.value.sourceLabel else None)
      + EndpointProblems(schema, readers, vertices, item.fields, "inV", "inVLabel",
                         if definition.Some? then definition.value.targetLabel else None)
  }

  // ---------- The whole graph ----------

  ghost function VertexIssues(schema: Schema, readers: Readers, vertices: seq<Json>, n: nat): set<Issue>
    requires n <= |vertices|
  {
    set j, p | 0 <= j < n && p in VertexProblems(schema, readers, vertices, j) :: Issue(Vertex, j, p)
  }

  ghost function EdgeIssues(schema: Schema, readers: Readers, vertices: seq<Json>, edges: seq<Json>, n: nat): set<Issue>
    requires n <= |edges|
  {
    set j, p | 0 <= j < n && p in EdgeProblems(schema, readers, vertices, edges[j]) :: Issue(Edge, j, p)
  }

  // ---------- The methods ----------

  /** What the vertices seen so far left behind. */
  ghost predicate Remembers(schema: Schema, readers: Readers, seen: seq<Json>, byId: map<Identity, Json>,
                            keys: set<KeyTuple>, dates: map<KeyTuple, seq<seq<KeyIdentity>>>) {
    && RemembersIds(schema, readers, seen, byId)
    && (forall key :: key in keys <==>
          exists i :: 0 <= i < |seen| && PrimaryTuple(schema, readers, seen[i]) == Some(key))
    && RemembersDates(schema, readers, seen, dates)
  }

  ghost predicate RemembersIds(schema: Schema, readers: Readers, seen: seq<Json>, byId: map<Identity, Json>) {
    forall id ::
      match Find(schema, readers, seen, Some(id))
      case None => id !in byId
      case Some(i) => id in byId && byId[id] == seen[i]
  }

  ghost predicate RemembersDates(schema: Schema, readers: Readers, seen: seq<Json>,
                                 dates: map<KeyTuple, seq<seq<KeyIdentity>>>) {
    forall g, d :: Listed(dates, g, d) <==> exists i :: 0 <= i < |seen| && DatedAs(schema, readers, seen[i], g, d)
  }

  predicate Listed(dates: map<KeyTuple, seq<seq<KeyIdentity>>>, group: KeyTuple, own: seq<KeyIdentity>) {
    group in dates && own in dates[group]
  }

  ghost predicate DatedAs(schema: Schema, readers: Readers, item: Json, group: KeyTuple, dates: seq<KeyIdentity>) {
    Dates(schema, readers, item) == Some(dates) && Group(schema, readers, item) == group
  }

  lemma RemembersIdsSnoc(schema: Schema, readers: Readers, seen: seq<Json>, byId: map<Identity, Json>, item: Json)
    requires RemembersIds(schema, readers, seen, byId)
    ensures var identity := IdentityOf(schema, readers, item);
            RemembersIds(schema, readers, seen + [item],
                         if identity.Some? && identity.value !in byId then byId[identity.value := item] else byId)
  {
  }

  lemma RemembersDatesSnoc(schema: Schema, readers: Readers, seen: seq<Json>,
                           dates: map<KeyTuple, seq<seq<KeyIdentity>>>, item: Json)
    requires RemembersDates(schema, readers, seen, dates)
    ensures var group, own := Group(schema, readers, item), Dates(schema, readers, item);
            RemembersDates(schema, readers, seen + [item],
                           if own.None? then dates
                           else dates[group := (if group in dates then dates[group] else []) + [own.value]])
  {
    hide Group, Dates;
    var group, own := Group(schema, readers, item), Dates(schema, readers, item);
    var longer := seen + [item];
    var after := if own.None? then dates
                 else dates[group := (if group in dates then dates[group] else []) + [own.value]];
    forall g, d
      ensures Listed(after, g, d) <==> exists i :: 0 <= i < |longer| && DatedAs(schema, readers, longer[i], g, d)
    {
      DatedSnoc(schema, readers, seen, item, g, d);
      assert Listed(after, g, d) <==> Listed(dates, g, d) || DatedAs(schema, readers, item, g, d);
    }
  }

  lemma DatedSnoc(schema: Schema, readers: Readers, seen: seq<Json>, item: Json, g: KeyTuple, d: seq<KeyIdentity>)
    ensures (exists i :: 0 <= i < |seen + [item]| && DatedAs(schema, readers, (seen + [item])[i], g, d))
            <==> (exists i :: 0 <= i < |seen| && DatedAs(schema, readers, seen[i], g, d))
                 || DatedAs(schema, readers, item, g, d)
  {
    hide DatedAs;
    var longer := seen + [item];
    if i :| 0 <= i < |seen| && DatedAs(schema, readers, seen[i], g, d) {
      assert DatedAs(schema, readers, longer[i], g, d);
    }
    if DatedAs(schema, readers, item, g, d) {
      assert DatedAs(schema, readers, longer[|seen|], g, d);
    }
    if i :| 0 <= i < |longer| && DatedAs(schema, readers, longer[i], g, d) {
      assert DatedAs(schema, readers, if i < |seen| then seen[i] else item, g, d);
    }
  }

  /** The search through earlier dates of the group. */
  method AnyClash(current: seq<KeyIdentity>, previous: seq<seq<KeyIdentity>>) returns (clash: bool)
    requires forall d :: d in current ==> d.DateKey?
    requires forall p, d :: p in previous && d in p ==> d.DateKey?
    ensures clash <==> exists p :: p in previous && Clash(current, p)
  {
    for k := 0 to |previous|
      invariant forall m :: 0 <= m < k ==> !Clash(current, previous[m])
    {
      if Clash(current, previous[k]) {
        return true;
      }
    }
    clash := false;
  }

  /** The problems of one vertex, against what was remembered. */
  method CheckVertex(schema: Schema, readers: Readers, ghost seen: seq<Json>, item: Json, byId: map<Identity, Json>,
                     keys: set<KeyTuple>, dates: map<KeyTuple, seq<seq<KeyIdentity>>>) returns (problems: set<Problem>)
    requires Remembers(schema, readers, seen, byId, keys, dates)
    ensures problems == VertexProblems(schema, readers, seen + [item], |seen|)
  {
    hide IdentityOf, PrimaryTuple, Dates, Group, Clash, EntryProblems, StrategyProblems, Strategy, Find, SameDates,
         ValidId;
    assert forall i :: 0 <= i < |seen| ==> (seen + [item])[i] == seen[i];
    if !item.Object? {
      return {NotAnObject};
    }
    problems := CheckEntry(schema, readers, Vertex, item.fields);
    var key, own := PrimaryTuple(schema, readers, item), Dates(schema, readers, item);
    if key.Some? && key.value in keys {
      problems := problems + {DuplicatePrimaryKey};
    }
    var group := Group(schema, readers, item);
    var clash := false;
    if group in dates {
      EarlierDates(schema, readers, seen, dates, group);
      if own.Some? {
        clash := AnyClash(own.value, dates[group]);
      }
    }
    ClashMeans(schema, readers, seen, dates, item, clash);
    if clash {
      problems := problems + {AmbiguousDate};
    }
    var id, identity := Get(item.fields, "id"), IdentityOf(schema, readers, item);
    if !ValidId(id) {
      problems := problems + {InvalidId};
    }
    if identity.Some? && identity.value in byId {
      problems := problems + {DuplicateId};
    }
    if identity.Some? {
      SeenIdentity(schema, readers, seen, byId, identity);
    }
    problems := problems + StrategyProblems(readers, id, Strategy(schema, item.fields));
  }

  lemma SeenIdentity(schema: Schema, readers: Readers, seen: seq<Json>, byId: map<Identity, Json>,
                     identity: Option<Identity>)
    requires RemembersIds(schema, readers, seen, byId) && identity.Some?
    ensures identity.value in byId <==> exists i :: 0 <= i < |seen| && IdentityOf(schema, readers, seen[i]) == identity
  {
  }

  lemma EarlierDates(schema: Schema, readers: Readers, seen: seq<Json>, dates: map<KeyTuple, seq<seq<KeyIdentity>>>,
                     group: KeyTuple)
    requires RemembersDates(schema, readers, seen, dates) && group in dates
    ensures forall p, d :: p in dates[group] && d in p ==> d.DateKey?
  {
    hide Group;
    forall p | p in dates[group]
      ensures forall d :: d in p ==> d.DateKey?
    {
      assert Listed(dates, group, p);
      var i :| 0 <= i < |seen| && DatedAs(schema, readers, seen[i], group, p);
      assert Dates(schema, readers, seen[i]) == Some(p);
    }
  }

  lemma ClashMeans(schema: Schema, readers: Readers, seen: seq<Json>, dates: map<KeyTuple, seq<seq<KeyIdentity>>>,
                   item: Json, clash: bool)
    requires RemembersDates(schema, readers, seen, dates)
    requires var own, group := Dates(schema, readers, item), Group(schema, readers, item);
             && (group in dates ==> forall p, d :: p in dates[group] && d in p ==> d.DateKey?)
             && (clash <==> own.Some? && group in dates && exists p :: p in dates[group] && Clash(own.value, p))
    ensures clash <==> exists i :: 0 <= i < |seen| && SameDates(schema, readers, item, seen[i])
  {
    hide Dates, Group, Clash;
    var own, group := Dates(schema, readers, item), Group(schema, readers, item);
    if clash {
      var p :| p in dates[group] && Clash(own.value, p);
      assert Listed(dates, group, p);
      var i :| 0 <= i < |seen| && DatedAs(schema, readers, seen[i], group, p);
      assert SameDates(schema, readers, item, seen[i]);
    }
    if i :| 0 <= i < |seen| && SameDates(schema, readers, item, seen[i]) {
      var p := Dates(schema, readers, seen[i]).value;
      assert DatedAs(schema, readers, seen[i], group, p);
      assert Listed(dates, group, p);
    }
  }

  /** One round of the first loop keeps what is remembered. */
  lemma RemembersSnoc(schema: Schema, readers: Readers, seen: seq<Json>, item: Json, byId: map<Identity, Json>,
                      keys: set<KeyTuple>, dates: map<KeyTuple, seq<seq<KeyIdentity>>>)
    requires Remembers(schema, readers, seen, byId, keys, dates)
    ensures var identity, key := IdentityOf(schema, readers, item), PrimaryTuple(schema, readers, item);
            var group, own := Group(schema, readers, item), Dates(schema, readers, item);
            Remembers(schema, readers, seen + [item],
                      if identity.Some? && identity.value !in byId then byId[identity.value := item] else byId,
                      if key.Some? then keys + {key.value} else keys,
                      if own.None? then dates
                      else dates[group := (if group in dates then dates[group] else []) + [own.value]])
  {
    hide IdentityOf, PrimaryTuple, Dates, Group, RemembersIds, RemembersDates;
    RemembersIdsSnoc(schema, readers, seen, byId, item);
    RemembersDatesSnoc(schema, readers, seen, dates, item);
    var key := PrimaryTuple(schema, readers, item);
    var longer, after := seen + [item], if key.Some? then keys + {key.value} else keys;
    forall k
      ensures k in after <==> exists i :: 0 <= i < |longer| && PrimaryTuple(schema, readers, longer[i]) == Some(k)
    {
      if i :| 0 <= i < |seen| && PrimaryTuple(schema, readers, seen[i]) == Some(k) {
        assert PrimaryTuple(schema, readers, longer[i]) == Some(k);
      }
      if key == Some(k) {
        assert PrimaryTuple(schema, readers, longer[|seen|]) == Some(k);
      }
      if i :| 0 <= i < |longer| && PrimaryTuple(schema, readers, longer[i]) == Some(k) && i < |seen| {
        assert PrimaryTuple(schema, readers, seen[i]) == Some(k);
      }
    }
  }

  lemma ProblemsDependOnPrefix(schema: Schema, readers: Readers, vertices: seq<Json>, j: nat)
    requires j < |vertices|
    ensures VertexProblems(schema, readers, vertices[..j] + [vertices[j]], j)
            == VertexProblems(schema, readers, vertices, j)
  {
    hide EntryProblems, PrimaryTuple, IdentityOf, SameDates, StrategyProblems, Strategy;
    var prefix := vertices[..j] + [vertices[j]];
    assert forall i :: 0 <= i <= j ==> prefix[i] == vertices[i];
  }

  /** The loop over the vertices. */
  method ValidateVertices(schema: Schema, readers: Readers, vertices: seq<Json>)
    returns (issues: set<Issue>, byId: map<Identity, Json>)
    ensures issues == VertexIssues(schema, readers, vertices, |vertices|)
    ensures RemembersIds(schema, readers, vertices, byId)
  {
    hide Find, IdentityOf, PrimaryTuple, Dates, Group, VertexProblems;
    issues, byId := {}, map[];
    var keys: set<KeyTuple> := {};
    var dates: map<KeyTuple, seq<seq<KeyIdentity>>> := map[];
    NothingRemembered(schema, readers);
    assert vertices[..0] == [];
    for j := 0 to |vertices|
      invariant issues == VertexIssues(schema, readers, vertices, j)
      invariant Remembers(schema, readers, vertices[..j], byId, keys, dates)
    {
      var item := vertices[j];
      var problems := CheckVertex(schema, readers, vertices[..j], item, byId, keys, dates);
      ProblemsDependOnPrefix(schema, readers, vertices, j);
      issues := issues + (set p | p in problems :: Issue(Vertex, j, p));
      RemembersSnoc(schema, readers, vertices[..j], item, byId, keys, dates);
      assert vertices[..j] + [item] == vertices[..j + 1];
      var identity, key, own := IdentityOf(schema, readers, item), PrimaryTuple(schema, readers, item),
                                Dates(schema, readers, item);
      if identity.Some? && identity.value !in byId {
        byId := byId[identity.value := item];
      }
      if key.Some? {
        keys := keys + {key.value};
      }
      if own.Some? {
        var group := Group(schema, readers, item);
        dates := dates[group := (if group in dates then dates[group] else []) + [own.value]];
      }
    }
    assert vertices[..|vertices|] == vertices;
  }

  lemma NothingRemembered(schema: Schema, readers: Readers)
    ensures Remembers(schema, readers, [], map[], {}, map[])
  {
  }

  /** `_validate_endpoints`, for one endpoint. */
  method ValidateEndpoint(schema: Schema, readers: Readers, ghost vertices: seq<Json>, byId: map<Identity, Json>,
                          edge: map<string, Json>, endpoint: string, labelKey: string, declared: Option<string>)
    returns (problems: set<Problem>)
    requires RemembersIds(schema, readers, vertices, byId)
    ensures problems == EndpointProblems(schema, readers, vertices, edge, endpoint, labelKey, declared)
  {
    problems := {};
    var name := Get(edge, labelKey);
    var identity := VertexIdentity(readers, Get(edge, endpoint), Lookup(schema.vertexLabels, name));
    if identity.None? || identity.value !in byId {
      problems := problems + {DanglingEndpoint(endpoint)};
    }
    if !name.Str? || (identity.Some? && identity.value in byId && Get(byId[identity.value].fields, "label") != name) {
      problems := problems + {WrongEndpointLabel(endpoint)};
    }
    if declared.Some? && name != Str(declared.value) {
      problems := problems + {WrongDirection(endpoint)};
    }
  }

  /** The loop over the edges. */
  method ValidateEdges(schema: Schema, readers: Readers, ghost vertices: seq<Json>, byId: map<Identity, Json>,
                       edges: seq<Json>)
    returns (issues: set<Issue>)
    requires RemembersIds(schema, readers, vertices, byId)
    ensures issues == EdgeIssues(schema, readers, vertices, edges, |edges|)
  {
    hide EntryProblems, EndpointProblems, RemembersIds;
    issues := {};
    for j := 0 to |edges|
      invariant issues == EdgeIssues(schema, readers, vertices, edges, j)
    {
      var problems: set<Problem> := {NotAnObject};
      if edges[j].Object? {
        var edge := edges[j].fields;
        var definition := DefinitionOf(schema, Edge, edge);
        problems := CheckEntry(schema, readers, Edge, edge);
        var out := ValidateEndpoint(schema, readers, vertices, byId, edge, "outV", "outVLabel",
                                    if definition.Some? then definition.value.sourceLabel else None);
        var into := ValidateEndpoint(schema, readers, vertices, byId, edge, "inV", "inVLabel",
                                     if definition.Some? then definition.value.targetLabel else None);
        problems := problems + out + into;
      }
      issues := issues + (set p | p in problems :: Issue(Edge, j, p));
    }
  }

  /** All issues of a graph that is already normal. */
  ghost function Issues(schema: Schema, readers: Readers, vertices: seq<Json>, edges: seq<Json>): set<Issue> {
    VertexIssues(schema, readers, vertices, |vertices|) + EdgeIssues(schema, readers, vertices, edges, |edges|)
  }

  /** `validate`: normalise in place, then report every remaining problem. */
  method Validate(schema: Schema, readers: Readers, graph: Graph) returns (issues: set<Issue>)
    modifies graph
    ensures graph.vertices == NormalVertices(schema, readers, old(graph.vertices))
    ensures graph.edges == NormalEdges(schema, readers, old(graph.vertices), old(graph.edges))
    ensures issues == AliasIssues(AliasesOf(schema, readers, old(graph.vertices)))
            + Issues(schema, readers, graph.vertices, graph.edges)
  {
    hide AliasesOf, NormalVertices, NormalEdges, RemembersIds, VertexIssues, EdgeIssues;
    issues := Normalize(schema, readers, graph);
    var found, byId := ValidateVertices(schema, readers, graph.vertices);
    var wrong := ValidateEdges(schema, readers, graph.vertices, byId, graph.edges);
    issues := issues + found + wrong;
  }
}
