/** What single issues mean, in terms of the label's own lists and of the values themselves. */
module IssueMeaning {
  import opened Wrappers
  import opened Characters
  import opened Powers
  import opened Float32
  import opened PropertySchema
  import opened GraphValidation
  import opened GraphLaws
  import opened DateKeys

  // ---------- Missing properties ----------

  /** The property is a primary key in force, a sort key, or declared and not nullable. */
  predicate MustBeGiven(definition: Definition, key: string) {
    || (key in definition.primaryKeys
        && (definition.idStrategy.None? || definition.idStrategy.value == ""
            || Upper(definition.idStrategy.value) == "PRIMARY_KEY"))
    || key in definition.sortKeys
    || (definition.properties.Some? && definition.nullableKeys.Some?
        && key in definition.properties.value && key !in definition.nullableKeys.value)
  }

  predicate Given(properties: map<string, Json>, key: string) {
    key in properties && properties[key] != Null && properties[key] != Str("")
  }

  /** The entry has a known label and properties, and lacks a property that must be given. */
  predicate Lacks(schema: Schema, kind: Kind, item: Json, key: string) {
    && item.Object? && DefinitionOf(schema, kind, item.fields).Some? && Get(item.fields, "properties").Object?
    && MustBeGiven(DefinitionOf(schema, kind, item.fields).value, key)
    && !Given(Get(item.fields, "properties").fields, key)
  }

  lemma RequiredMeans(definition: Definition, key: string)
    ensures key in Required(definition) <==> MustBeGiven(definition, key)
  {
  }

  lemma MissingProperties(schema: Schema, readers: Readers, definition: Definition, properties: map<string, Json>,
                          key: string)
    ensures MissingProperty(key) in PropertyProblems(schema, readers, definition, properties)
            <==> MustBeGiven(definition, key) && !Given(properties, key)
  {
    hide Required, MustBeGiven;
    RequiredMeans(definition, key);
    forall k | k in properties
      ensures MissingProperty(key) !in ValueProblems(schema, readers, definition, k, properties[k])
    {
    }
  }

  lemma MissingInEntry(schema: Schema, readers: Readers, kind: Kind, item: map<string, Json>, key: string)
    ensures MissingProperty(key) in EntryProblems(schema, readers, kind, item)
            <==> Lacks(schema, kind, Object(item), key)
  {
    hide PropertyProblems, MustBeGiven;
    var definition, properties := DefinitionOf(schema, kind, item), Get(item, "properties");
    if definition.Some? && properties.Object? {
      MissingProperties(schema, readers, definition.value, properties.fields, key);
    }
  }

  lemma MissingOfVertex(schema: Schema, readers: Readers, vertices: seq<Json>, j: nat, key: string)
    requires j < |vertices|
    ensures MissingProperty(key) in VertexProblems(schema, readers, vertices, j)
            <==> Lacks(schema, Vertex, vertices[j], key)
  {
    hide EntryProblems, Lacks, PrimaryTuple, SameDates, IdentityOf;
    if vertices[j].Object? {
      MissingInEntry(schema, readers, Vertex, vertices[j].fields, key);
      assert Object(vertices[j].fields) == vertices[j];
    } else {
      NothingLacks(schema, Vertex, vertices[j], key);
    }
  }

  lemma MissingOfEdge(schema: Schema, readers: Readers, vertices: seq<Json>, item: Json, key: string)
    ensures MissingProperty(key) in EdgeProblems(schema, readers, vertices, item) <==> Lacks(schema, Edge, item, key)
  {
    hide EntryProblems, Lacks, Endpoint;
    if item.Object? {
      MissingInEntry(schema, readers, Edge, item.fields, key);
      assert Object(item.fields) == item;
    } else {
      NothingLacks(schema, Edge, item, key);
    }
  }

  lemma NothingLacks(schema: Schema, kind: Kind, item: Json, key: string)
    requires !item.Object?
    ensures !Lacks(schema, kind, item, key)
  {
  }

  /** A missing property is reported for exactly the entries that lack one of the primary keys in
      force, the sort keys and the declared properties that are not nullable. */
  lemma MissingReportedExactly(schema: Schema, readers: Readers, vertices: seq<Json>, edges: seq<Json>, kind: Kind,
                               j: nat, key: string)
    ensures Issue(kind, j, MissingProperty(key)) in Issues(schema, readers, vertices, edges) <==>
              var items := if kind == Vertex then vertices else edges;
              j < |items| && Lacks(schema, kind, items[j], key)
  {
    hide VertexProblems, EdgeProblems, Lacks;
    if kind == Vertex && j < |vertices| {
      MissingOfVertex(schema, readers, vertices, j, key);
    } else if kind == Edge && j < |edges| {
      MissingOfEdge(schema, readers, vertices, edges[j], key);
    }
  }

  /** A graph without issues gives every vertex and edge all that must be given. */
  lemma RequiredGiven(schema: Schema, readers: Readers, vertices: seq<Json>, edges: seq<Json>, kind: Kind, j: nat,
                      key: string)
    requires Issues(schema, readers, vertices, edges) == {}
    ensures var items := if kind == Vertex then vertices else edges;
            j < |items| ==>
              && items[j].Object? && DefinitionOf(schema, kind, items[j].fields).Some?
              && Get(items[j].fields, "properties").Object?
              && (MustBeGiven(DefinitionOf(schema, kind, items[j].fields).value, key) ==>
                    Given(Get(items[j].fields, "properties").fields, key))
  {
    hide Issues, MustBeGiven, Given, IdentityOf, PrimaryTuple, SameDates, ValueFine, Attached, Required;
    MissingReportedExactly(schema, readers, vertices, edges, kind, j, key);
    NoIssuesExactly(schema, readers, vertices, edges);
    assert kind == Vertex && j < |vertices| ==> VertexFine(schema, readers, vertices[j]);
    assert kind == Edge && j < |edges| ==> EdgeFine(schema, readers, vertices, edges[j]);
  }

  // ---------- Ambiguous dates ----------

  /** Some time zone of the server makes the two dates equal. */
  ghost predicate SomeZoneAgrees(a: KeyIdentity, b: KeyIdentity) {
    exists offset: int ::
      -MILLISECONDS_PER_DAY < offset < MILLISECONDS_PER_DAY && Instant(a, offset) == Instant(b, offset)
  }

  lemma AgreesExactly(a: KeyIdentity, b: KeyIdentity)
    requires a.DateKey? && b.DateKey?
    ensures MayAgree(a, b) <==> SomeZoneAgrees(a, b)
  {
    if MayAgree(a, b) {
      var offset := if a.domain == b.domain then 0 else if a.domain == Epoch then a.ms - b.ms else b.ms - a.ms;
      assert Instant(a, offset) == Instant(b, offset);
    }
  }

  /** Dates are ambiguous exactly when some are of different sorts and for each of them some time
      zone of the server makes the two equal. */
  lemma ClashExactly(a: seq<KeyIdentity>, b: seq<KeyIdentity>)
    requires |a| == |b| && forall d :: d in a || d in b ==> d.DateKey?
    ensures Clash(a, b) <==>
              && (exists k :: 0 <= k < |a| && a[k].domain != b[k].domain)
              && (forall k :: 0 <= k < |a| ==> SomeZoneAgrees(a[k], b[k]))
  {
    hide MayAgree, SomeZoneAgrees;
    forall k | 0 <= k < |a|
      ensures a[k].DateKey? && b[k].DateKey? && (MayAgree(a[k], b[k]) <==> SomeZoneAgrees(a[k], b[k]))
    {
      assert a[k] in a && b[k] in b;
      AgreesExactly(a[k], b[k]);
    }
  }

  // ---------- Identities and scalars ----------

  predicate IsStrategy(definition: Option<Definition>, name: string) {
    definition.Some? && definition.value.idStrategy == Some(name)
  }

  /** Two usable identifiers are one identity exactly when both read as the same UUID under
      CUSTOMIZE_UUID, or are the same value on the same side of strings and numbers. */
  lemma SameIdentityExactly(readers: Readers, a: Json, b: Json, first: Option<Definition>, second: Option<Definition>)
    requires VertexIdentity(readers, a, first).Some? && VertexIdentity(readers, b, second).Some?
    ensures VertexIdentity(readers, a, first) == VertexIdentity(readers, b, second) <==>
              if IsStrategy(first, "CUSTOMIZE_UUID") && IsStrategy(second, "CUSTOMIZE_UUID")
              then readers.uuid(a.s) == readers.uuid(b.s)
              else !IsStrategy(first, "CUSTOMIZE_UUID") && !IsStrategy(second, "CUSTOMIZE_UUID")
                   && a == b && (AsText(first, a) <==> AsText(second, b))
  {
  }

  /** The identifier is kept as a string: by the strategy of the label, or because it is one. */
  predicate AsText(definition: Option<Definition>, id: Json) {
    || IsStrategy(definition, "CUSTOMIZE_STRING") || IsStrategy(definition, "PRIMARY_KEY")
    || (!IsStrategy(definition, "CUSTOMIZE_NUMBER") && id.Str?)
  }

  /** An identifier has no identity exactly when it is empty or no string and no integer, or is
      no UUID where one is asked for. */
  lemma NoIdentityExactly(readers: Readers, id: Json, definition: Option<Definition>)
    ensures VertexIdentity(readers, id, definition).None? <==>
              || !((id.Str? && id.s != "") || id.Int?)
              || (IsStrategy(definition, "CUSTOMIZE_UUID") && !(id.Str? && readers.uuid(id.s).Some?))
  {
  }

  lemma PowersOfWidths()
    ensures Pow2(7) == 128 && Pow2(31) == 2147483648 && Pow2(63) == 9223372036854775808
  {
    PowersOfEight();
    Pow2Adds(8, 8);
    Pow2Adds(16, 8);
    Pow2Adds(24, 7);
    Pow2Adds(31, 31);
    Pow2Adds(62, 1);
  }

  lemma PowersOfEight()
    ensures Pow2(1) == 2 && Pow2(7) == 128 && Pow2(8) == 256
  {
    assert Pow2(0) == 1 && Pow2(1) == 2 && Pow2(2) == 4 && Pow2(3) == 8;
    assert Pow2(4) == 16 && Pow2(5) == 32 && Pow2(6) == 64;
  }

  /** Which JSON values the scalar types accept, in numbers. */
  lemma ScalarsExactly(readers: Readers, value: Json)
    ensures ValidScalar(readers, value, "TEXT") <==> value.Str?
    ensures ValidScalar(readers, value, "BOOLEAN") <==> value.Bool?
    ensures ValidScalar(readers, value, "BYTE") <==> value.Int? && -128 <= value.n <= 127
    ensures ValidScalar(readers, value, "INT") <==> value.Int? && -2147483648 <= value.n <= 2147483647
    ensures ValidScalar(readers, value, "LONG") <==>
              value.Int? && -9223372036854775808 <= value.n <= 9223372036854775807
    ensures ValidScalar(readers, value, "UUID") <==> value.Str? && readers.uuid(value.s).Some?
    ensures ValidScalar(readers, value, "DATE") <==>
              ValidScalar(readers, value, "LONG") || (value.Str? && readers.date(value.s).Some?)
    ensures ValidScalar(readers, value, "OBJECT") <==> value != Null
  {
    hide Pow2, ValidFloat, FitsDouble;
    PowersOfWidths();
  }

  /** A number is accepted as DOUBLE when it is finite, an integer when it is below the midpoint
      above the greatest double: 54 one bits, followed by 970 zeros. */
  lemma DoublesExactly(readers: Readers, value: Json)
    ensures ValidScalar(readers, value, "DOUBLE") <==>
              || (value.Int? && 0 - Times(Pow2(54) - 1, Pow2(970)) < value.n < Times(Pow2(54) - 1, Pow2(970)))
              || (value.Float? && value.number.denominator > 0)
    ensures ValidScalar(readers, value, "FLOAT") <==>
              ValidScalar(readers, value, "DOUBLE")
              && ValidFloat(if value.Int? then Number(value.n < 0, if value.n < 0 then -value.n else value.n, 1)
                            else value.number)
  {
    hide Pow2, Times, ValidFloat;
    Pow2Adds(54, 970);
    TimesAdds(Pow2(54), -1, Pow2(970));
    TimesNegates(Pow2(970));
  }

  lemma TimesNegates(n: int)
    ensures Times(-1, n) == -n
  {
  }

  // ---------- Primary keys ----------

  /** The data type under which a key value is compared, if it is one of the special ones and
      the value has it. */
  function ComparedAs(schema: Schema, readers: Readers, key: string, value: Json): string {
    var dataType := KeyOf(schema, key).dataType;
    if dataType in {Some("DATE"), Some("UUID"), Some("FLOAT"), Some("DOUBLE")}
       && ValidScalar(readers, value, dataType.value) then dataType.value
    else "text"
  }

  lemma KeyIs(schema: Schema, readers: Readers, key: string, value: Json)
    ensures var sort, identity := ComparedAs(schema, readers, key, value), PrimaryIdentity(schema, readers, key, value);
            match sort
            case "DATE" =>
              && DateIdentity(readers, value) == Some((if value.Str? then Wall else Epoch, identity.ms))
              && identity == DateKey(if value.Str? then Wall else Epoch, identity.ms)
            case "UUID" => value.Str? && readers.uuid(value.s).Some? && identity == UuidKey(readers.uuid(value.s).value)
            case "FLOAT" =>
              && AsNumber(value).Some?
              && var (signed, units) := FloatIdentity(AsNumber(value).value); identity == FloatKey(signed, units)
            case "DOUBLE" => identity == DoubleKey(readers.hex(value))
            case _ => sort == "text" && identity == TextKey(KeyOf(schema, key).dataType, readers.dump(value))
  {
    hide FitsSigned, FitsDouble, ValidFloat, FloatIdentity;
  }

  /** Two values of a primary key are one exactly when they are compared alike and agree: dates of
      one sort by milliseconds, UUIDs by their reading, FLOATs by their rounding, DOUBLEs by their
      hexadecimal form, and everything else by its JSON text. */
  lemma SameKeyExactly(schema: Schema, readers: Readers, key: string, a: Json, b: Json)
    ensures PrimaryIdentity(schema, readers, key, a) == PrimaryIdentity(schema, readers, key, b) <==>
              var sort := ComparedAs(schema, readers, key, a);
              && ComparedAs(schema, readers, key, b) == sort
              && (sort == "DATE" ==> a.Str? == b.Str? && DateIdentity(readers, a) == DateIdentity(readers, b))
              && (sort == "UUID" ==> readers.uuid(a.s) == readers.uuid(b.s))
              && (sort == "FLOAT" ==> FloatIdentity(AsNumber(a).value) == FloatIdentity(AsNumber(b).value))
              && (sort == "DOUBLE" ==> readers.hex(a) == readers.hex(b))
              && (sort == "text" ==> readers.dump(a) == readers.dump(b))
  {
    hide PrimaryIdentity, ComparedAs, DateIdentity, FloatIdentity, AsNumber, KeyOf;
    KeyIs(schema, readers, key, a);
    KeyIs(schema, readers, key, b);
  }

  // ---------- Names in upper case ----------

  /** Upper case puts the capital for each small ASCII letter and changes nothing else. */
  lemma UpperExactly(s: string, k: nat)
    requires k < |s|
    ensures forall i :: 0 <= i < 26 && s[k] == SMALL[i] ==> Upper(s)[k] == CAPITAL[i]
    ensures s[k] !in SMALL ==> Upper(s)[k] == s[k]
    ensures Upper(Upper(s)) == Upper(s)
  {
    LetterCodes(s[k]);
  }
}
