/** Whether date keys are proof against time zones, read off the schema alone: a date key that
    admits lists matters exactly when its label can be filled. */
module SchemaDates {
  import opened Wrappers
  import opened Powers
  import opened Float32
  import opened PropertySchema
  import opened GraphValidation
  import opened GraphLaws
  import opened ListDates

  /** Every required property of the label is declared for it. */
  predicate Fillable(definition: Definition) {
    definition.properties.Some? ==> Required(definition) <= definition.properties.value
  }

  /** A label that can be filled has a date among its primary keys that admits lists. */
  predicate HasUsableListKey(schema: Schema) {
    exists name | name in schema.vertexLabels ::
      Fillable(schema.vertexLabels[name]) && KeysAdmitList(schema, schema.vertexLabels[name])
  }

  predicate KeysAdmitList(schema: Schema, definition: Definition) {
    exists key | key in PrimaryKeys(definition) :: IsDate(schema, key) && AdmitsLists(schema, key)
  }

  // ---------- Filling a label ----------

  /** A scalar of the data type; `uuid` is some text that reads as a UUID. */
  function Scalar(dataType: Option<string>, uuid: string): Json {
    if dataType == Some("TEXT") || dataType == Some("UUID") then Str(uuid)
    else if dataType == Some("BOOLEAN") then Bool(true)
    else Int(0)
  }

  function Filling(schema: Schema, key: string, uuid: string): Json {
    if AdmitsLists(schema, key) then List([]) else Scalar(KeyOf(schema, key).dataType, uuid)
  }

  lemma Pow2Increases(a: nat, b: nat)
    requires a < b
    ensures 0 < Pow2(a) < Pow2(b)
  {
    Pow2Grows(a + 1, b);
  }

  lemma ZeroFits()
    ensures FitsDouble(0) && ValidFloat(Number(false, 0, 1))
    ensures FitsSigned(0, 8) && FitsSigned(0, 32) && FitsSigned(0, 64)
  {
    hide Pow2, Times;
    Pow2Increases(970, 1024);
    Pow2Increases(103, 128);
    Pow2Increases(7, 31);
    Pow2Increases(31, 63);
    TimesCommutes(Pow2(128) - Pow2(103), 1);
    TimesUnits(Pow2(128) - Pow2(103));
  }

  lemma ScalarValid(readers: Readers, dataType: string, uuid: string)
    requires readers.uuid(uuid).Some?
    ensures ValidScalar(readers, Scalar(Some(dataType), uuid), dataType)
  {
    hide FitsDouble, ValidFloat, FitsSigned;
    ZeroFits();
  }

  lemma FillingFine(schema: Schema, readers: Readers, definition: Definition, key: string, uuid: string)
    requires uuid != "" && readers.uuid(uuid).Some?
    requires definition.properties.Some? ==> key in definition.properties.value
    ensures ValueFine(schema, readers, definition, key, Filling(schema, key, uuid))
            && !Blank(Filling(schema, key, uuid))
  {
    hide ValidScalar;
    var dataType := KeyOf(schema, key).dataType;
    if dataType.Some? {
      ScalarValid(readers, dataType.value, uuid);
    }
  }

  function Filled(schema: Schema, name: string, uuid: string): Json
    requires name in schema.vertexLabels
  {
    var properties := map key | key in Required(schema.vertexLabels[name]) :: Filling(schema, key, uuid);
    Object(map["label" := Str(name), "id" := Str("a"), "properties" := Object(properties)])
  }

  /** A label that can be filled has a vertex in order. */
  lemma FilledFine(schema: Schema, readers: Readers, name: string, uuid: string)
    requires uuid != "" && readers.uuid(uuid).Some?
    requires name in schema.vertexLabels && Fillable(schema.vertexLabels[name])
             && PrimaryKeys(schema.vertexLabels[name]) != []
    ensures var item := Filled(schema, name, uuid);
            && VertexFine(schema, readers, item)
            && KeysOf(schema, item).Some? && KeysOf(schema, item).value.0 == PrimaryKeys(schema.vertexLabels[name])
  {
    hide ValueFine, Filling, Blank, PrimaryKeys;
    var definition, item := schema.vertexLabels[name], Filled(schema, name, uuid);
    assert DefinitionOf(schema, Vertex, item.fields) == Some(definition);
    forall key | key in Required(definition)
      ensures ValueFine(schema, readers, definition, key, Filling(schema, key, uuid))
              && !Blank(Filling(schema, key, uuid))
    {
      FillingFine(schema, readers, definition, key, uuid);
    }
    KeyedStrategy(schema, item);
  }

  // ---------- The condition on the schema ----------

  lemma FineMeansFillable(schema: Schema, readers: Readers, item: Json)
    requires VertexFine(schema, readers, item)
    ensures item.Object? && DefinitionOf(schema, Vertex, item.fields).Some?
    ensures Fillable(DefinitionOf(schema, Vertex, item.fields).value)
  {
    hide Required;
    var definition, properties := DefinitionOf(schema, Vertex, item.fields).value,
                                  Get(item.fields, "properties").fields;
    forall key | key in Required(definition)
      ensures definition.properties.Some? ==> key in definition.properties.value
    {
      assert !Blank(Get(properties, key));
    }
  }

  lemma NoListDatesBySchema(schema: Schema, readers: Readers, uuid: string)
    requires uuid != "" && readers.uuid(uuid).Some?
    ensures NoListDates(schema, readers) <==> !HasUsableListKey(schema)
  {
    hide VertexFine, KeysOf, IsDate, AdmitsLists, Filled, Fillable, PrimaryKeys;
    NoListDatesExactly(schema, readers);
    forall item | VertexFine(schema, readers, item)
      ensures HasListKey(schema, item) ==> HasUsableListKey(schema)
    {
      FineMeansFillable(schema, readers, item);
      if HasListKey(schema, item) {
        KeysOfDefinition(schema, item);
      }
    }
    if HasUsableListKey(schema) {
      var name :| name in schema.vertexLabels && Fillable(schema.vertexLabels[name])
                  && KeysAdmitList(schema, schema.vertexLabels[name]);
      FilledFine(schema, readers, name, uuid);
      assert HasListKey(schema, Filled(schema, name, uuid));
    }
  }

  /** Date keys are proof against time zones, before and after normalisation, exactly when no
      label that can be filled has a date among its primary keys that admits lists. */
  lemma TimezoneProofBySchema(schema: Schema, readers: Readers, text: string, uuid: string)
    requires ReadsAsEpoch(readers, text) && uuid != "" && readers.uuid(uuid).Some?
    ensures AlwaysTimezoneProof(schema, readers) <==> !HasUsableListKey(schema)
    ensures IdsTellApart(readers, text) ==> (ValidationTimezoneProof(schema, readers) <==> !HasUsableListKey(schema))
  {
    hide NoListDates, AlwaysTimezoneProof, ValidationTimezoneProof, IdsTellApart, ReadsAsEpoch, HasUsableListKey;
    NoListDatesBySchema(schema, readers, uuid);
    TimezoneProofExactly(schema, readers, text);
    if IdsTellApart(readers, text) {
      ValidationProofExactly(schema, readers, text);
    }
  }
}
