/** Composite primary keys with dates, as a server of any time zone reads them. */
module DateKeys {
  import opened PropertySchema
  import opened GraphValidation
  import opened GraphLaws

  /** What a server at the given offset from UTC makes of a key value: epoch dates as they are,
      text dates shifted, the elements of a list one by one. */
  datatype Reading = One(identity: KeyIdentity) | Many(readings: seq<Reading>)

  function Instant(identity: KeyIdentity, offset: int): KeyIdentity {
    match identity
    case DateKey(Wall, ms) => DateKey(Epoch, ms + offset)
    case _ => identity
  }

  function Read(schema: Schema, readers: Readers, offset: int, key: string, value: Json): Reading {
    if IsDate(schema, key) && value.List? then
      Many(seq(|value.items|, k requires 0 <= k < |value.items| => Read(schema, readers, offset, key, value.items[k])))
    else One(Instant(PrimaryIdentity(schema, readers, key, value), offset))
  }

  /** The composite primary key a server sees. */
  function ServerKey(schema: Schema, readers: Readers, offset: int, item: Json): seq<Reading>
    requires KeysOf(schema, item).Some?
  {
    var (keys, properties) := KeysOf(schema, item).value;
    seq(|keys|, k requires 0 <= k < |keys| => Read(schema, readers, offset, keys[k], Get(properties, keys[k])))
  }

  /** Some date among the primary keys is given as a list by both vertices. */
  predicate ListsFace(schema: Schema, item: Json, other: Json)
    requires KeysOf(schema, item).Some? && KeysOf(schema, other).Some?
  {
    exists key | key in KeysOf(schema, item).value.0 ::
      IsDate(schema, key) && Get(KeysOf(schema, item).value.1, key).List?
      && Get(KeysOf(schema, other).value.1, key).List?
  }

  lemma SameKeys(schema: Schema, item: Json, other: Json)
    requires KeysOf(schema, item).Some? && KeysOf(schema, other).Some? && LabelOf(item) == LabelOf(other)
    ensures KeysOf(schema, item).value.0 == KeysOf(schema, other).value.0
  {
  }

  /** A date among the primary keys of a vertex in order is read as a date. */
  lemma DatesAreDates(schema: Schema, readers: Readers, item: Json, key: string)
    requires EntryFine(schema, readers, Vertex, item) && KeysOf(schema, item).Some?
    requires key in KeysOf(schema, item).value.0 && IsDate(schema, key) && !Get(KeysOf(schema, item).value.1, key).List?
    ensures PrimaryIdentity(schema, readers, key, Get(KeysOf(schema, item).value.1, key)).DateKey?
  {
    hide Required;
    var (keys, properties) := KeysOf(schema, item).value;
    var value := Get(properties, key);
    assert !Blank(value) && key in properties;
    assert ValueFine(schema, readers, DefinitionOf(schema, Vertex, item.fields).value, key, properties[key]);
    assert value in Elements(KeyOf(schema, key).cardinality, value);
  }

  lemma PlainUnlessDate(schema: Schema, readers: Readers, key: string, value: Json)
    ensures PrimaryIdentity(schema, readers, key, value).DateKey? ==> IsDate(schema, key)
  {
  }

  /** Keys that read alike at an offset under a day: the plain ones are equal, and dates of
      different sorts are less than a day apart. */
  lemma AlikeMeans(schema: Schema, readers: Readers, offset: int, key: string, value: Json, other: Json)
    requires -MILLISECONDS_PER_DAY < offset < MILLISECONDS_PER_DAY
    requires IsDate(schema, key) ==> !(value.List? && other.List?)
    requires Read(schema, readers, offset, key, value) == Read(schema, readers, offset, key, other)
    ensures IsDate(schema, key) ==> !value.List? && !other.List?
    ensures var a, b := PrimaryIdentity(schema, readers, key, value), PrimaryIdentity(schema, readers, key, other);
            if a.DateKey? && b.DateKey? then MayAgree(a, b) && (a.domain == b.domain ==> a == b) else a == b
  {
  }

  lemma {:induction false} SortedKeys(schema: Schema, keys: seq<string>, dates: bool)
    ensures forall key :: key in Sorted(schema, keys, dates) <==> key in keys && IsDate(schema, key) == dates
  {
    if keys != [] {
      SortedKeys(schema, keys[1..], dates);
      assert forall key :: key in keys <==> key == keys[0] || key in keys[1..];
    }
  }

  /** All keys of the two vertices read alike. */
  ghost predicate Alike(schema: Schema, readers: Readers, offset: int, keys: seq<string>, p: map<string, Json>,
                        q: map<string, Json>) {
    forall key :: key in keys ==>
      Read(schema, readers, offset, key, Get(p, key)) == Read(schema, readers, offset, key, Get(q, key))
  }

  lemma AlikeFromKeys(schema: Schema, readers: Readers, offset: int, item: Json, other: Json)
    requires KeysOf(schema, item).Some? && KeysOf(schema, other).Some?
    requires KeysOf(schema, item).value.0 == KeysOf(schema, other).value.0
    requires ServerKey(schema, readers, offset, item) == ServerKey(schema, readers, offset, other)
    ensures Alike(schema, readers, offset, KeysOf(schema, item).value.0, KeysOf(schema, item).value.1,
                  KeysOf(schema, other).value.1)
  {
    hide KeysOf, Read;
    var keys := KeysOf(schema, item).value.0;
    var mine, theirs := ServerKey(schema, readers, offset, item), ServerKey(schema, readers, offset, other);
    forall key | key in keys
      ensures Read(schema, readers, offset, key, Get(KeysOf(schema, item).value.1, key))
              == Read(schema, readers, offset, key, Get(KeysOf(schema, other).value.1, key))
    {
      var k :| 0 <= k < |keys| && keys[k] == key;
      assert mine[k] == theirs[k];
    }
  }

  /** Two vertices whose keys read alike have the same key, or dates that clash. */
  lemma AlikeCollide(schema: Schema, readers: Readers, offset: int, item: Json, other: Json)
    requires -MILLISECONDS_PER_DAY < offset < MILLISECONDS_PER_DAY
    requires EntryFine(schema, readers, Vertex, item) && EntryFine(schema, readers, Vertex, other)
    requires KeysOf(schema, item).Some? && KeysOf(schema, other).Some? && LabelOf(item) == LabelOf(other)
    requires !ListsFace(schema, item, other)
    requires ServerKey(schema, readers, offset, item) == ServerKey(schema, readers, offset, other)
    ensures PrimaryTuple(schema, readers, item) == PrimaryTuple(schema, readers, other)
            || SameDates(schema, readers, item, other)
  {
    hide EntryFine, Read, PrimaryIdentity, KeysOf;
    SameKeys(schema, item, other);
    AlikeFromKeys(schema, readers, offset, item, other);
    var (keys, p) := KeysOf(schema, item).value;
    var q := KeysOf(schema, other).value.1;
    forall key | key in keys
      ensures Near(schema, key, PrimaryIdentity(schema, readers, key, Get(p, key)),
                   PrimaryIdentity(schema, readers, key, Get(q, key)))
    {
      AlikeMeans(schema, readers, offset, key, Get(p, key), Get(q, key));
      if IsDate(schema, key) {
        DatesAreDates(schema, readers, item, key);
        DatesAreDates(schema, readers, other, key);
      } else {
        PlainUnlessDate(schema, readers, key, Get(p, key));
      }
    }
    CollideByKey(schema, readers, item, other);
  }

  /** Equal, or dates that one reading could make equal. */
  ghost predicate Near(schema: Schema, key: string, a: KeyIdentity, b: KeyIdentity) {
    if IsDate(schema, key) then a.DateKey? && b.DateKey? && MayAgree(a, b) && (a.domain == b.domain ==> a == b)
    else a == b
  }

  ghost predicate AllNear(schema: Schema, readers: Readers, keys: seq<string>, p: map<string, Json>,
                          q: map<string, Json>) {
    forall key :: key in keys ==>
      Near(schema, key, PrimaryIdentity(schema, readers, key, Get(p, key)),
           PrimaryIdentity(schema, readers, key, Get(q, key)))
  }

  lemma NearIdentities(schema: Schema, readers: Readers, keys: seq<string>, chosen: seq<string>, p: map<string, Json>,
                       q: map<string, Json>)
    requires AllNear(schema, readers, keys, p, q) && forall key :: key in chosen ==> key in keys
    ensures var a, b := Identities(schema, readers, chosen, p), Identities(schema, readers, chosen, q);
            forall k :: 0 <= k < |chosen| ==> Near(schema, chosen[k], a[k], b[k])
  {
  }

  lemma PlainsEqual(schema: Schema, readers: Readers, keys: seq<string>, p: map<string, Json>, q: map<string, Json>)
    requires AllNear(schema, readers, keys, p, q)
    ensures var plain := Sorted(schema, keys, false);
            Identities(schema, readers, plain, p) == Identities(schema, readers, plain, q)
  {
    hide PrimaryIdentity, Sorted, AllNear, Identities;
    var plain := Sorted(schema, keys, false);
    SortedKeys(schema, keys, false);
    NearIdentities(schema, readers, keys, plain, p, q);
    forall k | 0 <= k < |plain|
      ensures Identities(schema, readers, plain, p)[k] == Identities(schema, readers, plain, q)[k]
    {
      assert plain[k] in plain;
    }
  }

  lemma AllEqual(schema: Schema, readers: Readers, keys: seq<string>, p: map<string, Json>, q: map<string, Json>)
    requires AllNear(schema, readers, keys, p, q)
    requires var dated := Sorted(schema, keys, true);
             Identities(schema, readers, dated, p) == Identities(schema, readers, dated, q)
    ensures Identities(schema, readers, keys, p) == Identities(schema, readers, keys, q)
  {
    hide PrimaryIdentity, Sorted;
    var dated := Sorted(schema, keys, true);
    SortedKeys(schema, keys, true);
    forall k | 0 <= k < |keys|
      ensures Identities(schema, readers, keys, p)[k] == Identities(schema, readers, keys, q)[k]
    {
      assert keys[k] in keys;
      if IsDate(schema, keys[k]) {
        var m :| 0 <= m < |dated| && dated[m] == keys[k];
        assert Identities(schema, readers, dated, p)[m] == Identities(schema, readers, dated, q)[m];
      }
    }
  }

  /** Near dates that are not all equal clash. */
  lemma NearDates(schema: Schema, dated: seq<string>, a: seq<KeyIdentity>, b: seq<KeyIdentity>)
    requires |a| == |b| == |dated|
    requires forall k :: 0 <= k < |dated| ==> IsDate(schema, dated[k]) && Near(schema, dated[k], a[k], b[k])
    ensures forall d :: d in a || d in b ==> d.DateKey?
    ensures a == b || Clash(a, b)
  {
    if k :| 0 <= k < |dated| && a[k].domain != b[k].domain {
      assert Clash(a, b);
    } else {
      assert a == b;
    }
  }

  lemma CollideByKey(schema: Schema, readers: Readers, item: Json, other: Json)
    requires KeysOf(schema, item).Some? && KeysOf(schema, other).Some? && LabelOf(item) == LabelOf(other)
    requires KeysOf(schema, item).value.0 == KeysOf(schema, other).value.0
    requires AllNear(schema, readers, KeysOf(schema, item).value.0, KeysOf(schema, item).value.1,
                     KeysOf(schema, other).value.1)
    ensures PrimaryTuple(schema, readers, item) == PrimaryTuple(schema, readers, other)
            || SameDates(schema, readers, item, other)
  {
    hide PrimaryIdentity, KeysOf, Sorted, AllNear, Identities, Clash, Near, IsDate;
    var (keys, p) := KeysOf(schema, item).value;
    var q := KeysOf(schema, other).value.1;
    var dated := Sorted(schema, keys, true);
    var a, b := Identities(schema, readers, dated, p), Identities(schema, readers, dated, q);
    PlainsEqual(schema, readers, keys, p, q);
    SortedKeys(schema, keys, true);
    NearIdentities(schema, readers, keys, dated, p, q);
    assert forall k :: 0 <= k < |dated| ==> dated[k] in dated;
    NearDates(schema, dated, a, b);
    if a == b {
      AllEqual(schema, readers, keys, p, q);
    }
  }

  /** Date keys are proof against time zones: in a graph without issues, whatever offset under a
      day the server reads text dates with, two vertices of a label have different keys, unless
      both give a list for the same date. */
  lemma DateKeysAreTimezoneProof(schema: Schema, readers: Readers, vertices: seq<Json>, edges: seq<Json>, i: nat,
                                 j: nat, offset: int)
    requires Issues(schema, readers, vertices, edges) == {} && i < |vertices| && j < |vertices| && i != j
    requires KeysOf(schema, vertices[i]).Some? && KeysOf(schema, vertices[j]).Some?
             && LabelOf(vertices[i]) == LabelOf(vertices[j])
    requires !ListsFace(schema, vertices[i], vertices[j])
    requires -MILLISECONDS_PER_DAY < offset < MILLISECONDS_PER_DAY
    ensures ServerKey(schema, readers, offset, vertices[i]) != ServerKey(schema, readers, offset, vertices[j])
  {
    hide EntryFine, PrimaryTuple, IdentityOf, SameDates, KeysOf, ServerKey, EdgeFine, Issues;
    NoIssuesExactly(schema, readers, vertices, edges);
    assert VertexFine(schema, readers, vertices[i]) && VertexFine(schema, readers, vertices[j]);
    FacingBothWays(schema, vertices[i], vertices[j]);
    var first, second := if i < j then vertices[i] else vertices[j], if i < j then vertices[j] else vertices[i];
    if ServerKey(schema, readers, offset, vertices[i]) == ServerKey(schema, readers, offset, vertices[j]) {
      TupleExists(schema, readers, second);
      AlikeCollide(schema, readers, offset, second, first);
      assert false;
    }
  }

  lemma FacingBothWays(schema: Schema, item: Json, other: Json)
    requires KeysOf(schema, item).Some? && KeysOf(schema, other).Some? && LabelOf(item) == LabelOf(other)
    ensures ListsFace(schema, item, other) == ListsFace(schema, other, item)
  {
    hide KeysOf;
    SameKeys(schema, item, other);
  }

  lemma TupleExists(schema: Schema, readers: Readers, item: Json)
    requires KeysOf(schema, item).Some?
    ensures PrimaryTuple(schema, readers, item).Some?
  {
  }
}
