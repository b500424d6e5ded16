/**
 * The vector store and its collection bootstrap: a name-to-collection map
 * held by the client, the eight-field schema and two indexes a new
 * collection is created with, create-if-absent, and `get_client`.
 */
module Milvus {
  import opened Wrappers

  /** Vector width used when the caller gives none (`_DEFAULT_DIM`). */
  const DefaultDim: nat := 768
  const NameCap: nat := 1024
  const TextCap: nat := 8192

  /** The range of an INT64 field; the client refuses a value outside it. */
  const MinInt64: int := -0x8000_0000_0000_0000
  const MaxInt64: int := 0x7FFF_FFFF_FFFF_FFFF

  datatype DataType = Int64 | FloatVector | VarChar

  /** A field of a collection schema; `dim` is set for vectors, `maxLength` for strings. */
  datatype FieldSchema = FieldSchema(name: string, dtype: DataType, isPrimary: bool, dim: Option<nat>, maxLength: Option<nat>)

  datatype IndexParam = IndexParam(fieldName: string, indexType: string, metricType: Option<string>, nlist: Option<nat>)

  /** One stored entity, one member per schema field. */
  datatype Entity = Entity(
    idx: int,
    vector: seq<real>,
    innerId: int,
    directionName: string,
    sectionName: string,
    testCaseName: string,
    steps: string,
    expectedResult: string)

  datatype Collection = Collection(fields: seq<FieldSchema>, indexes: seq<IndexParam>, records: seq<Entity>)

  function Scalar(name: string, dtype: DataType, maxLength: Option<nat>): FieldSchema
  {
    FieldSchema(name, dtype, false, None, maxLength)
  }

  /** The schema `_ensure_collection` creates a collection with. */
  function Schema(dim: nat): seq<FieldSchema>
  {
    [FieldSchema("idx", Int64, true, None, None),
     FieldSchema("vector", FloatVector, false, Some(dim), None),
     Scalar("inner_id", Int64, None),
     Scalar("direction_name", VarChar, Some(NameCap)),
     Scalar("section_name", VarChar, Some(NameCap)),
     Scalar("test_case_name", VarChar, Some(NameCap)),
     Scalar("steps", VarChar, Some(TextCap)),
     Scalar("expected_result", VarChar, Some(TextCap))]
  }

  function FieldNames(fields: seq<FieldSchema>): (names: seq<string>)
    ensures |names| == |fields| && forall i :: 0 <= i < |fields| ==> names[i] == fields[i].name
  {
    seq(|fields|, i requires 0 <= i < |fields| => fields[i].name)
  }

  /** The indexes `_ensure_collection` asks for. */
  function Indexes(): seq<IndexParam>
  {
    [IndexParam("idx", "STL_SORT", None, None),
     IndexParam("vector", "IVF_FLAT", Some("COSINE"), Some(128))]
  }

  /**
   * The schema has the eight fields in their fixed order; `idx` is the one
   * primary key; the vector has the requested width; the three name fields
   * are capped at 1024 characters and the two text fields at 8192.
   */
  lemma SchemaShape(dim: nat)
    ensures FieldNames(Schema(dim)) ==
      ["idx", "vector", "inner_id", "direction_name", "section_name", "test_case_name", "steps", "expected_result"]
    ensures forall i :: 0 <= i < 8 ==> (Schema(dim)[i].isPrimary <==> i == 0)
    ensures Schema(dim)[0].dtype == Int64 && Schema(dim)[2].dtype == Int64
    ensures Schema(dim)[1].dtype == FloatVector && Schema(dim)[1].dim == Some(dim)
    ensures forall i :: 3 <= i < 6 ==> Schema(dim)[i].dtype == VarChar && Schema(dim)[i].maxLength == Some(1024)
    ensures forall i :: 6 <= i < 8 ==> Schema(dim)[i].dtype == VarChar && Schema(dim)[i].maxLength == Some(8192)
  {
  }

  /** A field's value in an entity, as the store sees it. */
  datatype Value = IntValue(n: int) | VectorValue(v: seq<real>) | TextValue(s: string) | Absent

  function ValueOf(e: Entity, name: string): Value
  {
    if name == "idx" then IntValue(e.idx)
    else if name == "vector" then VectorValue(e.vector)
    else if name == "inner_id" then IntValue(e.innerId)
    else if name == "direction_name" then TextValue(e.directionName)
    else if name == "section_name" then TextValue(e.sectionName)
    else if name == "test_case_name" then TextValue(e.testCaseName)
    else if name == "steps" then TextValue(e.steps)
    else if name == "expected_result" then TextValue(e.expectedResult)
    else Absent
  }

  /** The store's type and size check of one value against its field. */
  predicate Fits(v: Value, f: FieldSchema)
  {
    match f.dtype
    case Int64 => v.IntValue? && MinInt64 <= v.n <= MaxInt64
    case FloatVector => v.VectorValue? && f.dim.Some? && |v.v| == f.dim.value
    case VarChar => v.TextValue? && (f.maxLength.Some? ==> |v.s| <= f.maxLength.value)
  }

  predicate Conforms(e: Entity, fields: seq<FieldSchema>)
  {
    forall i :: 0 <= i < |fields| ==> Fits(ValueOf(e, fields[i].name), fields[i])
  }

  /**
   * An entity fits the bootstrap schema exactly when its two ids are within
   * the 64-bit range, its vector has the collection's width and its strings
   * are within the VARCHAR caps.
   */
  lemma ConformsToSchema(e: Entity, dim: nat)
    ensures Conforms(e, Schema(dim)) <==>
      && MinInt64 <= e.idx <= MaxInt64 && MinInt64 <= e.innerId <= MaxInt64
      && |e.vector| == dim
      && |e.directionName| <= NameCap && |e.sectionName| <= NameCap && |e.testCaseName| <= NameCap
      && |e.steps| <= TextCap && |e.expectedResult| <= TextCap
  {
    var s := Schema(dim);
    if Conforms(e, s) {
      assert Fits(ValueOf(e, s[0].name), s[0]);
      assert Fits(ValueOf(e, s[1].name), s[1]);
      assert Fits(ValueOf(e, s[2].name), s[2]);
      assert Fits(ValueOf(e, s[3].name), s[3]);
      assert Fits(ValueOf(e, s[4].name), s[4]);
      assert Fits(ValueOf(e, s[5].name), s[5]);
      assert Fits(ValueOf(e, s[6].name), s[6]);
      assert Fits(ValueOf(e, s[7].name), s[7]);
    }
  }

  /** The width declared for the field `name`: the first field of that name that has one. */
  function FieldDim(fields: seq<FieldSchema>, name: string): (d: Option<nat>)
    ensures d.Some? ==> exists i :: 0 <= i < |fields| && fields[i].name == name && fields[i].dim == d
    ensures d.None? ==> forall i :: 0 <= i < |fields| && fields[i].name == name ==> fields[i].dim.None?
  {
    if fields == [] then None
    else if fields[0].name == name && fields[0].dim.Some? then fields[0].dim
    else
      var rest := FieldDim(fields[1..], name);
      assert forall i :: 1 <= i < |fields| ==> fields[i] == fields[1..][i - 1];
      rest
  }

  /** A collection the bootstrap created takes vectors of the width it was created with. */
  lemma SchemaVectorDim(dim: nat)
    ensures FieldDim(Schema(dim), "vector") == Some(dim)
  {
    var s := Schema(dim);
    assert s[0].name == "idx" && s[1].name == "vector";
    assert s[1..][0] == s[1];
  }

  /** A freshly created, empty collection. */
  function NewCollection(dim: nat): Collection
  {
    Collection(Schema(dim), Indexes(), [])
  }

  /** The collections after `_ensure_collection(name, dim)`. */
  function Ensured(m: map<string, Collection>, name: string, dim: nat): (r: map<string, Collection>)
    ensures name in r && r.Keys == m.Keys + {name}
    ensures name in m ==> r == m
    ensures name !in m ==> r[name] == NewCollection(dim)
    ensures forall n :: n in m ==> r[n] == m[n]
  {
    if name in m then m else m[name := NewCollection(dim)]
  }

  /**
   * Ensuring twice leaves what the first call left: the second call's
   * width is ignored.
   */
  lemma EnsuredIdempotent(m: map<string, Collection>, name: string, dim1: nat, dim2: nat)
    ensures Ensured(Ensured(m, name, dim1), name, dim2) == Ensured(m, name, dim1)
    ensures Ensured(Ensured(m, name, dim1), name, dim2)[name].fields == if name in m then m[name].fields else Schema(dim1)
  {
  }

  /** Why the store rejects an insert. */
  datatype InsertError = CollectionNotFound | SchemaMismatch(position: nat)

  /** The first entity of `rows` that does not fit `fields`, if any. */
  function FirstMisfit(rows: seq<Entity>, fields: seq<FieldSchema>): (r: Option<nat>)
    ensures r.None? <==> forall i :: 0 <= i < |rows| ==> Conforms(rows[i], fields)
    ensures r.Some? ==>
      && r.value < |rows| && !Conforms(rows[r.value], fields)
      && forall i :: 0 <= i < r.value ==> Conforms(rows[i], fields)
  {
    if rows == [] then None
    else if !Conforms(rows[0], fields) then Some(0)
    else
      match FirstMisfit(rows[1..], fields)
      case None => None
      case Some(k) => Some(k + 1)
  }

  /** What `insert` leaves: the whole batch is appended, or nothing is when one entity does not fit. */
  function Inserted(m: map<string, Collection>, name: string, rows: seq<Entity>): (r: Result<map<string, Collection>, InsertError>)
    ensures name !in m ==> r == Err(CollectionNotFound)
    ensures r.Ok? <==> name in m && forall i :: 0 <= i < |rows| ==> Conforms(rows[i], m[name].fields)
    ensures r.Ok? ==>
      && r.value.Keys == m.Keys
      && r.value[name].records == m[name].records + rows
      && r.value[name].fields == m[name].fields && r.value[name].indexes == m[name].indexes
      && forall n :: n in m && n != name ==> r.value[n] == m[n]
  {
    if name !in m then Err(CollectionNotFound)
    else
      match FirstMisfit(rows, m[name].fields)
      case Some(k) => Err(SchemaMismatch(k))
      case None => Ok(m[name := m[name].(records := m[name].records + rows)])
  }

  /** The client of a running server: the collections the server holds. */
  class VectorStore {
    var collections: map<string, Collection>

    /** Connecting sees whatever collections the server already keeps. */
    constructor (existing: map<string, Collection>)
      ensures collections == existing
    {
      collections := existing;
    }

    function HasCollection(name: string): (r: bool)
      reads this
      ensures r <==> name in collections
    {
      name in collections
    }

    /** `_ensure_collection`: create `name` with the bootstrap schema and indexes unless it exists. */
    method EnsureCollection(name: string, dim: nat := DefaultDim)
      modifies this
      ensures collections == Ensured(old(collections), name, dim)
    {
      if HasCollection(name) {
        return;
      }
      var schema := Schema(dim);
      var indexParams: seq<IndexParam> := [];
      indexParams := indexParams + [IndexParam("idx", "STL_SORT", None, None)];
      indexParams := indexParams + [IndexParam("vector", "IVF_FLAT", Some("COSINE"), Some(128))];
      assert indexParams == Indexes();
      collections := collections[name := Collection(schema, indexParams, [])];
    }

    /** `insert`: append the batch to `name`, all or nothing. */
    method Insert(name: string, rows: seq<Entity>) returns (r: Result<nat, InsertError>)
      modifies this
      ensures Inserted(old(collections), name, rows).Ok? ==>
        r == Ok(|rows|) && collections == Inserted(old(collections), name, rows).value
      ensures Inserted(old(collections), name, rows).Err? ==>
        r == Err(Inserted(old(collections), name, rows).error) && collections == old(collections)
    {
      var outcome := Inserted(collections, name, rows);
      if outcome.Err? {
        return Err(outcome.error);
      }
      collections := outcome.value;
      r := Ok(|rows|);
    }

    /** `drop_collection`. */
    method Drop(name: string)
      modifies this
      ensures collections == old(collections) - {name}
    {
      collections := collections - {name};
    }
  }

  /**
   * `get_client`: the one client, with `collectionName` ensured when one is
   * given; without a name nothing is created.
   */
  method GetClient(store: VectorStore, collectionName: Option<string>, dim: nat := DefaultDim) returns (client: VectorStore)
    modifies store
    ensures client == store
    ensures collectionName.None? ==> store.collections == old(store.collections)
    ensures collectionName.Some? ==> store.collections == Ensured(old(store.collections), collectionName.value, dim)
  {
    client := store;
    if collectionName.Some? {
      client.EnsureCollection(collectionName.value, dim);
    }
  }
}
