/**
 * The administrative and lookup endpoints over the vector store: the
 * existence check, request validation for search, search by primary keys,
 * by inner id or by vector, dump, drop and the collection listing.
 */
module MilvusAdmin {
  import opened Wrappers
  import opened Milvus

  /** Width a semantic query vector must have (`Vector768`). */
  const QueryWidth: nat := 768
  const DefaultSearchLimit: int := 10
  const MaxSearchLimit: int := 128
  const DefaultDumpLimit: int := 1000
  /** The largest `offset + limit` a store query accepts (the server's default `maxQueryResultWindow`). */
  const MaxQueryWindow: int := 16384

  /** An entity cut down to `_OUT_FIELDS`: the step and expected-result texts are not returned. */
  datatype OutRow = OutRow(idx: int, vector: seq<real>, innerId: int, directionName: string, sectionName: string, testCaseName: string)

  function Project(e: Entity): OutRow
  {
    OutRow(e.idx, e.vector, e.innerId, e.directionName, e.sectionName, e.testCaseName)
  }

  function ProjectAll(es: seq<Entity>): (rows: seq<OutRow>)
    ensures |rows| == |es| && forall i :: 0 <= i < |es| ==> rows[i] == Project(es[i])
  {
    seq(|es|, i requires 0 <= i < |es| => Project(es[i]))
  }

  /** `_collection_or_404`. */
  function CollectionOr404(m: map<string, Collection>, name: string): (r: Result<string, HttpError>)
    ensures r.Ok? <==> name in m
    ensures r.Ok? ==> r.value == name
    ensures r.Err? ==> r.error.statusCode == NotFound
  {
    if name !in m then Err(HttpError(NotFound)) else Ok(name)
  }

  // ---------------------------------------------------------------------
  // Record filters the store evaluates
  // ---------------------------------------------------------------------

  /** The record selections the handlers ask the store for. */
  datatype Filter =
    | PrimaryKeyIn(ids: seq<int>)   // `get(ids=...)`
    | InnerIdIs(k: int)             // `inner_id == k`
    | IdxAtLeast(bound: int)        // `idx >= bound`

  predicate Matches(e: Entity, f: Filter)
  {
    match f
    case PrimaryKeyIn(ids) => e.idx in ids
    case InnerIdIs(k) => e.innerId == k
    case IdxAtLeast(bound) => e.idx >= bound
  }

  /** The records matching `f`, in stored order: all of them and only them. */
  function Where(records: seq<Entity>, f: Filter): (r: seq<Entity>)
    ensures |r| <= |records|
    ensures forall i :: 0 <= i < |r| ==> Matches(r[i], f) && r[i] in records
    ensures forall i :: 0 <= i < |records| && Matches(records[i], f) ==> records[i] in r
  {
    if records == [] then []
    else
      var rest := Where(records[1..], f);
      assert forall i :: 1 <= i < |records| ==> records[i] == records[1..][i - 1];
      (if Matches(records[0], f) then [records[0]] else []) + rest
  }

  /** Selection keeps stored order: filtering a concatenation filters each part in turn. */
  lemma {:induction false} WhereAppend(a: seq<Entity>, b: seq<Entity>, f: Filter)
    ensures Where(a + b, f) == Where(a, f) + Where(b, f)
    decreases |a|
  {
    if a == [] {
      assert a + b == b;
    } else {
      assert (a + b)[0] == a[0];
      assert (a + b)[1..] == a[1..] + b;
      WhereAppend(a[1..], b, f);
    }
  }

  /** At most `n` leading elements. */
  function Take<T>(xs: seq<T>, n: int): (r: seq<T>)
    ensures |r| <= |xs| && (n >= 0 ==> |r| <= n)
    ensures r == xs[..|r|]
    ensures n >= |xs| ==> r == xs
  {
    if n <= 0 then [] else if n >= |xs| then xs else xs[..n]
  }

  /** A limited query returns no row more often than the store holds it. */
  lemma TakeProjectedWithin(records: seq<Entity>, n: int)
    ensures multiset(ProjectAll(Take(records, n))) <= multiset(ProjectAll(records))
  {
    var rows := Take(records, n);
    var projected := ProjectAll(records);
    assert ProjectAll(rows) == projected[..|rows|];
    assert projected == projected[..|rows|] + projected[|rows|..];
  }

  // ---------------------------------------------------------------------
  // SearchRequest
  // ---------------------------------------------------------------------

  /** The request body as sent; `limit` may be left out. */
  datatype SearchBody = SearchBody(
    collection: string,
    mode: string,
    idx: Option<seq<int>>,
    innerId: Option<int>,
    vector: Option<seq<real>>,
    limit: Option<int>)

  /** The request the handler receives, after validation and defaults. */
  datatype SearchRequest = SearchRequest(
    collection: string,
    mode: string,
    idx: Option<seq<int>>,
    innerId: Option<int>,
    vector: Option<seq<real>>,
    limit: int)

  predicate KnownMode(mode: string)
  {
    mode == "idx" || mode == "inner_id" || mode == "semantic"
  }

  /** What the request model admits. */
  predicate ValidRequest(req: SearchRequest)
  {
    && KnownMode(req.mode)
    && (req.vector.Some? ==> |req.vector.value| == QueryWidth)
    && 1 <= req.limit <= MaxSearchLimit
  }

  /**
   * `SearchRequest` validation, which runs before the handler: the mode
   * must match the pattern, a vector must have exactly 768 entries and the
   * limit (10 when absent) must lie in [1, 128]; anything else is 422.
   */
  function ParseSearchRequest(body: SearchBody): (r: Result<SearchRequest, HttpError>)
    ensures r.Ok? ==> ValidRequest(r.value)
    ensures r.Ok? ==>
      && r.value.collection == body.collection && r.value.mode == body.mode
      && r.value.idx == body.idx && r.value.innerId == body.innerId && r.value.vector == body.vector
      && r.value.limit == (if body.limit.Some? then body.limit.value else DefaultSearchLimit)
    ensures r.Err? ==> r.error == HttpError(UnprocessableEntity)
    ensures r.Err? <==>
      || !KnownMode(body.mode)
      || (body.vector.Some? && |body.vector.value| != QueryWidth)
      || (body.limit.Some? && !(1 <= body.limit.value <= MaxSearchLimit))
  {
    var limit := if body.limit.Some? then body.limit.value else DefaultSearchLimit;
    var req := SearchRequest(body.collection, body.mode, body.idx, body.innerId, body.vector, limit);
    if ValidRequest(req) then Ok(req) else Err(HttpError(UnprocessableEntity))
  }

  // ---------------------------------------------------------------------
  // Endpoints
  // ---------------------------------------------------------------------

  /**
   * `search`: 404 for an absent collection before anything else; then, by
   * mode, 422 for the missing parameter or the matching records cut to the
   * output fields: by primary key, every record with that inner id, or the
   * first `limit` of the store's ranking (`rank`) for the query vector,
   * which the store refuses (an uncaught error, 500) unless the collection's
   * vectors are 768 wide; a mode outside the three is 422.
   */
  method Search(store: VectorStore, request: SearchRequest, rank: (seq<Entity>, seq<real>) -> seq<Entity>)
    returns (r: Result<seq<OutRow>, HttpError>)
    ensures request.collection !in store.collections ==> r == Err(HttpError(NotFound))
    ensures request.collection in store.collections ==>
      var records := store.collections[request.collection].records;
      && (request.mode == "idx" ==>
            if request.idx.None? || request.idx.value == [] then r == Err(HttpError(UnprocessableEntity))
            else r == Ok(ProjectAll(Where(records, PrimaryKeyIn(request.idx.value)))))
      && (request.mode == "inner_id" ==>
            if request.innerId.None? then r == Err(HttpError(UnprocessableEntity))
            else r == Ok(ProjectAll(Where(records, InnerIdIs(request.innerId.value)))))
      && (request.mode == "semantic" ==>
            if request.vector.None? then r == Err(HttpError(UnprocessableEntity))
            else if FieldDim(store.collections[request.collection].fields, "vector") != Some(|request.vector.value|) then
              r == Err(HttpError(InternalServerError))
            else r == Ok(ProjectAll(Take(rank(records, request.vector.value), request.limit))))
      && (!KnownMode(request.mode) ==> r == Err(HttpError(UnprocessableEntity)))
  {
    var found := CollectionOr404(store.collections, request.collection);
    if found.Err? {
      return Err(found.error);
    }
    var records := store.collections[request.collection].records;
    if request.mode == "idx" {
      if request.idx.None? || request.idx.value == [] {
        return Err(HttpError(UnprocessableEntity));
      }
      var ids := request.idx.value;
      return Ok(ProjectAll(Where(records, PrimaryKeyIn(ids))));
    }
    if request.mode == "inner_id" {
      if request.innerId.None? {
        return Err(HttpError(UnprocessableEntity));
      }
      var k := request.innerId.value;
      return Ok(ProjectAll(Where(records, InnerIdIs(k))));
    }
    if request.mode == "semantic" {
      if request.vector.None? {
        return Err(HttpError(UnprocessableEntity));
      }
      if FieldDim(store.collections[request.collection].fields, "vector") != Some(|request.vector.value|) {
        return Err(HttpError(InternalServerError));
      }
      var hits := rank(records, request.vector.value);
      return Ok(ProjectAll(Take(hits, request.limit)));
    }
    return Err(HttpError(UnprocessableEntity));
  }

  /** A validated request always reaches one of the three modes: the final 422 is only for unvalidated input. */
  lemma ParsedRequestsDispatch(body: SearchBody)
    requires ParseSearchRequest(body).Ok?
    ensures KnownMode(ParseSearchRequest(body).value.mode)
    ensures 1 <= ParseSearchRequest(body).value.limit <= 128
  {
  }

  /**
   * `dump_collection`: 404 for an absent collection; a limit outside the
   * store's query window is refused by the store (an uncaught error, 500);
   * otherwise at most `limit` of the records with `idx >= 0`, each at most
   * once, cut to the output fields.
   */
  method Dump(store: VectorStore, collection: string, limit: int := DefaultDumpLimit)
    returns (r: Result<seq<OutRow>, HttpError>)
    ensures collection !in store.collections <==> r == Err(HttpError(NotFound))
    ensures collection in store.collections && !(1 <= limit <= MaxQueryWindow) ==> r == Err(HttpError(InternalServerError))
    ensures r.Ok? <==> collection in store.collections && 1 <= limit <= MaxQueryWindow
    ensures r.Ok? ==> |r.value| <= limit
    ensures r.Ok? ==> forall i :: 0 <= i < |r.value| ==> r.value[i].idx >= 0
    ensures r.Ok? ==> forall i :: 0 <= i < |r.value| ==> r.value[i] in ProjectAll(store.collections[collection].records)
    ensures r.Ok? ==>
      multiset(r.value) <= multiset(ProjectAll(Where(store.collections[collection].records, IdxAtLeast(0))))
    ensures r.Ok? && |Where(store.collections[collection].records, IdxAtLeast(0))| <= limit ==>
      |r.value| == |Where(store.collections[collection].records, IdxAtLeast(0))|
  {
    var found := CollectionOr404(store.collections, collection);
    if found.Err? {
      return Err(found.error);
    }
    if !(1 <= limit <= MaxQueryWindow) {
      return Err(HttpError(InternalServerError));
    }
    var matching := Where(store.collections[collection].records, IdxAtLeast(0));
    var rows := Take(matching, limit);
    var out := ProjectAll(rows);
    TakeProjectedWithin(matching, limit);
    var all := ProjectAll(store.collections[collection].records);
    forall i | 0 <= i < |out| ensures out[i] in all {
      assert rows[i] == matching[i];
      var j :| 0 <= j < |store.collections[collection].records| && store.collections[collection].records[j] == rows[i];
      assert all[j] == out[i];
    }
    r := Ok(out);
  }

  /**
   * `drop_collection`: 404 and no change for an absent collection; otherwise
   * the collection is gone, every other one is untouched, and its name is
   * returned.
   */
  method DropCollection(store: VectorStore, collection: string) returns (r: Result<string, HttpError>)
    modifies store
    ensures old(collection !in store.collections) ==>
      r == Err(HttpError(NotFound)) && store.collections == old(store.collections)
    ensures old(collection in store.collections) ==>
      && r == Ok(collection)
      && collection !in store.collections
      && store.collections.Keys == old(store.collections.Keys) - {collection}
      && forall n :: n in store.collections ==> store.collections[n] == old(store.collections[n])
  {
    var found := CollectionOr404(store.collections, collection);
    if found.Err? {
      return Err(found.error);
    }
    store.Drop(collection);
    r := Ok(collection);
  }

  /** `list_collections`: every collection name, each once. */
  method ListCollections(store: VectorStore) returns (names: seq<string>)
    ensures forall n :: n in names <==> n in store.collections
    ensures forall i, j :: 0 <= i < j < |names| ==> names[i] != names[j]
    ensures |names| == |store.collections|
  {
    names := [];
    var remaining := store.collections.Keys;
    while remaining != {}
      invariant remaining <= store.collections.Keys
      invariant forall n :: n in names <==> n in store.collections && n !in remaining
      invariant forall i, j :: 0 <= i < j < |names| ==> names[i] != names[j]
      invariant |names| + |remaining| == |store.collections.Keys|
      decreases |remaining|
    {
      var n :| n in remaining;
      names := names + [n];
      remaining := remaining - {n};
    }
  }
}
