/**
 * The vectorisation service: load a staged dataset by job id, turn each
 * record into one sentence, embed the sentences, and insert one row per
 * record into the target collection, ensured with the embedding width.
 */
module Vectorizer {
  import opened Wrappers
  import Columns
  import opened Ingest
  import opened Milvus

  /** The text `str()` gives for a null field of a staged record. */
  const NullText: string := "None"

  /** The text `_encode` builds for one record; blank fields read as "". */
  function Sentence(rec: CaseRecord): string
  {
    OrEmpty(rec.direction) + " | " + OrEmpty(rec.testCaseName) + " | " + rec.steps + " | " + OrEmpty(rec.expectedResult)
  }

  /**
   * The sentence is Direction, TestCaseName, Steps and ExpectedResult joined
   * by " | ", blanks as the empty string.
   */
  lemma SentenceIsJoin(rec: CaseRecord)
    ensures Sentence(rec) ==
      Columns.JoinWith(" | ", [OrEmpty(rec.direction), OrEmpty(rec.testCaseName), rec.steps, OrEmpty(rec.expectedResult)])
  {
    var d, n, st, e := OrEmpty(rec.direction), OrEmpty(rec.testCaseName), rec.steps, OrEmpty(rec.expectedResult);
    var parts := [d, n, st, e];
    assert parts[1..] == [n, st, e] && parts[1..][1..] == [st, e] && parts[1..][1..][1..] == [e];
    calc {
      Columns.JoinWith(" | ", parts);
      d + " | " + Columns.JoinWith(" | ", [n, st, e]);
      d + " | " + (n + " | " + Columns.JoinWith(" | ", [st, e]));
      d + " | " + (n + " | " + (st + " | " + e));
      d + " | " + n + " | " + st + " | " + e;
    }
  }

  /** Section and Id do not contribute to the sentence. */
  lemma SentenceIgnoresSectionAndId(rec: CaseRecord, id: int, section: Option<string>)
    ensures Sentence(rec.(id := id, section := section)) == Sentence(rec)
  {
  }

  /** One sentence per record, in record order. */
  function Sentences(df: seq<CaseRecord>): (s: seq<string>)
    ensures |s| == |df| && forall i :: 0 <= i < |df| ==> s[i] == Sentence(df[i])
  {
    seq(|df|, i requires 0 <= i < |df| => Sentence(df[i]))
  }

  /** The vectors `_encode` returns: the encoder applied to each sentence. */
  function Encoded(df: seq<CaseRecord>, encode: string -> seq<real>): (embeddings: seq<seq<real>>)
    ensures |embeddings| == |df| && forall i :: 0 <= i < |df| ==> embeddings[i] == encode(Sentences(df)[i])
  {
    var sentences := Sentences(df);
    seq(|df|, i requires 0 <= i < |df| => encode(sentences[i]))
  }

  /** `s.replace("\n", " ")`. */
  function ReplaceNewlines(s: string): (r: string)
    ensures |r| == |s|
    ensures forall i :: 0 <= i < |s| ==> r[i] == if s[i] == '\n' then ' ' else s[i]
    ensures '\n' !in r
  {
    if s == [] then ""
    else [if s[0] == '\n' then ' ' else s[0]] + ReplaceNewlines(s[1..])
  }

  /** `str(value)` of a staged field. */
  function StrOf(o: Option<string>): string
  {
    match o
    case Some(v) => v
    case None => NullText
  }

  /** The insert row built for record `rec` at batch position `i`. */
  function InsertRow(i: nat, embedding: seq<real>, rec: CaseRecord): Entity
  {
    Entity(i, embedding, rec.id, StrOf(rec.direction), StrOf(rec.section), StrOf(rec.testCaseName),
           ReplaceNewlines(rec.steps), ReplaceNewlines(StrOf(rec.expectedResult)))
  }

  function Min(a: nat, b: nat): nat { if a <= b then a else b }

  /**
   * The rows of the positional zip of embeddings and records: row i has
   * primary key i and the record's Id as inner id, and its texts carry no
   * newline.
   */
  function InsertRows(embeddings: seq<seq<real>>, df: seq<CaseRecord>): (rows: seq<Entity>)
    ensures |rows| == Min(|embeddings|, |df|)
    ensures forall i :: 0 <= i < |rows| ==>
      && rows[i].idx == i && rows[i].innerId == df[i].id && rows[i].vector == embeddings[i]
      && '\n' !in rows[i].steps && '\n' !in rows[i].expectedResult
  {
    seq(Min(|embeddings|, |df|), i requires 0 <= i < Min(|embeddings|, |df|) => InsertRow(i, embeddings[i], df[i]))
  }

  /** The loop of `_insert_into_milvus` that builds the bulk-insert rows. */
  method BuildRows(embeddings: seq<seq<real>>, df: seq<CaseRecord>) returns (rows: seq<Entity>)
    ensures rows == InsertRows(embeddings, df)
    ensures forall i :: 0 <= i < |rows| ==>
      && rows[i].directionName == StrOf(df[i].direction)
      && rows[i].sectionName == StrOf(df[i].section)
      && rows[i].testCaseName == StrOf(df[i].testCaseName)
      && |rows[i].steps| == |df[i].steps|
      && forall k :: 0 <= k < |df[i].steps| && df[i].steps[k] != '\n' ==> rows[i].steps[k] == df[i].steps[k]
  {
    rows := [];
    var n := Min(|embeddings|, |df|);
    var i := 0;
    while i < n
      invariant 0 <= i <= n && |rows| == i
      invariant forall k :: 0 <= k < i ==> rows[k] == InsertRow(k, embeddings[k], df[k])
    {
      rows := rows + [InsertRow(i, embeddings[i], df[i])];
      i := i + 1;
    }
  }

  /** Why a run fails. */
  datatype VectorizeError =
    | JobNotFound                        // KeyError: no staged dataset under the job id
    | NoColumns                          // KeyError: an empty dataset reads back as a frame without columns
    | InsertFailed(cause: InsertError)   // the store rejected the batch

  /** `_load_dataframe`: the staged records, or KeyError when the job is unknown or expired. */
  function LoadDataframe(staged: map<string, seq<CaseRecord>>, jobId: string): (r: Result<seq<CaseRecord>, VectorizeError>)
    ensures r.Ok? <==> jobId in staged
    ensures r.Ok? ==> r.value == staged[jobId]
    ensures r.Err? ==> r.error == JobNotFound
  {
    if jobId in staged then Ok(staged[jobId]) else Err(JobNotFound)
  }

  /** The `vectorize` endpoint's `except` clauses: KeyError is 404, anything else 422. */
  function VectorizeStatus(e: VectorizeError): (status: int)
    ensures status == NotFound <==> e == JobNotFound || e == NoColumns
    ensures status != NotFound ==> status == UnprocessableEntity
  {
    if e.InsertFailed? then UnprocessableEntity else NotFound
  }

  /** The collections after a run on a non-empty batch, and what the run returns. */
  function RunOutcome(m: map<string, Collection>, collection: string, batch: seq<CaseRecord>, encode: string -> seq<real>)
    : (r: (map<string, Collection>, Result<nat, VectorizeError>))
    requires batch != []
  {
    var embeddings := Encoded(batch, encode);
    var ensured := Ensured(m, collection, |embeddings[0]|);
    var count: nat := |batch|;
    match Inserted(ensured, collection, InsertRows(embeddings, batch))
    case Ok(after) => (after, Ok(count))
    case Err(e) => (ensured, Err(InsertFailed(e)))
  }

  /**
   * A batch whose vectors all have one width and whose texts are within the
   * caps is inserted in full into a collection that did not exist: the new
   * collection holds exactly the built rows and the count is the batch size.
   */
  lemma FreshCollectionTakesBatch(m: map<string, Collection>, collection: string, batch: seq<CaseRecord>, encode: string -> seq<real>)
    requires batch != [] && collection !in m
    requires |batch| <= MaxInt64 && forall i :: 0 <= i < |batch| ==> MinInt64 <= batch[i].id <= MaxInt64
    requires forall i :: 0 <= i < |batch| ==> |encode(Sentence(batch[i]))| == |encode(Sentence(batch[0]))|
    requires forall i :: 0 <= i < |batch| ==>
      && |StrOf(batch[i].direction)| <= NameCap && |StrOf(batch[i].section)| <= NameCap
      && |StrOf(batch[i].testCaseName)| <= NameCap
      && |batch[i].steps| <= TextCap && |StrOf(batch[i].expectedResult)| <= TextCap
    ensures RunOutcome(m, collection, batch, encode).1 == Ok(|batch|)
    ensures RunOutcome(m, collection, batch, encode).0[collection].records ==
      InsertRows(Encoded(batch, encode), batch)
    ensures RunOutcome(m, collection, batch, encode).0[collection].fields ==
      Schema(|encode(Sentence(batch[0]))|)
  {
    var embeddings := Encoded(batch, encode);
    var width := |embeddings[0]|;
    var rows := InsertRows(embeddings, batch);
    var ensured := Ensured(m, collection, width);
    forall i | 0 <= i < |rows| ensures Conforms(rows[i], ensured[collection].fields) {
      assert rows[i] == InsertRow(i, embeddings[i], batch[i]);
      ConformsToSchema(rows[i], width);
    }
  }

  /** `Vectorizer`: the job it works on and what the last run loaded and encoded. */
  class Vectorizer {
    const jobId: string
    var df: Option<seq<CaseRecord>>
    var embeddings: Option<seq<seq<real>>>

    constructor (jobId: string)
      ensures this.jobId == jobId && df == None && embeddings == None
    {
      this.jobId := jobId;
      df := None;
      embeddings := None;
    }

    /**
     * `run`: `staged` is what the cache holds, `encode` the sentence encoder.
     * An unknown job fails before anything is loaded or stored. Otherwise the
     * records are kept; an empty dataset has no columns, so building the
     * sentences fails with KeyError before any vector is kept. Otherwise the
     * vectors are kept, the collection is ensured with the vector width, and
     * the batch is inserted.
     */
    method Run(collection: string, staged: map<string, seq<CaseRecord>>, encode: string -> seq<real>, store: VectorStore)
      returns (r: Result<nat, VectorizeError>)
      modifies this, store
      ensures jobId !in staged ==>
        r == Err(JobNotFound) && df == old(df) && embeddings == old(embeddings) &&
        store.collections == old(store.collections)
      ensures jobId in staged ==> df == Some(staged[jobId])
      ensures jobId in staged && staged[jobId] == [] ==>
        r == Err(NoColumns) && embeddings == old(embeddings) && store.collections == old(store.collections)
      ensures jobId in staged && staged[jobId] != [] ==>
        && embeddings == Some(Encoded(staged[jobId], encode))
        && (store.collections, r) == RunOutcome(old(store.collections), collection, staged[jobId], encode)
    {
      var loaded := LoadDataframe(staged, jobId);
      if loaded.Err? {
        return Err(loaded.error);
      }
      df := Some(loaded.value);
      if loaded.value == [] {
        return Err(NoColumns);
      }
      var vectors := Encoded(loaded.value, encode);
      embeddings := Some(vectors);
      var client := GetClient(store, Some(collection), |vectors[0]|);
      var rows := BuildRows(vectors, loaded.value);
      var inserted := client.Insert(collection, rows);
      if inserted.Err? {
        return Err(InsertFailed(inserted.error));
      }
      r := Ok(|rows|);
    }
  }
}
