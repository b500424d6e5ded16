/**
 * The ingest endpoint: load the workbook, concatenate the per-case frames,
 * flatten them to one record per Id, stage the records under a fresh job id
 * with the default time-to-live, and map failures to HTTP status codes.
 */
module Ingest {
  import opened Wrappers
  import Columns
  import Grouping
  import opened CaseLoader

  /** Lifetime of a staged dataset, in seconds (`cache.DEFAULT_TTL`). */
  const DefaultTtl: nat := 3600

  /** One flattened test case, as staged for the vectorizer. */
  datatype CaseRecord = CaseRecord(
    id: int,
    direction: Option<string>,
    section: Option<string>,
    testCaseName: Option<string>,
    steps: string,
    expectedResult: Option<string>)

  function CaseColumn(rows: seq<CaseRow>, f: CaseRow -> Option<string>): (col: seq<Option<string>>)
    ensures |col| == |rows| && forall i :: 0 <= i < |rows| ==> col[i] == f(rows[i])
  {
    seq(|rows|, i requires 0 <= i < |rows| => f(rows[i]))
  }

  function DirectionOf(c: CaseRow): Option<string> { c.direction }
  function SectionOf(c: CaseRow): Option<string> { c.section }
  function NameOf(c: CaseRow): Option<string> { c.testCaseName }
  function StepsOf(c: CaseRow): Option<string> { c.steps }
  function ExpectedOf(c: CaseRow): Option<string> { c.expectedResult }

  /** `agg({..: "first", "Steps": " ".join(s.dropna())})` over the rows of one Id. */
  function Flatten(id: int, rows: seq<CaseRow>): CaseRecord
  {
    CaseRecord(
      id,
      Columns.FirstPresent(CaseColumn(rows, DirectionOf)),
      Columns.FirstPresent(CaseColumn(rows, SectionOf)),
      Columns.FirstPresent(CaseColumn(rows, NameOf)),
      Columns.JoinWith(" ", Columns.Present(CaseColumn(rows, StepsOf))),
      Columns.FirstPresent(CaseColumn(rows, ExpectedOf)))
  }

  /**
   * A flattened record takes the first non-null Direction, Section,
   * TestCaseName and ExpectedResult of its rows (null only when all are),
   * and its Steps is empty when no row has Steps.
   */
  lemma FlattenSpec(id: int, rows: seq<CaseRow>)
    ensures Flatten(id, rows).id == id
    ensures Flatten(id, rows).direction.None? <==> forall i :: 0 <= i < |rows| ==> rows[i].direction.None?
    ensures Flatten(id, rows).direction.Some? ==>
      exists i :: 0 <= i < |rows| && rows[i].direction == Flatten(id, rows).direction &&
        forall j :: 0 <= j < i ==> rows[j].direction.None?
    ensures Flatten(id, rows).section.None? <==> forall i :: 0 <= i < |rows| ==> rows[i].section.None?
    ensures Flatten(id, rows).section.Some? ==>
      exists i :: 0 <= i < |rows| && rows[i].section == Flatten(id, rows).section &&
        forall j :: 0 <= j < i ==> rows[j].section.None?
    ensures Flatten(id, rows).testCaseName.None? <==> forall i :: 0 <= i < |rows| ==> rows[i].testCaseName.None?
    ensures Flatten(id, rows).testCaseName.Some? ==>
      exists i :: 0 <= i < |rows| && rows[i].testCaseName == Flatten(id, rows).testCaseName &&
        forall j :: 0 <= j < i ==> rows[j].testCaseName.None?
    ensures Flatten(id, rows).expectedResult.None? <==> forall i :: 0 <= i < |rows| ==> rows[i].expectedResult.None?
    ensures Flatten(id, rows).expectedResult.Some? ==>
      exists i :: 0 <= i < |rows| && rows[i].expectedResult == Flatten(id, rows).expectedResult &&
        forall j :: 0 <= j < i ==> rows[j].expectedResult.None?
    ensures (forall i :: 0 <= i < |rows| ==> rows[i].steps.None?) ==> Flatten(id, rows).steps == ""
  {
    FirstOfColumn(rows, DirectionOf);
    FirstOfColumn(rows, SectionOf);
    FirstOfColumn(rows, NameOf);
    FirstOfColumn(rows, ExpectedOf);
  }

  /** The "first" aggregation of one column, in terms of the rows. */
  lemma FirstOfColumn(rows: seq<CaseRow>, f: CaseRow -> Option<string>)
    ensures Columns.FirstPresent(CaseColumn(rows, f)).None? <==> forall i :: 0 <= i < |rows| ==> f(rows[i]).None?
    ensures Columns.FirstPresent(CaseColumn(rows, f)).Some? ==>
      exists i :: 0 <= i < |rows| && f(rows[i]) == Columns.FirstPresent(CaseColumn(rows, f)) &&
        forall j :: 0 <= j < i ==> f(rows[j]).None?
  {
  }

  /**
   * One more row leaves the Steps join as it was when its Steps is blank;
   * otherwise its Steps is appended after a single space.
   */
  lemma FlattenStepsAppend(id: int, rows: seq<CaseRow>, last: CaseRow)
    ensures last.steps.None? ==> Flatten(id, rows + [last]).steps == Flatten(id, rows).steps
    ensures last.steps.Some? ==>
      Flatten(id, rows + [last]).steps ==
        if Columns.Present(CaseColumn(rows, StepsOf)) == [] then last.steps.value
        else Flatten(id, rows).steps + " " + last.steps.value
  {
    var s := CaseColumn(rows, StepsOf);
    var s' := CaseColumn(rows + [last], StepsOf);
    assert s' == s + [last.steps];
    PresentAppend(s, last.steps);
    if last.steps.Some? {
      Columns.JoinWithAppend(" ", Columns.Present(s), last.steps.value);
    } else {
      assert Columns.Present(s') == Columns.Present(s);
    }
  }

  lemma {:induction false} PresentAppend(s: seq<Option<string>>, x: Option<string>)
    ensures Columns.Present(s + [x]) == Columns.Present(s) + (if x.Some? then [x.value] else [])
    decreases |s|
  {
    if s != [] {
      assert (s + [x])[1..] == s[1..] + [x];
      PresentAppend(s[1..], x);
    } else {
      assert [x][1..] == [];
    }
  }

  /** `df_all.groupby("Id", as_index=False).agg(...)`: one record per distinct Id, ascending. */
  function Aggregate(all: seq<CaseRow>): (records: seq<CaseRecord>)
    ensures |records| == |Grouping.GroupKeys(all, CaseKey)|
    ensures forall j :: 0 <= j < |records| ==>
      records[j] == Flatten(Grouping.GroupKeys(all, CaseKey)[j], Grouping.GroupBy(all, CaseKey)[j])
  {
    var ks := Grouping.GroupKeys(all, CaseKey);
    var groups := Grouping.GroupBy(all, CaseKey);
    seq(|ks|, j requires 0 <= j < |ks| => Flatten(ks[j], groups[j]))
  }

  /** What the handler's `try` block can raise. */
  datatype Raised = Loader(error: LoadError) | NothingToConcatenate

  datatype IngestResponse = IngestResponse(imported: nat, jobId: string, ttl: nat)

  /** The `cache.set_json(job_id, payload, ttl=ttl)` the handler performs. */
  datatype CacheWrite = CacheWrite(jobId: string, payload: seq<CaseRecord>, ttl: nat)

  datatype Ingested = Ingested(response: IngestResponse, write: CacheWrite)

  /** The handler's `except` clauses: FileNotFoundError is 404, anything else 422. */
  function StatusFor(e: Raised): (status: int)
    ensures status == NotFound <==> e == Loader(FileNotFoundError)
    ensures status != NotFound ==> status == UnprocessableEntity
  {
    match e
    case Loader(FileNotFoundError) => NotFound
    case _ => UnprocessableEntity
  }

  /** The handler's `try` block once the loader has returned or raised. */
  function IngestCases(cases: Result<seq<seq<CaseRow>>, LoadError>, jobId: string): Result<Ingested, Raised>
  {
    match cases
    case Err(e) => Err(Loader(e))
    case Ok(frames) =>
      if frames == [] then Err(NothingToConcatenate)
      else
        var payload := Aggregate(Grouping.Concat(frames));
        Ok(Ingested(IngestResponse(|frames|, jobId, DefaultTtl), CacheWrite(jobId, payload, DefaultTtl)))
  }

  /** `ingest`: `workbook` is what reading the file gives, `jobId` the fresh `uuid4().hex`. */
  function IngestJob(workbook: Result<Sheet, ReadFailure>, jobId: string): Result<Ingested, HttpError>
  {
    match IngestCases(Loaded(workbook), jobId)
    case Ok(v) => Ok(v)
    case Err(e) => Err(HttpError(StatusFor(e)))
  }

  /**
   * Flattening the concatenation of frames that are one per Id, ascending,
   * gives one record per frame, the j-th flattening the j-th frame.
   */
  lemma AggregateRegroups(frames: seq<seq<CaseRow>>, ks: seq<int>)
    requires Grouping.KeyedBy(frames, CaseKey, ks)
    ensures |Aggregate(Grouping.Concat(frames))| == |frames|
    ensures forall j :: 0 <= j < |frames| ==>
      CaseKey(frames[j][0]) == Some(ks[j]) && Aggregate(Grouping.Concat(frames))[j] == Flatten(ks[j], frames[j])
  {
    Grouping.GroupByConcat(frames, CaseKey, ks);
  }

  /**
   * `out` is what staging `frames` under `jobId` must give: one imported case
   * per frame, one record per frame (the j-th flattening the j-th frame, under
   * that frame's Id), the job id and the default TTL in both the response and
   * the cache write.
   */
  predicate StagesFrames(out: Ingested, frames: seq<seq<CaseRow>>, jobId: string)
  {
    && out.response.imported == |frames| == |out.write.payload| > 0
    && out.response.ttl == out.write.ttl == DefaultTtl
    && out.response.jobId == out.write.jobId == jobId
    && forall j :: 0 <= j < |frames| ==>
         frames[j] != [] && CaseKey(frames[j][0]).Some? &&
         out.write.payload[j] == Flatten(CaseKey(frames[j][0]).value, frames[j])
  }

  /** The `try` block on frames that are one per Id, ascending: one record per frame. */
  lemma IngestCasesSucceeds(frames: seq<seq<CaseRow>>, ks: seq<int>, jobId: string)
    requires Grouping.KeyedBy(frames, CaseKey, ks) && frames != []
    ensures IngestCases(Ok(frames), jobId).Ok?
    ensures StagesFrames(IngestCases(Ok(frames), jobId).value, frames, jobId)
  {
    AggregateRegroups(frames, ks);
  }

  /**
   * A successful ingest reports one imported case per loader frame, stages
   * exactly one record per frame (the j-th flattening the j-th frame) under
   * the returned job id, and reports and stores the default TTL.
   */
  lemma IngestSucceeds(workbook: Result<Sheet, ReadFailure>, jobId: string)
    requires IngestJob(workbook, jobId).Ok?
    ensures Loaded(workbook).Ok?
    ensures StagesFrames(IngestJob(workbook, jobId).value, Loaded(workbook).value, jobId)
  {
    var loaded := Loaded(workbook);
    assert IngestCases(loaded, jobId).Ok?;
    LoadedKeyed(workbook);
    var ks :| Grouping.KeyedBy(loaded.value, CaseKey, ks);
    IngestCasesSucceeds(loaded.value, ks, jobId);
  }

  lemma LoadedKeyed(workbook: Result<Sheet, ReadFailure>)
    requires Loaded(workbook).Ok?
    ensures exists ks :: Grouping.KeyedBy(Loaded(workbook).value, CaseKey, ks)
  {
    LoadedSpec(workbook);
    var rows := RemoveUselessColumns(workbook.value).value;
    assert Grouping.KeyedBy(Loaded(workbook).value, CaseKey, Grouping.GroupKeys(rows, RowKey));
  }

  /** Every failure is 422: the loader never lets a FileNotFoundError through, so the 404 branch is unreachable. */
  lemma IngestFailsWith422(workbook: Result<Sheet, ReadFailure>, jobId: string)
    requires IngestJob(workbook, jobId).Err?
    ensures IngestJob(workbook, jobId) == Err(HttpError(UnprocessableEntity))
  {
    LoadedSpec(workbook);
  }

  /** A missing workbook file answers 422, not the 404 the handler provides for it. */
  lemma MissingWorkbookIs422(jobId: string)
    ensures IngestJob(Err(MissingFile), jobId) == Err(HttpError(UnprocessableEntity))
  {
  }

  /** A workbook without one of the eight columns answers 422. */
  lemma MissingColumnIs422(sheet: Sheet, jobId: string)
    requires exists c :: c in KeeperColumns && c !in sheet.columns
    ensures IngestJob(Ok(sheet), jobId) == Err(HttpError(UnprocessableEntity))
  {
    RemoveUselessColumnsSpec(sheet);
  }

  /** A workbook none of whose rows carries an Id answers 422: there is no frame to concatenate. */
  lemma NoIdIs422(sheet: Sheet, jobId: string)
    requires RemoveUselessColumns(sheet).Ok?
    requires forall i :: 0 <= i < |RemoveUselessColumns(sheet).value| ==> RemoveUselessColumns(sheet).value[i].id.None?
    ensures IngestJob(Ok(sheet), jobId) == Err(HttpError(UnprocessableEntity))
  {
    var rows := RemoveUselessColumns(sheet).value;
    var ks := Grouping.GroupKeys(rows, RowKey);
    Grouping.GroupKeysNone(rows, RowKey);
  }

  /** The intended handler: the loader keeps FileNotFoundError, which answers 404. */
  function IngestIntended(workbook: Result<Sheet, ReadFailure>, jobId: string): Result<Ingested, HttpError>
  {
    match IngestCases(LoadedIntended(workbook), jobId)
    case Ok(v) => Ok(v)
    case Err(e) => Err(HttpError(StatusFor(e)))
  }

  /**
   * With the intended loader a missing file answers 404 and every other
   * outcome is the handler's as written.
   */
  lemma IngestIntendedSpec(workbook: Result<Sheet, ReadFailure>, jobId: string)
    ensures workbook == Err(MissingFile) ==> IngestIntended(workbook, jobId) == Err(HttpError(NotFound))
    ensures workbook != Err(MissingFile) ==> IngestIntended(workbook, jobId) == IngestJob(workbook, jobId)
  {
  }

  // A worked example: a case written over two rows, its step and expected
  // result on the second row, as the selection hands it over.

  function ExampleRows(): seq<Row>
  {
    [Row(Some(1), Some("A"), None, None, None, None, None, None),
     Row(Some(1), Some("A"), None, None, None, Some("Click X"), None, Some("Y shown"))]
  }

  lemma ExamplePrepared()
    ensures PreparedFrames(ExampleRows()) == [[
      CaseRow(Some(1), Some("A"), None, None, Some("Click X"), Some("Y shown")),
      CaseRow(Some(1), Some("A"), None, None, None, None)]]
  {
    var rows := ExampleRows();
    assert rows[1..] == [rows[1]];
    assert Grouping.GroupKeys([rows[1]], RowKey) == [1];
    assert Grouping.GroupKeys(rows, RowKey) == [1];
    Grouping.MembersAll(rows, RowKey, 1);
    assert Grouping.GroupBy(rows, RowKey) == [rows];
    CompactedAt(rows, 0);
    CompactedAt(rows, 1);
    assert Compacted(rows) == [
      CaseRow(Some(1), Some("A"), None, None, Some("Click X"), Some("Y shown")),
      CaseRow(Some(1), Some("A"), None, None, None, None)];
  }

  lemma ExampleAggregated()
    ensures
      var c0 := CaseRow(Some(1), Some("A"), None, None, Some("Click X"), Some("Y shown"));
      var c1 := CaseRow(Some(1), Some("A"), None, None, None, None);
      Aggregate(Grouping.Concat([[c0, c1]])) == [CaseRecord(1, Some("A"), None, None, "Click X", Some("Y shown"))]
  {
    var c0 := CaseRow(Some(1), Some("A"), None, None, Some("Click X"), Some("Y shown"));
    var c1 := CaseRow(Some(1), Some("A"), None, None, None, None);
    assert Grouping.Concat([[c0, c1]]) == [c0, c1];
    assert [c0, c1][1..] == [c1];
    assert Grouping.GroupKeys([c1], CaseKey) == [1];
    assert Grouping.GroupKeys([c0, c1], CaseKey) == [1];
    assert Grouping.Members([c0, c1], CaseKey, 1) == [c0, c1];
    assert CaseColumn([c0, c1], StepsOf) == [Some("Click X"), None];
    assert Columns.Present([Some("Click X"), None]) == ["Click X"];
    assert CaseColumn([c0, c1], DirectionOf) == [Some("A"), Some("A")];
    assert CaseColumn([c0, c1], SectionOf) == [None, None];
    assert CaseColumn([c0, c1], NameOf) == [None, None];
    assert CaseColumn([c0, c1], ExpectedOf) == [Some("Y shown"), None];
  }

  /** The two-row case is staged as one record carrying the second row's step and expected result. */
  lemma ExampleStaged(jobId: string)
    ensures IngestCases(Ok(PreparedFrames(ExampleRows())), jobId) ==
      Ok(Ingested(IngestResponse(1, jobId, 3600),
                  CacheWrite(jobId, [CaseRecord(1, Some("A"), None, None, "Click X", Some("Y shown"))], 3600)))
  {
    ExamplePrepared();
    ExampleAggregated();
  }
}
