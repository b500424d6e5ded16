/**
 * The workbook normalizer (`TestCaseLoader`): keep the eight test-case
 * columns, forward-fill the identifying ones, split the rows into one frame
 * per case id, move every content cell one row up inside its frame, and let
 * Steps fall back to Preconditions and then Postconditions.
 */
module CaseLoader {
  import opened Wrappers
  import Columns
  import Grouping

  // ---------------------------------------------------------------------
  // The raw workbook
  // ---------------------------------------------------------------------

  /** A non-blank spreadsheet cell. */
  datatype Cell = Number(n: int) | Text(s: string)

  /** One spreadsheet row by column name; a column missing from the map is a blank (NaN) cell. */
  type SheetRow = map<string, Cell>

  /** What `pd.read_excel` returns: the header and the rows. */
  datatype Sheet = Sheet(columns: seq<string>, rows: seq<SheetRow>)

  /** Why `pd.read_excel` failed. */
  datatype ReadFailure = MissingFile | CorruptFile

  /** The exceptions a load can raise. */
  datatype LoadError =
    | FileNotFoundError
    | ValueError(cause: ReadFailure)
    | KeyError(missing: seq<string>)

  const KeeperColumns: seq<string> :=
    ["Id", "Direction", "Section", "TestCaseName", "Preconditions", "Steps", "Postconditions", "ExpectedResult"]

  // ---------------------------------------------------------------------
  // The eight-column frame
  // ---------------------------------------------------------------------

  /** The text columns of the frame. */
  datatype Field = Direction | Section | TestCaseName | Preconditions | Steps | Postconditions | ExpectedResult
  {
    /** The four columns `_bubble_up` shifts. */
    predicate IsContent() { this in {Preconditions, Steps, Postconditions, ExpectedResult} }
  }

  /** One row of the frame after column selection. */
  datatype Row = Row(
    id: Option<int>,
    direction: Option<string>,
    section: Option<string>,
    testCaseName: Option<string>,
    preconditions: Option<string>,
    steps: Option<string>,
    postconditions: Option<string>,
    expectedResult: Option<string>)
  {
    function Get(f: Field): Option<string>
    {
      match f
      case Direction => direction
      case Section => section
      case TestCaseName => testCaseName
      case Preconditions => preconditions
      case Steps => steps
      case Postconditions => postconditions
      case ExpectedResult => expectedResult
    }

    /** The row with the cell of column `f` replaced (`df.at[i, f] = v`). */
    function Set(f: Field, v: Option<string>): (r: Row)
      ensures r.Get(f) == v && r.id == id
      ensures forall g :: g != f ==> r.Get(g) == Get(g)
    {
      match f
      case Direction => this.(direction := v)
      case Section => this.(section := v)
      case TestCaseName => this.(testCaseName := v)
      case Preconditions => this.(preconditions := v)
      case Steps => this.(steps := v)
      case Postconditions => this.(postconditions := v)
      case ExpectedResult => this.(expectedResult := v)
    }
  }

  /** One row of a case frame once Preconditions and Postconditions are dropped. */
  datatype CaseRow = CaseRow(
    id: Option<int>,
    direction: Option<string>,
    section: Option<string>,
    testCaseName: Option<string>,
    steps: Option<string>,
    expectedResult: Option<string>)

  function RowKey(r: Row): Option<int> { r.id }
  function CaseKey(c: CaseRow): Option<int> { c.id }

  function IdColumn(rows: seq<Row>): (col: seq<Option<int>>)
    ensures |col| == |rows| && forall i :: 0 <= i < |rows| ==> col[i] == rows[i].id
  {
    seq(|rows|, i requires 0 <= i < |rows| => rows[i].id)
  }

  function TextColumn(rows: seq<Row>, f: Field): (col: seq<Option<string>>)
    ensures |col| == |rows| && forall i :: 0 <= i < |rows| ==> col[i] == rows[i].Get(f)
  {
    seq(|rows|, i requires 0 <= i < |rows| => rows[i].Get(f))
  }

  // ---------------------------------------------------------------------
  // _remove_useless_columns
  // ---------------------------------------------------------------------

  /** The wanted columns the header lacks, in the order they are wanted. */
  function MissingColumns(wanted: seq<string>, header: seq<string>): (missing: seq<string>)
    ensures forall c :: c in missing <==> c in wanted && c !in header
  {
    if wanted == [] then []
    else (if wanted[0] in header then [] else [wanted[0]]) + MissingColumns(wanted[1..], header)
  }

  function ReadId(row: SheetRow): Option<int>
  {
    if "Id" in row && row["Id"].Number? then Some(row["Id"].n) else None
  }

  function ReadText(row: SheetRow, column: string): Option<string>
  {
    if column in row && row[column].Text? then Some(row[column].s) else None
  }

  /** `df[keeper_cols]` for one row. */
  function SelectRow(row: SheetRow): Row
  {
    Row(ReadId(row), ReadText(row, "Direction"), ReadText(row, "Section"), ReadText(row, "TestCaseName"),
        ReadText(row, "Preconditions"), ReadText(row, "Steps"), ReadText(row, "Postconditions"),
        ReadText(row, "ExpectedResult"))
  }

  /** `ffill()` of Id, Direction, Section and TestCaseName; content columns untouched. */
  function ForwardFill(rows: seq<Row>): (r: seq<Row>)
    ensures |r| == |rows|
  {
    var ids := Columns.FillForward(IdColumn(rows), None);
    var ds := Columns.FillForward(TextColumn(rows, Direction), None);
    var ss := Columns.FillForward(TextColumn(rows, Section), None);
    var ns := Columns.FillForward(TextColumn(rows, TestCaseName), None);
    seq(|rows|, i requires 0 <= i < |rows| =>
      rows[i].(id := ids[i], direction := ds[i], section := ss[i], testCaseName := ns[i]))
  }

  /**
   * After the fill, an identifying cell holds the nearest non-blank value at
   * or above its row in that column (blank if there is none); a non-blank
   * one is kept; content cells are not filled.
   */
  lemma ForwardFillAt(rows: seq<Row>, i: nat)
    requires i < |rows|
    ensures ForwardFill(rows)[i].id == Columns.LastPresentOr(IdColumn(rows)[..i + 1], None)
    ensures rows[i].id.Some? ==> ForwardFill(rows)[i].id == rows[i].id
    ensures forall f: Field :: f in {Direction, Section, TestCaseName} ==>
      ForwardFill(rows)[i].Get(f) == Columns.LastPresentOr(TextColumn(rows, f)[..i + 1], None)
    ensures forall f: Field :: f.IsContent() ==> ForwardFill(rows)[i].Get(f) == rows[i].Get(f)
  {
    Columns.FillForwardAt(IdColumn(rows), None, i);
    Columns.FillForwardAt(TextColumn(rows, Direction), None, i);
    Columns.FillForwardAt(TextColumn(rows, Section), None, i);
    Columns.FillForwardAt(TextColumn(rows, TestCaseName), None, i);
  }

  /** `_remove_useless_columns`: select the eight columns (KeyError if any is absent), then forward-fill. */
  function RemoveUselessColumns(sheet: Sheet): Result<seq<Row>, LoadError>
  {
    var missing := MissingColumns(KeeperColumns, sheet.columns);
    if missing != [] then Err(KeyError(missing))
    else Ok(ForwardFill(seq(|sheet.rows|, i requires 0 <= i < |sheet.rows| => SelectRow(sheet.rows[i]))))
  }

  /**
   * The selection fails exactly when one of the eight columns is absent and
   * names the absent ones; otherwise there is one row per sheet row whose
   * cells come from the same-named columns, content cells as read.
   */
  lemma RemoveUselessColumnsSpec(sheet: Sheet)
    ensures RemoveUselessColumns(sheet).Err? <==> exists c :: c in KeeperColumns && c !in sheet.columns
    ensures RemoveUselessColumns(sheet).Err? ==>
      RemoveUselessColumns(sheet).error.KeyError? &&
      forall c :: c in RemoveUselessColumns(sheet).error.missing <==> c in KeeperColumns && c !in sheet.columns
    ensures RemoveUselessColumns(sheet).Ok? ==>
      var rows := RemoveUselessColumns(sheet).value;
      && |rows| == |sheet.rows|
      && forall i :: 0 <= i < |rows| ==>
        && rows[i].preconditions == ReadText(sheet.rows[i], "Preconditions")
        && rows[i].steps == ReadText(sheet.rows[i], "Steps")
        && rows[i].postconditions == ReadText(sheet.rows[i], "Postconditions")
        && rows[i].expectedResult == ReadText(sheet.rows[i], "ExpectedResult")
        && (ReadId(sheet.rows[i]).Some? ==> rows[i].id == ReadId(sheet.rows[i]))
  {
    var missing := MissingColumns(KeeperColumns, sheet.columns);
    if missing != [] {
      assert missing[0] in missing;
    } else {
      var selected := seq(|sheet.rows|, i requires 0 <= i < |sheet.rows| => SelectRow(sheet.rows[i]));
      forall i | 0 <= i < |selected| ensures
        && ForwardFill(selected)[i].Get(Preconditions) == selected[i].Get(Preconditions)
        && ForwardFill(selected)[i].Get(Steps) == selected[i].Get(Steps)
        && ForwardFill(selected)[i].Get(Postconditions) == selected[i].Get(Postconditions)
        && ForwardFill(selected)[i].Get(ExpectedResult) == selected[i].Get(ExpectedResult)
        && (selected[i].id.Some? ==> ForwardFill(selected)[i].id == selected[i].id)
      {
        ForwardFillAt(selected, i);
      }
    }
  }

  // ---------------------------------------------------------------------
  // _compact_case / _bubble_up
  // ---------------------------------------------------------------------

  /** The frame after `_bubble_up(frame, f)`: row i takes row i+1's cell, the last row a blank. */
  function ShiftUp(rows: seq<Row>, f: Field): (r: seq<Row>)
    ensures |r| == |rows|
  {
    seq(|rows|, i requires 0 <= i < |rows| => rows[i].Set(f, if i + 1 < |rows| then rows[i + 1].Get(f) else None))
  }

  /**
   * For column values [v0, ..., vk-1] the shifted column is [v1, ..., vk-1, None];
   * every other column, and Id, is unchanged.
   */
  lemma ShiftUpColumns(rows: seq<Row>, f: Field)
    requires rows != []
    ensures TextColumn(ShiftUp(rows, f), f) == TextColumn(rows, f)[1..] + [None]
    ensures forall g :: g != f ==> TextColumn(ShiftUp(rows, f), g) == TextColumn(rows, g)
    ensures IdColumn(ShiftUp(rows, f)) == IdColumn(rows)
  {
    var r := ShiftUp(rows, f);
    assert TextColumn(r, f) == TextColumn(rows, f)[1..] + [None];
    forall g | g != f ensures TextColumn(r, g) == TextColumn(rows, g) {
      assert forall i :: 0 <= i < |rows| ==> r[i].Get(g) == rows[i].Get(g);
    }
  }

  /** `_bubble_up`: the in-place shift of one column, top to bottom. */
  method BubbleUp(frame: array<Row>, f: Field)
    modifies frame
    ensures frame[..] == ShiftUp(old(frame[..]), f)
  {
    var i := 0;
    while i < frame.Length
      invariant 0 <= i <= frame.Length
      invariant forall k :: 0 <= k < i ==>
        frame[k] == old(frame[k]).Set(f, if k + 1 < frame.Length then old(frame[k + 1]).Get(f) else None)
      invariant forall k :: i <= k < frame.Length ==> frame[k] == old(frame[k])
    {
      if i == frame.Length - 1 {
        frame[i] := frame[i].Set(f, None);
      } else {
        frame[i] := frame[i].Set(f, frame[i + 1].Get(f));
      }
      i := i + 1;
    }
  }

  /** The four content columns shifted, in the order `_compact_case` shifts them. */
  function ShiftContent(rows: seq<Row>): seq<Row>
  {
    ShiftUp(ShiftUp(ShiftUp(ShiftUp(rows, Preconditions), Steps), Postconditions), ExpectedResult)
  }

  /** `fillna`: the first value if present, otherwise the second. */
  function FillNa(a: Option<string>, b: Option<string>): Option<string>
  {
    if a.Some? then a else b
  }

  /** The Steps fallback chain, then the drop of Preconditions and Postconditions. */
  function Consolidate(r: Row): CaseRow
  {
    CaseRow(r.id, r.direction, r.section, r.testCaseName,
            FillNa(FillNa(r.steps, r.preconditions), r.postconditions), r.expectedResult)
  }

  function ConsolidateAll(rows: seq<Row>): (r: seq<CaseRow>)
    ensures |r| == |rows|
  {
    seq(|rows|, i requires 0 <= i < |rows| => Consolidate(rows[i]))
  }

  /** One case frame as `_compact_case` leaves it. */
  function Compacted(rows: seq<Row>): (r: seq<CaseRow>)
    ensures |r| == |rows|
  {
    ConsolidateAll(ShiftContent(rows))
  }

  /**
   * Row i of a compacted frame keeps its own Id, Direction, Section and
   * TestCaseName; its Steps is the first present of row i+1's Steps,
   * Preconditions and Postconditions, and its ExpectedResult is row i+1's;
   * the last row has neither.
   */
  lemma CompactedAt(rows: seq<Row>, i: nat)
    requires i < |rows|
    ensures Compacted(rows)[i].id == rows[i].id
    ensures Compacted(rows)[i].direction == rows[i].direction
    ensures Compacted(rows)[i].section == rows[i].section
    ensures Compacted(rows)[i].testCaseName == rows[i].testCaseName
    ensures Compacted(rows)[i].steps ==
      if i + 1 < |rows| then Columns.FirstPresent([rows[i + 1].steps, rows[i + 1].preconditions, rows[i + 1].postconditions])
      else None
    ensures Compacted(rows)[i].expectedResult == if i + 1 < |rows| then rows[i + 1].expectedResult else None
  {
    var s1 := ShiftUp(rows, Preconditions);
    var s2 := ShiftUp(s1, Steps);
    var s3 := ShiftUp(s2, Postconditions);
    var s4 := ShiftUp(s3, ExpectedResult);
    assert s4[i].id == rows[i].id;
    if i + 1 < |rows| {
      var fp := Columns.FirstPresent([rows[i + 1].steps, rows[i + 1].preconditions, rows[i + 1].postconditions]);
      assert s4[i].steps == rows[i + 1].steps;
      assert s4[i].preconditions == rows[i + 1].preconditions;
      assert s4[i].postconditions == rows[i + 1].postconditions;
      assert Columns.FirstPresent([rows[i + 1].postconditions]) == rows[i + 1].postconditions;
      assert [rows[i + 1].steps, rows[i + 1].preconditions, rows[i + 1].postconditions][1..]
        == [rows[i + 1].preconditions, rows[i + 1].postconditions];
      assert [rows[i + 1].preconditions, rows[i + 1].postconditions][1..] == [rows[i + 1].postconditions];
    }
  }

  /** A one-row case has no Steps and no ExpectedResult once compacted. */
  lemma SingleRowCaseEmpty(rows: seq<Row>)
    requires |rows| == 1
    ensures Compacted(rows)[0].steps == None && Compacted(rows)[0].expectedResult == None
  {
    CompactedAt(rows, 0);
  }

  /** `_compact_case` on one frame: the four in-place shifts, then the consolidated view. */
  method CompactFrame(frame: array<Row>) returns (rows: seq<CaseRow>)
    modifies frame
    ensures frame[..] == ShiftContent(old(frame[..]))
    ensures rows == Compacted(old(frame[..]))
  {
    BubbleUp(frame, Preconditions);
    BubbleUp(frame, Steps);
    BubbleUp(frame, Postconditions);
    BubbleUp(frame, ExpectedResult);
    rows := ConsolidateAll(frame[..]);
  }

  /** `_compact_case`: every frame of the list, in order. */
  method CompactCases(frames: seq<array<Row>>) returns (out: seq<seq<CaseRow>>)
    requires forall i, j :: 0 <= i < j < |frames| ==> frames[i] != frames[j]
    modifies set i | 0 <= i < |frames| :: frames[i]
    ensures |out| == |frames|
    ensures forall k :: 0 <= k < |frames| ==> out[k] == Compacted(old(frames[k][..]))
    ensures forall k :: 0 <= k < |frames| ==> frames[k][..] == ShiftContent(old(frames[k][..]))
  {
    out := [];
    var i := 0;
    while i < |frames|
      invariant 0 <= i <= |frames| && |out| == i
      invariant forall k :: 0 <= k < i ==> out[k] == Compacted(old(frames[k][..]))
      invariant forall k :: 0 <= k < i ==> frames[k][..] == ShiftContent(old(frames[k][..]))
      invariant forall k :: i <= k < |frames| ==> frames[k][..] == old(frames[k][..])
    {
      var rows := CompactFrame(frames[i]);
      out := out + [rows];
      i := i + 1;
    }
  }

  // ---------------------------------------------------------------------
  // _prepare / load
  // ---------------------------------------------------------------------

  /** The compacted per-case frames of a selected, filled frame. */
  function PreparedFrames(rows: seq<Row>): (frames: seq<seq<CaseRow>>)
    ensures |frames| == |Grouping.GroupKeys(rows, RowKey)|
  {
    var groups := Grouping.GroupBy(rows, RowKey);
    seq(|groups|, j requires 0 <= j < |groups| => Compacted(groups[j]))
  }

  /** What `_prepare` returns or raises. */
  function Prepared(sheet: Sheet): Result<seq<seq<CaseRow>>, LoadError>
  {
    match RemoveUselessColumns(sheet)
    case Err(e) => Err(e)
    case Ok(rows) => Ok(PreparedFrames(rows))
  }

  /**
   * The prepared frames are one per distinct filled Id, ascending, each
   * non-empty and holding only rows of its Id: compaction keeps the grouping.
   */
  lemma PreparedFramesKeyed(rows: seq<Row>)
    ensures Grouping.KeyedBy(PreparedFrames(rows), CaseKey, Grouping.GroupKeys(rows, RowKey))
    ensures forall k :: k in Grouping.GroupKeys(rows, RowKey) <==> Grouping.HasKey(rows, RowKey, k)
  {
    var groups := Grouping.GroupBy(rows, RowKey);
    var ks := Grouping.GroupKeys(rows, RowKey);
    var frames := PreparedFrames(rows);
    Grouping.GroupByPartition(rows, RowKey);
    forall j, i | 0 <= j < |frames| && 0 <= i < |frames[j]| ensures CaseKey(frames[j][i]) == Some(ks[j]) {
      CompactedAt(groups[j], i);
      assert RowKey(groups[j][i]) == Some(ks[j]);
    }
  }

  /** Copies each frame into its own fresh array, as groupby hands out separate frame objects. */
  method ToFrames(groups: seq<seq<Row>>) returns (frames: seq<array<Row>>)
    ensures |frames| == |groups|
    ensures forall k :: 0 <= k < |groups| ==> fresh(frames[k]) && frames[k][..] == groups[k]
    ensures forall i, j :: 0 <= i < j < |frames| ==> frames[i] != frames[j]
  {
    frames := [];
    var i := 0;
    while i < |groups|
      invariant 0 <= i <= |groups| && |frames| == i
      invariant forall k :: 0 <= k < i ==> fresh(frames[k]) && frames[k][..] == groups[k]
      invariant forall a, b :: 0 <= a < b < i ==> frames[a] != frames[b]
    {
      var g := groups[i];
      var a := new Row[|g|](k requires 0 <= k < |g| => g[k]);
      assert a[..] == g;
      frames := frames + [a];
      i := i + 1;
    }
  }

  /** `_prepare`: select and fill, split by Id, compact each frame in place. */
  method Prepare(sheet: Sheet) returns (r: Result<seq<seq<CaseRow>>, LoadError>)
    ensures r == Prepared(sheet)
  {
    var step1 := RemoveUselessColumns(sheet);
    if step1.Err? {
      return Err(step1.error);
    }
    var step2 := Grouping.GroupBy(step1.value, RowKey);
    var frames := ToFrames(step2);
    var final := CompactCases(frames);
    assert forall k :: 0 <= k < |final| ==> final[k] == Compacted(step2[k]);
    assert final == PreparedFrames(step1.value);
    r := Ok(final);
  }

  /** `_import_raw`: every read failure is re-raised as a ValueError. */
  function ImportRaw(workbook: Result<Sheet, ReadFailure>): (r: Result<Sheet, LoadError>)
    ensures workbook.Ok? ==> r == Ok(workbook.value)
    ensures workbook.Err? ==> r.Err? && r.error.ValueError? && r.error.cause == workbook.error
  {
    match workbook
    case Ok(sheet) => Ok(sheet)
    case Err(failure) => Err(ValueError(failure))
  }

  /**
   * `_import_raw` as evidently intended: a missing file keeps its
   * FileNotFoundError, any other read failure becomes a ValueError.
   */
  function ImportRawIntended(workbook: Result<Sheet, ReadFailure>): (r: Result<Sheet, LoadError>)
    ensures r == Err(FileNotFoundError) <==> workbook == Err(MissingFile)
    ensures workbook.Err? && workbook.error != MissingFile ==> r == ImportRaw(workbook)
    ensures workbook.Ok? ==> r == Ok(workbook.value)
  {
    match workbook
    case Err(MissingFile) => Err(FileNotFoundError)
    case _ => ImportRaw(workbook)
  }

  /** `load` over the intended `_import_raw`. */
  function LoadedIntended(workbook: Result<Sheet, ReadFailure>): Result<seq<seq<CaseRow>>, LoadError>
  {
    match ImportRawIntended(workbook)
    case Err(e) => Err(e)
    case Ok(sheet) => Prepared(sheet)
  }

  /** What `load` returns or raises for the given outcome of reading the file. */
  function Loaded(workbook: Result<Sheet, ReadFailure>): Result<seq<seq<CaseRow>>, LoadError>
  {
    match ImportRaw(workbook)
    case Err(e) => Err(e)
    case Ok(sheet) => Prepared(sheet)
  }

  /**
   * A load fails with ValueError exactly when the file cannot be read, with
   * KeyError exactly when a column is missing, and otherwise returns one
   * compacted frame per distinct filled Id, in ascending Id order.
   */
  lemma LoadedSpec(workbook: Result<Sheet, ReadFailure>)
    ensures workbook.Err? ==> Loaded(workbook) == Err(ValueError(workbook.error))
    ensures Loaded(workbook) != Err(FileNotFoundError)
    ensures workbook.Ok? ==>
      (Loaded(workbook).Err? <==> exists c :: c in KeeperColumns && c !in workbook.value.columns)
    ensures workbook.Ok? && Loaded(workbook).Ok? ==>
      var rows := RemoveUselessColumns(workbook.value).value;
      Grouping.KeyedBy(Loaded(workbook).value, CaseKey, Grouping.GroupKeys(rows, RowKey))
  {
    if workbook.Ok? {
      RemoveUselessColumnsSpec(workbook.value);
      if RemoveUselessColumns(workbook.value).Ok? {
        PreparedFramesKeyed(RemoveUselessColumns(workbook.value).value);
      }
    }
  }

  /** `TestCaseLoader`: the workbook path and what the last load read and prepared. */
  class TestCaseLoader {
    const filePath: string
    var df: Option<Sheet>
    var preparedDf: Option<seq<seq<CaseRow>>>

    constructor (filePath: string)
      ensures this.filePath == filePath && df == None && preparedDf == None
    {
      this.filePath := filePath;
      df := None;
      preparedDf := None;
    }

    /**
     * `load`: `workbook` is what reading `filePath` gives. The raw sheet is
     * stored before preparation, so a KeyError leaves `df` set and
     * `preparedDf` as it was.
     */
    method Load(workbook: Result<Sheet, ReadFailure>) returns (r: Result<seq<seq<CaseRow>>, LoadError>)
      modifies this
      ensures r == Loaded(workbook)
      ensures df == if workbook.Ok? then Some(workbook.value) else old(df)
      ensures preparedDf == if r.Ok? then Some(r.value) else old(preparedDf)
    {
      var raw := ImportRaw(workbook);
      if raw.Err? {
        return Err(raw.error);
      }
      df := Some(raw.value);
      r := Prepare(raw.value);
      if r.Ok? {
        preparedDf := Some(r.value);
      }
    }
  }
}
