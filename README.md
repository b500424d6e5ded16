# Test-case pipeline: a verified Dafny model

This project models the core of a small service that turns a spreadsheet of
QA test cases into a searchable vector collection. The model follows the
pipeline from start to end:

- **Workbook normalizer** (`TestCaseLoader`, module `CaseLoader`). It keeps
  the eight test-case columns and forward-fills Id, Direction, Section and
  TestCaseName. It splits the rows into one frame per Id (pandas `groupby`:
  ascending Id, rows without an Id dropped). Inside each frame it moves the
  four content columns one row up in place, then lets Steps fall back to
  Preconditions and then Postconditions.
- **Ingest** (module `Ingest`). It concatenates the frames and flattens
  them to one record per Id:
  - Direction, Section, TestCaseName and ExpectedResult take the first
    non-null value.
  - Steps is the non-null values joined by a space.
  - The records are staged under a fresh job id with a one-hour TTL.
  - Failures map to HTTP 404 or 422.
- **Vectorizer** (module `Vectorizer`). It loads a staged dataset by job id
  and builds one sentence per record, `Direction | TestCaseName | Steps |
  ExpectedResult`. It embeds the sentences with an encoder passed in as a
  function, ensures the target collection with the embedding width, and
  inserts one row per record: primary key = batch position, `inner_id` = Id,
  newlines in the texts replaced by spaces.
- **Collection manager** (module `Milvus`). The store is a class holding a
  name → collection map. `EnsureCollection` is create-if-absent with the
  fixed eight-field schema and two indexes. `Insert` is all-or-nothing
  against the schema (vector width, VARCHAR caps). `GetClient` ensures only
  when given a name.
- **Admin and search endpoints** (module `MilvusAdmin`):
  - `SearchRequest` validation;
  - the existence check (404) before any mode dispatch;
  - lookup by primary keys, by `inner_id` (all matches), or by vector (at
    most `limit` results from a ranking passed in as a function);
  - dump (`idx >= 0`, at most `limit`, default 1000), drop and list.

Helper modules:
- `Wrappers`: Option, Result and the HTTP error.
- `Columns`: forward fill, first non-null, dropna, string join on a column
  of optional cells.
- `Grouping`: groupby and concat. Its main result, `GroupByConcat`, is that
  regrouping the concatenation of frames that are already one per Id, in
  ascending order, gives back exactly those frames. This is why ingest's
  `imported` count equals the number of staged records.

Reading the workbook, the cache, the clock, `uuid4`, the encoder and the ANN
ranking are parameters of the model:
- the outcome of reading the file is a `Result<Sheet, ReadFailure>`;
- the job id is a string;
- the cache contents are a `map<string, seq<CaseRecord>>`;
- the encoder is a `string -> seq<real>` function;
- the ranking is a `(seq<Entity>, seq<real>) -> seq<Entity>` function.

Two consequences of the code that are easy to miss:
- Cases come out in ascending Id order, not in the order they first appear,
  because `groupby` sorts its keys.
- A missing workbook answers 422, not the 404 the ingest handler provides
  for it (see Findings).

## Model

| member | source | states |
|---|---|---|
| Columns.FillForwardAt | app/services/case_loader.py:74-76 | after `ffill`, cell i is the nearest present value at or above row i; a present cell is kept |
| Columns.LastPresentOrAppend | app/services/case_loader.py:74-76 | scanning for the last present value over `a + b` is scanning `b` with what `a` left |
| Columns.FillForward | app/services/case_loader.py:74-76 | defines `Series.ffill()` as a scan carrying the last present value; its meaning is stated by `FillForwardAt` |
| Columns.FirstPresent | app/api/ingest.py:55-59 | the "first" aggregation is None exactly when every cell is null, and otherwise is the earliest non-null cell |
| Columns.Present | app/api/ingest.py:58 | `dropna` keeps every non-null value and only those |
| Columns.JoinWithAppend | app/api/ingest.py:58 | joining one more part adds exactly one separator before it |
| Columns.JoinWith | app/api/ingest.py:58 | defines `sep.join(parts)`; `JoinWithAppend` states how it grows |
| Grouping.InsertKey | app/services/case_loader.py:80-81 | adding a key to a sorted key list keeps it strictly increasing, with exactly the old keys plus the new one |
| Grouping.GroupKeys | app/services/case_loader.py:80-81 | group keys are strictly ascending and are exactly the non-null keys present |
| Grouping.GroupKeysNone | app/services/case_loader.py:80-81 | a frame without any Id has no groups |
| Grouping.Members | app/services/case_loader.py:80-81 | a group holds only rows of its key, drawn from the frame |
| Grouping.GroupBy | app/services/case_loader.py:80-81 | defines the groupby frames, one per group key, each the rows of that key; `GroupByPartition` states that they partition the keyed rows |
| Grouping.Concat | app/api/ingest.py:50 | defines `pd.concat` of frames as their rows in order; `GroupByConcat` states that regrouping undoes it |
| Grouping.MembersContains | app/services/case_loader.py:80-81 | every keyed row is in the group of its key |
| Grouping.MembersAppend | app/services/case_loader.py:80-81 | selecting a group distributes over concatenation, so relative row order is kept |
| Grouping.MembersAll | app/services/case_loader.py:80-81 | a frame whose rows all carry key k is its own group for k |
| Grouping.MembersNone | app/services/case_loader.py:80-81 | a frame with no row keyed k has an empty group for k |
| Grouping.SortedUnique | app/services/case_loader.py:80-81 | two strictly increasing key lists with the same keys are equal |
| Grouping.MembersConcatOther | app/api/ingest.py:50-53 | a key no frame carries selects nothing from the concatenation |
| Grouping.MembersConcat | app/api/ingest.py:50-53 | selecting the j-th key from the concatenation gives back the j-th frame |
| Grouping.GroupByConcat | app/api/ingest.py:50-53 | grouping the concatenation of per-Id frames in ascending order gives back the same keys and frames |
| Grouping.GroupByPartition | app/services/case_loader.py:80-81 | one non-empty group per distinct Id, ascending; every keyed row is in its key's group and in no other |
| CaseLoader.Row.Set | app/services/case_loader.py:91-95 | writing a cell changes that column only |
| CaseLoader.MissingColumns | app/services/case_loader.py:63-73 | lists exactly the keeper columns absent from the header |
| CaseLoader.RemoveUselessColumns | app/services/case_loader.py:61-77 | defines the column selection (KeyError naming the missing columns) followed by the fill; stated by `RemoveUselessColumnsSpec` and `ForwardFillAt` |
| CaseLoader.RemoveUselessColumnsSpec | app/services/case_loader.py:61-77 | selection fails with KeyError exactly when a keeper column is missing, naming the missing ones; otherwise one row per sheet row, content cells as read, a present Id kept |
| CaseLoader.ForwardFill | app/services/case_loader.py:74-76 | keeps one row per row and fills Id, Direction, Section and TestCaseName; cell by cell stated by `ForwardFillAt` |
| CaseLoader.ForwardFillAt | app/services/case_loader.py:74-76 | an identifying cell holds the nearest non-blank value at or above it; content columns are not filled |
| CaseLoader.ShiftUp | app/services/case_loader.py:85-96 | defines one column after `_bubble_up`, one row per row; stated by `ShiftUpColumns` |
| CaseLoader.ShiftUpColumns | app/services/case_loader.py:85-96 | the shifted column [v0..vk-1] becomes [v1..vk-1, None]; other columns and Id are unchanged |
| CaseLoader.BubbleUp | app/services/case_loader.py:85-96 | the in-place loop leaves the array equal to the shifted frame |
| CaseLoader.Consolidate | app/services/case_loader.py:109-111 | defines the Steps fallback to Preconditions and then Postconditions, and the drop of both |
| CaseLoader.ConsolidateAll | app/services/case_loader.py:109-111 | applies `Consolidate` to every row, one row out per row in |
| CaseLoader.Compacted | app/services/case_loader.py:98-111 | defines one frame after `_compact_case`, one row per row; row by row stated by `CompactedAt` |
| CaseLoader.CompactedAt | app/services/case_loader.py:98-111 | row i keeps its Id, Direction, Section and TestCaseName; Steps is row i+1's Steps, else Preconditions, else Postconditions; ExpectedResult is row i+1's; the last row has neither |
| CaseLoader.SingleRowCaseEmpty | app/services/case_loader.py:89-91 | a one-row case has no Steps and no ExpectedResult after compaction |
| CaseLoader.CompactFrame | app/services/case_loader.py:98-111 | the four in-place shifts leave the array shifted, and the result is the compacted frame |
| CaseLoader.CompactCases | app/services/case_loader.py:84-113 | every frame of the list is compacted in place, in order; the result holds one compacted frame per input frame |
| CaseLoader.PreparedFrames | app/services/case_loader.py:118-129 | `_prepare` returns as many frames as `_split_by_id` produced |
| CaseLoader.Prepared | app/services/case_loader.py:118-129 | defines `_prepare`: the selection's KeyError, or the compacted per-Id frames; stated by `LoadedSpec` |
| CaseLoader.PreparedFramesKeyed | app/services/case_loader.py:118-129 | the prepared frames are one per distinct filled Id, ascending, non-empty, holding only rows of their Id |
| CaseLoader.ToFrames | app/services/case_loader.py:80-81 | each group becomes its own fresh, distinct frame object holding the group's rows |
| CaseLoader.Prepare | app/services/case_loader.py:118-129 | the imperative pipeline (select, split, compact in place) returns what `Prepared` specifies |
| CaseLoader.ImportRaw | app/services/case_loader.py:48-55 | a read sheet is returned as is; every read failure becomes a ValueError carrying its cause |
| CaseLoader.ImportRawIntended | app/services/case_loader.py:48-55 | intended reading: a missing file stays FileNotFoundError and nothing else does |
| CaseLoader.Loaded | app/services/case_loader.py:33-55 | defines `load`: the read error as raised by `_import_raw`, or `_prepare` of the sheet; stated by `LoadedSpec` |
| CaseLoader.LoadedIntended | app/services/case_loader.py:33-55 | `load` over the corrected `_import_raw`; stated through `Ingest.IngestIntendedSpec` |
| CaseLoader.LoadedSpec | app/services/case_loader.py:33-55 | a load fails with ValueError exactly on a read failure, never with FileNotFoundError, with KeyError exactly when a column is missing; otherwise it returns per-Id frames in ascending order |
| CaseLoader.TestCaseLoader.constructor | app/services/case_loader.py:25-28 | a new loader has its path and no `df` or `prepared_df` |
| CaseLoader.TestCaseLoader.Load | app/services/case_loader.py:33-43 | returns what `Loaded` specifies; `df` is set once the file is read, `prepared_df` only when preparation succeeds |
| Ingest.Flatten | app/api/ingest.py:51-61 | defines the `agg` of one Id's rows: "first" for Direction, Section, TestCaseName and ExpectedResult, and the space-joined non-null Steps; stated by `FlattenSpec` and `FlattenStepsAppend` |
| Ingest.FlattenSpec | app/api/ingest.py:51-61 | a record takes its Id and the first non-null Direction, Section, TestCaseName and ExpectedResult (null only if all are); no Steps gives "". Together with `FlattenStepsAppend`, row by row, this fixes the Steps of every record |
| Ingest.FlattenStepsAppend | app/api/ingest.py:58 | the record's Steps over one more row: a blank Steps leaves it unchanged; a present Steps value is appended after exactly one space, or stands alone when no earlier row had Steps |
| Ingest.PresentAppend | app/api/ingest.py:58 | `dropna` of a column extended by one cell extends by that cell's value if present |
| Ingest.Aggregate | app/api/ingest.py:51-61 | one record per distinct Id of the concatenated frame, ascending; the j-th is the flattening of the j-th Id's group |
| Ingest.AggregateRegroups | app/api/ingest.py:50-61 | over the loader's frames, the payload holds exactly one record per frame, the j-th flattening the j-th frame |
| Ingest.StatusFor | app/api/ingest.py:71-74 | FileNotFoundError maps to 404, and every other failure to 422 |
| Ingest.IngestCases | app/api/ingest.py:48-69 | defines the `try` block after the loader: the loader's error, ValueError from `pd.concat([])`, or the response and cache write; stated by `IngestCasesSucceeds` and `NoIdIs422` |
| Ingest.IngestJob | app/api/ingest.py:42-74 | defines the handler: `IngestCases` on the loaded workbook with the `except` clauses applied; stated by `IngestSucceeds` and the `...Is422` lemmas |
| Ingest.IngestCasesSucceeds | app/api/ingest.py:50-69 | on per-Id frames the handler succeeds and stages one record per frame under the job id, with TTL 3600 |
| Ingest.IngestSucceeds | app/api/ingest.py:45-69 | a successful ingest reports `imported` equal to the number of loader frames, equal to the payload size; the same job id and TTL 3600 (`DEFAULT_TTL`, app/services/cache.py:21) in the response and the cache write |
| Ingest.LoadedKeyed | app/services/case_loader.py:118-129 | a successful load yields frames keyed by some ascending Id list |
| Ingest.IngestFailsWith422 | app/api/ingest.py:71-74 | as written, every ingest failure is 422 |
| Ingest.MissingWorkbookIs422 | app/api/ingest.py:71-72 | as written, a missing workbook answers 422 |
| Ingest.MissingColumnIs422 | app/api/ingest.py:73-74 | a workbook lacking a keeper column answers 422 |
| Ingest.NoIdIs422 | app/api/ingest.py:50 | a workbook with no Id anywhere answers 422, since there is nothing to concatenate |
| Ingest.IngestIntended | app/api/ingest.py:42-74 | the handler over the corrected loader; stated by `IngestIntendedSpec` |
| Ingest.IngestIntendedSpec | app/api/ingest.py:71-74 | with the intended loader a missing file answers 404, and everything else is as written |
| Ingest.ExamplePrepared | app/services/case_loader.py:118-129 | a case over two rows compacts to its step and expected result on the first row, nothing on the last |
| Ingest.ExampleAggregated | app/api/ingest.py:51-61 | that case flattens to the single record (1, A, -, -, "Click X", "Y shown") |
| Ingest.ExampleStaged | app/api/ingest.py:48-69 | that case is staged as one record with `imported` 1 and TTL 3600 |
| Milvus.SchemaShape | app/services/milvus.py:31-42 | eight fields in fixed order; `idx` the only primary key; INT64 ids; the vector with the requested dim; caps 1024 and 8192 |
| Milvus.Schema | app/services/milvus.py:31-42 | defines the eight-field schema; stated by `SchemaShape` |
| Milvus.Indexes | app/services/milvus.py:44-46 | the index list: STL_SORT on idx, IVF_FLAT with COSINE and nlist 128 on vector; `VectorStore.EnsureCollection` states the list it builds equals it |
| Milvus.FieldNames | app/services/milvus.py:31-42 | the names of a schema's fields, in order |
| Milvus.Fits | app/services/milvus.py:33-40 | defines the store's check of one value: an INT64 within the 64-bit range, a vector of the declared dim, a string within its cap; stated for the whole schema by `ConformsToSchema` |
| Milvus.ConformsToSchema | app/services/milvus.py:33-40 | an entity fits the schema exactly when `idx` and `inner_id` are within the 64-bit range, its vector has the dim and its strings are within the VARCHAR caps |
| Milvus.FieldDim | app/services/milvus.py:34 | the width declared for a field is the dim of a field of that name, and none when no such field declares one |
| Milvus.SchemaVectorDim | app/services/milvus.py:34 | a collection the bootstrap created declares the vector width it was created with |
| Milvus.Ensured | app/services/milvus.py:26-48 | an existing collection is left as it is, whatever the dim; otherwise exactly that name is added with the bootstrap schema, indexes and no records; others are unchanged |
| Milvus.EnsuredIdempotent | app/services/milvus.py:26-48 | ensuring twice leaves what the first call left; the schema comes from the first call |
| Milvus.FirstMisfit | app/services/vectorizer.py:103 | finds the first entity that does not fit the schema, or none when all fit |
| Milvus.Inserted | app/services/vectorizer.py:103 | an insert appends the whole batch when every entity fits, keeping schema, indexes and other collections; it fails on an absent collection or a misfit |
| Milvus.VectorStore.constructor | app/services/milvus.py:20-23 | a client connected to the server sees exactly the collections the server already keeps |
| Milvus.VectorStore.HasCollection | app/services/milvus.py:28 | true exactly for existing collections |
| Milvus.VectorStore.EnsureCollection | app/services/milvus.py:26-48 | check-then-create leaves the collections as `Ensured` specifies; the index list built is STL_SORT on idx and IVF_FLAT/COSINE (nlist 128) on vector |
| Milvus.VectorStore.Insert | app/services/vectorizer.py:103 | the collections become what `Inserted` gives, and the count is the batch size; on rejection nothing changes |
| Milvus.VectorStore.Drop | app/api/milvus_admin.py:185 | removes exactly that collection |
| Milvus.GetClient | app/services/milvus.py:55-60 | without a name no collection is created; with one, that collection is ensured with the given dim (default 768) |
| MilvusAdmin.ProjectAll | app/api/milvus_admin.py:27-34 | each entity is cut to the six output fields, in order |
| MilvusAdmin.CollectionOr404 | app/api/milvus_admin.py:37-40 | 404 exactly when the collection is absent; otherwise the name |
| MilvusAdmin.Where | app/api/milvus_admin.py:133-147 | a store query returns only matching stored records and every matching one |
| MilvusAdmin.WhereAppend | app/api/milvus_admin.py:133-147 | selection over stored records concatenated is the selection over each part in turn, so stored order is kept |
| MilvusAdmin.Take | app/api/milvus_admin.py:84-89 | a limit returns a prefix no longer than the limit, the whole sequence when it fits |
| MilvusAdmin.ParseSearchRequest | app/api/milvus_admin.py:100-114 | validation fails (422) exactly when the mode is not idx/inner_id/semantic, a vector is not 768 long, or the limit is outside [1, 128]; the limit defaults to 10 |
| MilvusAdmin.Search | app/api/milvus_admin.py:126-165 | 404 for an absent collection first; per mode, 422 for a missing or empty parameter, else the records by primary key, every record with that inner id, or the first `limit` ranked hits; a semantic query on a collection whose vector width differs from the query's is refused by the store and answers 500; an unknown mode gives 422 |
| MilvusAdmin.ParsedRequestsDispatch | app/api/milvus_admin.py:104-108 | a validated request always has one of the three modes and a limit in [1, 128] |
| MilvusAdmin.Dump | app/api/milvus_admin.py:79-91 | 404 exactly for an absent collection; a limit outside [1, 16384] is refused by the store and answers 500; otherwise at most `limit` rows (default 1000), all with idx >= 0, each the projection of a stored record with idx >= 0, none returned more often than it is stored, so all of them when they fit |
| MilvusAdmin.TakeProjectedWithin | app/api/milvus_admin.py:84-89 | a limited query returns no row more often than the store holds it |
| MilvusAdmin.DropCollection | app/api/milvus_admin.py:177-186 | 404 and no change for an absent collection; otherwise it is gone, others are unchanged, and its name is returned |
| MilvusAdmin.ListCollections | app/api/milvus_admin.py:50-56 | lists every collection name exactly once |
| Vectorizer.SentenceIsJoin | app/services/vectorizer.py:61-69 | the sentence is Direction, TestCaseName, Steps and ExpectedResult joined by " \| ", blanks as "" |
| Vectorizer.Sentence | app/services/vectorizer.py:61-69 | defines the text of one record; stated by `SentenceIsJoin` and `SentenceIgnoresSectionAndId` |
| Vectorizer.SentenceIgnoresSectionAndId | app/services/vectorizer.py:61-69 | Section and Id do not affect the sentence |
| Vectorizer.Sentences | app/services/vectorizer.py:61-69 | one sentence per record, in record order |
| Vectorizer.Encoded | app/services/vectorizer.py:55-80 | one vector per record, the encoder applied to that record's sentence |
| Vectorizer.ReplaceNewlines | app/services/vectorizer.py:99-100 | same length, no newline left, every newline becomes a space, other characters unchanged |
| Vectorizer.InsertRow | app/services/vectorizer.py:92-101 | defines the row for record i: position, vector, `int(Id)`, `str()` of the name fields, newlines replaced in the texts; stated by `InsertRows` and `BuildRows` |
| Vectorizer.InsertRows | app/services/vectorizer.py:90-101 | one row per position of the zip: idx = position, inner_id = Id, the vector at that position, no newline in steps or expected_result |
| Vectorizer.BuildRows | app/services/vectorizer.py:90-101 | the append loop builds exactly `InsertRows`; name fields are `str()` of the record's fields; steps keep their length and non-newline characters |
| Vectorizer.LoadDataframe | app/services/vectorizer.py:48-52 | the staged records for a known job, and KeyError exactly for an unknown or expired one |
| Vectorizer.VectorizeStatus | app/api/vectorize.py:38-41 | both KeyErrors (unknown job, empty dataset) map to 404, and any other failure to 422 |
| Vectorizer.RunOutcome | app/services/vectorizer.py:41-43 | defines what a run on a non-empty batch leaves: the collection ensured with the first vector's width, then the insert or its error; stated by `FreshCollectionTakesBatch` |
| Vectorizer.FreshCollectionTakesBatch | app/services/vectorizer.py:83-104 | into a new collection, a batch of one vector width, 64-bit Ids and texts within the caps is inserted in full: the count is the batch size, the records are the built rows, the schema has that width |
| Vectorizer.Vectorizer.constructor | app/services/vectorizer.py:28-33 | a new vectorizer has its job id, no data and no embeddings |
| Vectorizer.Vectorizer.Run | app/services/vectorizer.py:38-43 | an unknown job fails with KeyError before anything is loaded or stored; otherwise `df` is kept; an empty dataset has no columns and fails with KeyError before `embeddings` is set or anything is stored; else `embeddings` is kept, the collection is ensured with the vector width, and the batch is inserted, with the count returned |

## Left out

- Reading the workbook (`pd.read_excel`): a parameter holding the sheet or the read failure. A cell is a number or a text. Wrongly typed cells (a text Id, a numeric Steps) read as blank. Ids are integers, whereas pandas may carry them as floats.
- The Redis cache (app/services/cache.py): the cache write is returned as a value, and the cache contents are a map passed to the vectorizer. Expiry, connection errors and the JSON round trip through `to_json`/`read_json` are not modelled. The round trip is taken to give back the records unchanged.
- Vectorizer.Vectorizer.Run: a null field is written as "None" (`NullText`). A column that is null in every record may come back from JSON as float NaN, and `str()` then gives "nan". That case is not modelled.
- The sentence encoder: the model, L2 normalisation, the 512-token truncation and the device choice. It is an opaque function, and the embedding width is the width of the first vector.
- Semantic search ranking (IVF_FLAT/COSINE) is approximate floating point inside the store, so it is a function parameter. Only the 404/422 checks and the `limit` bound are modelled, not which hits come back or their scores.
- MilvusAdmin.Dump: the query window 16384 is the server's default `maxQueryResultWindow`, not a constant of the code; a server configured otherwise accepts other limits. Which rows a limited query returns is not fixed by the store; the model returns the first in stored order.
- MilvusAdmin.Search: a primary-key lookup returns the records in stored order. The store does not promise an order. Search hits are cut to the output fields like the other lookups, without their distances.
- Milvus.Inserted: primary keys are not deduplicated. A second run into the same collection stores rows with the same `idx` values again.
- VARCHAR caps are counted in characters. The store counts bytes.
- MilvusAdmin.Search: the store's other refusals (a collection not loaded, a server error) are not modelled; the width mismatch is the one the code can reach on its own collections.
- `_to_py` (NumPy-to-Python conversion for JSON output), `uuid4` (the job id is a parameter), the `lru_cache` client singleton (the store object is passed in) and the check-then-create race between concurrent requests.
- The admin handlers take the store directly instead of calling `get_client()` without a name. `Milvus.GetClient` shows that such a call changes nothing.
- app/api/search.py: it calls a client factory that app/services/milvus.py does not define.
- app/schemas.py, app/core/config.py, app/main.py and the frontend: declarations, settings, health check and UI.
- Logging in the loader.

## Findings

| source | as written | input that shows it | evidently intended | confidence | as-written member | corrected member |
|---|---|---|---|---|---|---|
| app/services/case_loader.py:50-55 with app/api/ingest.py:71-72 | `_import_raw` catches every exception from reading the workbook, FileNotFoundError included, and re-raises it as ValueError. The ingest handler's `except FileNotFoundError` branch (404) can therefore never run, and a missing file answers 422. | an ingest request whose `filename` names no existing file | a missing workbook answers 404 "File not found" | not executed | Ingest.MissingWorkbookIs422 | Ingest.IngestIntendedSpec |

The corrected loader (`CaseLoader.ImportRawIntended`, `CaseLoader.LoadedIntended`)
and handler (`Ingest.IngestIntended`) differ from the as-written ones only on a
missing file. Nothing in the model consumes the status code, so both versions
are kept side by side.
