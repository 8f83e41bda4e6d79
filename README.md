# vmpay-extraction, modelled in Dafny

This project models the core of the vmpay-extraction pipeline. The pipeline
pulls cashless sales facts and auxiliary tables from the VMpay REST API,
keeps them as CSV files, consolidates the historical files into one file, and
upserts everything into BigQuery. The model covers:

- **Column handling and schema derivation** (`Frames`, `Columns`, `Config`,
  `LoadToBigQuery`, `CloudLoadBigQuery`).
  - Column names are sanitised ("." becomes "_").
  - Configured string columns are filled and stringified.
  - The cloud function converts date and numeric columns and flattens `tags`
    and `additional_barcodes`.
  - Both loaders decide each column's BigQuery type by a fixed priority:
    configured string, configured date (cloud function only), configured
    numeric, then the pandas dtype. The batch loader adds an ISO-8601 value
    test.
- **The upsert protocol** (`Warehouse`, `Upsert`).
  - The id-column check comes before any warehouse call.
  - Create-if-absent never alters an existing table.
  - The frame is WRITE_TRUNCATE-loaded into a temporary table.
  - A MERGE is built from the column list. ON uses the id only. SET lists
    every other column. INSERT and VALUES list all columns.
  - The temporary table is dropped only after the MERGE succeeds.
  - The warehouse is a class whose table map the loaders' calls change. A
    ghost log records the calls. A ghost semantics of MERGE lets the model
    prove its idempotence.
- **The fetch loops** (`Pagination`, `HistoricalCashless`, `DailyFetch`,
  `ExtractCashless`).
  - The three-attempt retry sleeps 2^k seconds.
  - The page loop stops on an empty page or one shorter than 100.
  - The seven-day windows of the backfill are contiguous and clipped at the
    end, and a window whose file exists is skipped.
  - The daily window is one day long.
  - The auxiliary tables are updated one by one, and a failure in one is
    caught.
  - Requests and sleeps form a ghost trace of events.
- **Consolidation** (`Consolidation`).
  - The matching files are read in sorted name order and concatenated.
  - `id` is renamed to `transaction_id`, and `occurred_at` is required.
  - The rows are sorted by `occurred_at`, and the last row of each
    transaction id is kept.

The HTTP API, the file system, the CSV reader, `pd.to_datetime` and
`pd.to_numeric` are parameters: oracle functions the model calls but does not
define. The clock is a parameter too.

## Model

| member | source | states |
|---|---|---|
| Frames.SanitizeName | load/load_to_bigquery.py:164 | each "." becomes "_"; every other character and the length are kept |
| Frames.SanitizeNameNormalises | load/load_to_bigquery.py:164 | a sanitised name contains no "."; sanitising it again changes nothing |
| Frames.SanitizeColumns | load/load_to_bigquery.py:162-169 | same number of columns, same order; each name is its sanitised form; cells and dtypes are unchanged |
| Frames.SanitizedIdStillMatches | cloud_function/utils/load_bigquery.py:147-150 | a column present under `id` is present under the sanitised `id` after sanitising, so sanitising names and the id alike keeps them matching |
| Columns.FillStringNoNulls | load/load_to_bigquery.py:268-270 | a filled column keeps its name and length, becomes object dtype, and holds only strings: "" for a missing cell, str() of anything else, with text inside a list or dict quoted and escaped as repr() does |
| Frames.StrRepr | load/load_to_bigquery.py:270 | repr() of a text starts and ends with its quote: double when the text has a single quote and no double one, single otherwise |
| Frames.PlainTextUnescaped | load/load_to_bigquery.py:270 | a text with no quote, backslash or non-printable character appears unchanged between the quotes |
| Frames.ReprRoundTrip | load/load_to_bigquery.py:270 | the quoted, escaped literal reads back as the text it was made from, so the escaping loses nothing |
| Frames.ApostropheInList | cloud_function/utils/load_bigquery.py:245 | a list holding a text with an apostrophe prints that text in double quotes, as `["kid's"]` |
| Columns.FillStringIdempotent | load/load_to_bigquery.py:270 | filling an already filled column changes nothing |
| Columns.ReassignColumns | load/load_to_bigquery.py:268-275 | the loop over the configured names transforms exactly the configured columns present in the frame; an absent one changes nothing; names and order are unchanged |
| Columns.RenamedColumns | cloud_function/daily_fetch.py:56 | after renaming, the new name is present iff the old or the new one was; the old name is gone; every other column keeps its name, cells and dtype |
| Clock.IsoFormat | extract/extract_cashless.py:20 | `isoformat()` of an aware UTC time ends in "+00:00" |
| Clock.Pad | extract/extract_historical_cashless.py:66 | a printed date field is its digits left-filled with "0" up to the width, and never cut short |
| Clock.ApiTimestamp | cloud_function/daily_fetch.py:14-15 | `isoformat() + "Z"` on an aware UTC time ends in "+00:00Z" |
| Clock.BackfillStartDate | extract/extract_historical_cashless.py:81 | the backfill start prints as the date "2024-01-01" |
| Clock.ApiTimestampAtMidnight | extract/extract_historical_cashless.py:45-46 | at a midnight window boundary the request parameter is the date followed by "T00:00:00+00:00Z" |
| Clock.DateStringHasNoSlash | extract/extract_historical_cashless.py:66 | a printed date contains no "/", so a window's file stays directly in the output directory |
| Warehouse.SetColumns | load/load_to_bigquery.py:308-314 | the SET columns are exactly the non-id columns, each as often as in the frame |
| Warehouse.SetColumnsInOrder | load/load_to_bigquery.py:309-313 | SET columns keep the frame's column order |
| Warehouse.BuildMerge | load/load_to_bigquery.py:321-331 | the statement targets the final table, reads the temporary one, joins ON the id only, INSERTs all columns in order, and SETs the non-id ones |
| Warehouse.SetClauseParts | load/load_to_bigquery.py:308-314 | one "T.`c` = S.`c`" part per SET column, in order |
| Warehouse.QuotedAll | load/load_to_bigquery.py:316-317 | the INSERT list quotes each column with backticks, in order |
| Warehouse.SourceValues | load/load_to_bigquery.py:318-319 | the VALUES list is "S.`c`" for each column, in order |
| Warehouse.MergeSql | load/load_to_bigquery.py:321-331 | the exact text sent: MERGE into the final table USING the temporary one, ON the id column, UPDATE SET the SET parts joined by ",\n        ", INSERT the quoted columns, VALUES the source columns |
| Warehouse.MergeSqlLayouts | cloud_function/utils/load_bigquery.py:352-361 | the two loaders send the same text before and after the point right after UPDATE SET, where the script puts a line break and eight spaces and the cloud function one space; the SET clause text is empty iff there is no SET column |
| Warehouse.MergeClausesAligned | load/load_to_bigquery.py:309-331 | the SET columns plus the id are a rearrangement of the INSERT columns; VALUES refers to the INSERT columns position by position |
| Warehouse.BuildMergeWellShaped | load/load_to_bigquery.py:309-319 | for a frame that has its id column, the id is INSERTed and never SET |
| Warehouse.Execute | load/load_to_bigquery.py:321-343 | the MERGE fails with EmptySetClause when there is no SET column, then with UnknownColumn when a named column is missing from the final or the temporary table (an existing table whose schema lacks a batch column refuses the batch), then with TargetMatchedTwice when a target row matches two source rows; a MERGE that succeeds names only columns both tables have, matched no target row twice, and never removes a row |
| Warehouse.MergeRowEffect | load/load_to_bigquery.py:324-330 | a matched row keeps its id, takes the SET columns from its source row and keeps the rest; an inserted row holds exactly the INSERT columns of its source row |
| Warehouse.UpdateIdempotent | load/load_to_bigquery.py:325-327 | applying a source row's update twice equals applying it once |
| Warehouse.UpdateOfInserted | load/load_to_bigquery.py:325-330 | updating a freshly inserted row from its own source row changes nothing |
| Warehouse.InsertsCome | load/load_to_bigquery.py:328-330 | every inserted row is the INSERT image of a source row that no target row matched |
| Warehouse.InsertedRowFound | load/load_to_bigquery.py:328-330 | every source row that no target row matched is inserted, with its id |
| Warehouse.NothingToInsert | load/load_to_bigquery.py:328-330 | when every source id already has a target row, nothing is inserted |
| Warehouse.MergeIdempotent | load/load_to_bigquery.py:321-336 | merging the same batch (distinct ids) a second time leaves the table as the first merge left it |
| Warehouse.Client.CreateTableIfNotExists | load/load_to_bigquery.py:221-230 | an existing table is left as it is; an absent one is created empty with the schema; the lookup is always issued, the create request only for an absent table |
| Warehouse.Client.LoadTruncate | load/load_to_bigquery.py:296-303 | a successful load job replaces the table by exactly the rows; a failed one changes nothing |
| Warehouse.Client.Merge | load/load_to_bigquery.py:334-343 | the statement's exact SQL text is sent; the final table changes only when the MERGE succeeds, and then as the MERGE semantics says |
| Warehouse.Client.DeleteTable | load/load_to_bigquery.py:346 | the table is gone afterwards, whether or not it existed |
| Upsert.TempIsNotFinal | load/load_to_bigquery.py:241-242 | the temporary table's name never equals the final table's |
| Upsert.MergeAndDrop | load/load_to_bigquery.py:334-347 | the temporary table is dropped after a successful MERGE; after a failed one it stays and the error is raised |
| Upsert.LoadAndMerge | load/load_to_bigquery.py:294-347 | truncate-load into the temporary table; a failed load ends the run before any MERGE; otherwise MERGE and drop; its new tables and calls are exactly the load phase |
| Upsert.StageAndMerge | load/load_to_bigquery.py:292-347 | create-if-absent, truncate-load, MERGE, drop; its new tables and call log are exactly the protocol's effect |
| Upsert.TempDroppedOnlyOnSuccess | load/load_to_bigquery.py:334-347 | the drop request is issued iff the run succeeded; a successful run leaves no temporary table; after a failed MERGE the temporary table stays, holding the batch |
| Upsert.ExistingSchemaKept | load/load_to_bigquery.py:289-292 | an existing final table keeps its schema whatever the new frame's schema |
| Upsert.SchemaDriftRefused | load/load_to_bigquery.py:289-292 | a batch carrying a column the existing final table lacks is refused by the MERGE, with no job failing, and the final table is left as it was |
| Upsert.OtherTablesUntouched | load/load_to_bigquery.py:292-347 | no table but the final and the temporary one is created, dropped or changed |
| Upsert.CleanRunEffect | load/load_to_bigquery.py:292-347 | a run without faults leaves the final table holding the MERGE of the rows into it and removes the temporary table |
| Upsert.RerunChangesNothing | load/load_to_bigquery.py:292-347 | re-running a successful upsert of a batch with distinct ids leaves every table as the first run left it |
| LoadToBigQuery.IsoTextMatches | load/load_to_bigquery.py:205 | every `YYYY-MM-DDTHH:MM:SS[.digits][Z]` text built from digit fields passes the value test |
| LoadToBigQuery.IsoBodyIsIsoText | load/load_to_bigquery.py:205 | a text matching the pattern without its anchors is assembled from digit fields, an optional fraction and an optional "Z" |
| LoadToBigQuery.MatchedIsIsoText | load/load_to_bigquery.py:205 | every text that passes the value test is such a text, or such a text followed by the one final newline that `$` admits |
| LoadToBigQuery.NonNullTexts | load/load_to_bigquery.py:202-204 | the texts tested are at most as many as the values, and none at all iff every value is missing |
| LoadToBigQuery.ColumnType | load/load_to_bigquery.py:182-211 | a column is typed TIMESTAMP only when its dtype is datetime or all its values look like ISO timestamps, and INTEGER only for an integer dtype |
| LoadToBigQuery.UnconfiguredTypedByDtype | load/load_to_bigquery.py:192-211 | an unconfigured column is INTEGER iff integer dtype, FLOAT64 iff float, BOOLEAN iff boolean, TIMESTAMP iff datetime or an object column passing the ISO value test, and STRING iff an object column failing it |
| LoadToBigQuery.BuildBqSchema | load/load_to_bigquery.py:175-215 | one field per column, in column order, named as the column, typed by the priority rule |
| LoadToBigQuery.ConfiguredTypeIgnoresData | load/load_to_bigquery.py:186-191 | a configured string column is STRING, and a configured numeric one FLOAT64, whatever its dtype and values |
| LoadToBigQuery.AllMissingIsNotTimestamp | load/load_to_bigquery.py:201-208 | a column with only missing values is never typed TIMESTAMP by the value test |
| LoadToBigQuery.PreparedStringColumns | load/load_to_bigquery.py:268-275 | after preparation a configured string column holds only strings, with no missing cell; other columns are only renamed |
| LoadToBigQuery.UploadAndMergeTable | load/load_to_bigquery.py:236-347 | sanitise, fill, check the id, then run the protocol; its new tables, calls and result are exactly the upload's effect |
| LoadToBigQuery.MissingIdTouchesNothing | load/load_to_bigquery.py:279-292 | a missing id column raises before any warehouse call: no table changes and no call is issued |
| LoadToBigQuery.DottedIdNeverFound | load/load_to_bigquery.py:260-284 | the id is checked as given: an id containing "." is never found among the sanitised names |
| LoadToBigQuery.RunPlan | load/load_to_bigquery.py:365-379 | one outcome per table of the plan |
| LoadToBigQuery.UploadOne | load/load_to_bigquery.py:366-379 | a missing CSV skips the table; a read or upload error is caught as that table's failure |
| LoadToBigQuery.RunUploads | load/load_to_bigquery.py:365-379 | the loop's tables, calls and outcomes are exactly the plan run in order |
| LoadToBigQuery.UploadAllTablesV2 | load/load_to_bigquery.py:353-379 | the six tables are processed in the fixed order with their CSV paths and id columns |
| LoadToBigQuery.EveryTableTried | load/load_to_bigquery.py:365-379 | table k's outcome is its own step run on the tables left by the earlier ones, whatever became of them |
| LoadToBigQuery.StepSkippedIffMissing | load/load_to_bigquery.py:367-378 | a table is skipped exactly when its CSV is missing; a read or upload failure is reported as a failure, not a skip |
| CloudLoadBigQuery.ToDatetimeIdempotent | cloud_function/utils/load_bigquery.py:233-236 | date conversion keeps the name and length, gives a datetime column, and converting again changes nothing |
| CloudLoadBigQuery.ToNumericIdempotent | cloud_function/utils/load_bigquery.py:294-301 | numeric conversion keeps the name, gives an integer, float or boolean column, and converting again changes nothing |
| CloudLoadBigQuery.TagTexts | cloud_function/utils/load_bigquery.py:255 | at most one text per tag |
| CloudLoadBigQuery.TagText | cloud_function/utils/load_bigquery.py:255 | a tag gives a text iff it is not None, and that text is its str() |
| CloudLoadBigQuery.TagTextsConcat | cloud_function/utils/load_bigquery.py:255 | the tag texts of a list are those of its items, in order |
| CloudLoadBigQuery.TagsCell | cloud_function/utils/load_bigquery.py:253-259 | a list becomes the ", "-join of its tags' texts, a missing value "", a string stays as it is, and any other value becomes its str() |
| CloudLoadBigQuery.TextTagsJoined | cloud_function/utils/load_bigquery.py:253-259 | a list of text tags becomes those texts joined by ", ", in order |
| CloudLoadBigQuery.BarcodeText | cloud_function/utils/load_bigquery.py:274-280 | an item gives a text iff it is a dict whose "value" entry exists and is not None, and that text is the value's str() |
| CloudLoadBigQuery.BarcodeTexts | cloud_function/utils/load_bigquery.py:274-280 | at most one text per item |
| CloudLoadBigQuery.BarcodeTextsConcat | cloud_function/utils/load_bigquery.py:274-281 | the barcode texts of a list are those of its items, in order |
| CloudLoadBigQuery.BarcodesCell | cloud_function/utils/load_bigquery.py:272-284 | a list becomes the ", "-join of its items' barcode texts, a missing value "", a string stays as it is, and any other value becomes its str() |
| CloudLoadBigQuery.TextBarcodesJoined | cloud_function/utils/load_bigquery.py:272-284 | a list of dicts whose "value" entries are texts becomes those texts joined by ", ", in order |
| CloudLoadBigQuery.RewritesAfterFillAreIdentity | cloud_function/utils/load_bigquery.py:242-289 | because the string fill runs first, the tags and barcode rewrites leave a filled column unchanged |
| CloudLoadBigQuery.TagsListKeepsListNotation | cloud_function/utils/load_bigquery.py:245-260 | a configured `tags` list therefore keeps Python's list notation instead of being joined with ", " |
| CloudLoadBigQuery.NumericTargets | cloud_function/utils/load_bigquery.py:294-299 | numeric conversion targets exactly the listed names that are neither string nor date columns of the table |
| CloudLoadBigQuery.PrepareFrame | cloud_function/utils/load_bigquery.py:227-303 | the in-place column loops produce exactly the prepared frame |
| CloudLoadBigQuery.BuildBqSchemaCf | cloud_function/utils/load_bigquery.py:166-220 | one field per column, in column order, typed string > date > numeric > dtype |
| CloudLoadBigQuery.ColumnTypeCf | cloud_function/utils/load_bigquery.py:174-218 | a column is typed TIMESTAMP only when it has a datetime dtype, and INTEGER only for an integer dtype |
| CloudLoadBigQuery.UnconfiguredTypedByDtypeCf | cloud_function/utils/load_bigquery.py:206-218 | a column no list configures is INTEGER iff integer dtype, FLOAT iff float, BOOLEAN iff boolean, TIMESTAMP iff datetime, and STRING iff object dtype |
| CloudLoadBigQuery.NumericNeverString | cloud_function/utils/load_bigquery.py:189-205 | a numeric column that is neither string nor date is INTEGER for an integer dtype and FLOAT otherwise, never STRING |
| CloudLoadBigQuery.PreparedColumn | cloud_function/utils/load_bigquery.py:227-303 | each prepared column depends only on the same sanitised input column |
| CloudLoadBigQuery.PreparedStringColumn | cloud_function/utils/load_bigquery.py:242-245 | a configured string column ends up text-only, with no missing cell, and typed STRING |
| CloudLoadBigQuery.PreparedDateColumn | cloud_function/utils/load_bigquery.py:233-236 | a configured date column becomes a datetime column of timestamps or nulls (unparseable values become null) and is typed TIMESTAMP |
| CloudLoadBigQuery.PreparedNumericColumn | cloud_function/utils/load_bigquery.py:294-301 | a numeric target holds only numbers or nulls after conversion and is typed INTEGER or FLOAT |
| CloudLoadBigQuery.PreparedOtherColumn | cloud_function/utils/load_bigquery.py:227-303 | a column the configuration does not name passes through unchanged |
| CloudLoadBigQuery.RewrittenColumn | cloud_function/utils/load_bigquery.py:249-289 | after the two rewrites every column is as the string fill left it |
| CloudLoadBigQuery.UploadDataFrameToBigQuery | cloud_function/utils/load_bigquery.py:223-379 | prepare, check the sanitised id, then run the protocol; its new tables, calls and result are exactly the upload's effect |
| CloudLoadBigQuery.SanitizedIdFound | cloud_function/utils/load_bigquery.py:228-230 | an id column present in the input is found after the id argument is sanitised too |
| CloudLoadBigQuery.UploadTouchesOnlyItsTables | cloud_function/utils/load_bigquery.py:311-376 | an upload creates, drops or changes no table but its own final and temporary tables |
| Pagination.FetchWithRetry | extract/extract_historical_cashless.py:27-35 | the retry loop's result and trace are exactly the three-attempt specification |
| Pagination.RetryFrom | extract/extract_historical_cashless.py:27-35 | defines the retry loop from attempt k: a successful attempt returns the page's records, a failed attempt k is followed by a sleep of 2^k seconds, and after attempt 2 it gives up; its properties are those of RetryOutcome |
| Pagination.RetryOutcome | extract/extract_historical_cashless.py:27-35 | attempts 0, 1, 2 at most; after failed attempt k it sleeps 2^k (1, 2, 4) seconds; the first success's records are returned; three failures give up |
| Pagination.FetchOnce | cloud_function/daily_fetch.py:19 | one request; a failure raises at once, with no retry and no sleep |
| Pagination.CollectPages | extract/extract_historical_cashless.py:38-58 | the `while True` page loop's result and trace are exactly the page-loop specification |
| Pagination.Paginate | extract/extract_historical_cashless.py:38-58 | defines the page loop from a page on: fetch it under the policy, stop on an error, an empty page or one shorter than 100, otherwise keep the records, pause when asked and go on with the next page; its properties are those of PaginateCollects, PagesRequestedInOrder, RequestsCarryWindow, SleepsOnlyAfterFullPages and SleepsPlacedWithRetries |
| Pagination.PaginateCollects | extract/extract_historical_cashless.py:49-53 | a successful run returns pages 1 to the last page concatenated in order, its length is the sum of their sizes, earlier pages are full, and the last is shorter than 100 |
| Pagination.ConcatSize | extract/extract_historical_cashless.py:51 | the concatenated records number the sum of the page sizes |
| Pagination.PagesRequestedInOrder | extract/extract_historical_cashless.py:40-54 | the pages first requested are 1, 2, 3, … in order, each once |
| Pagination.RequestsCarryWindow | cloud_function/daily_fetch.py:13-18 | every request carries the window's start and end and per_page=100 |
| Pagination.FirstEventIsFirstRequest | extract/extract_historical_cashless.py:40-48 | under either policy, the loop's first event is attempt 0 at its first page |
| Pagination.RetrySleepsPlaced | extract/extract_historical_cashless.py:27-35 | the retry loop sleeps 2^k seconds only right after failed attempt k < 3, starts with attempt k, and on success ends with an attempt that did not fail and returns the request's records |
| Pagination.SleepsPlacedWithRetries | extract/extract_historical_cashless.py:27-55 | with retries, every sleep is the 2^k-second back-off right after failed attempt k, or the one-second pause right after a successful full page and right before attempt 0 at the next page |
| Pagination.SleepsOnlyAfterFullPages | cloud_function/daily_fetch.py:23-26 | without retries, the run starts with the request for page 1, and a one-second sleep only ever follows a request that returned a full page |
| HistoricalCashless.ExtractRange | extract/extract_historical_cashless.py:38-58 | the window's pages with three attempts each and one-second pauses, parameters `isoformat() + "Z"` |
| HistoricalCashless.Saved | extract/extract_historical_cashless.py:61-70 | empty data writes nothing; otherwise exactly the window's file is (re)written with the data |
| HistoricalCashless.CsvName | extract/extract_historical_cashless.py:85 | defines the window's file name from the two UTC dates; Consolidation.BackfillFilesMatch states that the consolidation picks every such file up |
| HistoricalCashless.DateRangesTile | extract/extract_historical_cashless.py:73-77 | no window iff start ≥ end; otherwise the first starts at start, the last ends at end, windows are contiguous, window i starts at start + i·step, and each is non-empty and at most step long |
| HistoricalCashless.GenerateDateRanges | extract/extract_historical_cashless.py:73-77 | the generator's loop yields exactly those windows |
| HistoricalCashless.DateRanges | extract/extract_historical_cashless.py:73-77 | defines the generator's windows; DateRangesTile states how they tile the range |
| HistoricalCashless.FailureEndsRun | extract/extract_historical_cashless.py:91 | once a window fails, later windows are not visited |
| HistoricalCashless.WindowStep | extract/extract_historical_cashless.py:85-93 | defines one window of the main loop: no request when the file exists, otherwise fetch, stop on failure, save and pause; BackfillWindow is proved against it |
| HistoricalCashless.BackfillWindow | extract/extract_historical_cashless.py:85-93 | one iteration: skip an existing file; otherwise fetch, save if non-empty, and pause one second |
| HistoricalCashless.BackfillWindows | extract/extract_historical_cashless.py:84-93 | the loop's files, trace and result are exactly the windows run in order |
| HistoricalCashless.Backfill | extract/extract_historical_cashless.py:80-93 | the whole script runs the seven-day windows from 2024-01-01 to now |
| HistoricalCashless.ExistingFilesKept | extract/extract_historical_cashless.py:84-92 | a file that exists before a run is neither removed nor rewritten |
| HistoricalCashless.EveryWindowSavedOrEmpty | extract/extract_historical_cashless.py:84-92 | after a successful run, every window either has its file or fetched no records |
| HistoricalCashless.NothingLeftToSave | extract/extract_historical_cashless.py:84-92 | when every window has its file or fetches no records, a run succeeds and changes no file |
| HistoricalCashless.EmptyWindowFetchedAgain | extract/extract_historical_cashless.py:85-92 | a window without its file whose fetch returns no records succeeds, still has no file, and its first event is the attempt-0 request for page 1 |
| HistoricalCashless.EmptyWindowsFetchedAgain | extract/extract_historical_cashless.py:84-92 | when every window has its file or fetches no records, every window without a file has its page-1 request in the run's trace |
| HistoricalCashless.AllSavedFetchesNothing | extract/extract_historical_cashless.py:84-89 | when every window's file exists, a run issues no request and no pause, changes no file and succeeds |
| HistoricalCashless.RerunSavesNothingNew | extract/extract_historical_cashless.py:84-92 | re-running after a successful run, with the same API answers, succeeds and leaves the files unchanged |
| HistoricalCashless.ExistingWindowSkipped | extract/extract_historical_cashless.py:87-89 | a window whose file exists issues no request and no pause |
| DailyFetch.DayWindow | cloud_function/daily_fetch.py:43-49 | the window always lasts one day; with no date it is [now − 1 day, now); with a date it starts at that date read as UTC; an unparseable date is an error |
| DailyFetch.FetchCashlessData | cloud_function/daily_fetch.py:9-27 | the page loop over the day, one attempt per page, one-second pauses, parameters `isoformat() + "Z"` |
| DailyFetch.UpdateAuxTable | cloud_function/daily_fetch.py:30-38 | fetch, normalise and upsert on `id`; any failure is caught and reported as this table's outcome |
| DailyFetch.AuxRun | cloud_function/daily_fetch.py:65-72 | one outcome per auxiliary table |
| DailyFetch.UpdateAuxTables | cloud_function/daily_fetch.py:65-72 | the loop's tables, calls and outcomes are exactly the tables run in order |
| DailyFetch.EveryAuxTableTried | cloud_function/daily_fetch.py:65-72 | table k's outcome is its own step run on the tables left by the earlier ones, whatever became of them |
| DailyFetch.LoadCashless | cloud_function/daily_fetch.py:52-62 | no records: no upload; otherwise `id` is renamed to `transaction_id` and the rows are upserted into `cashless` keyed by it; errors propagate |
| DailyFetch.RunDaily | cloud_function/daily_fetch.py:41-78 | window, cashless upsert, then the auxiliary tables in order; its tables, calls and result are exactly the run's effect |
| DailyFetch.DailyEffect | cloud_function/daily_fetch.py:41-78 | defines the whole daily run: window, cashless fetch and upsert, then the auxiliary tables; RunDaily is proved against it and the lemmas after it state its properties |
| DailyFetch.FailedRunTouchesOnlyCashless | cloud_function/daily_fetch.py:75-78 | a run that raises has touched no table but `cashless` and its temporary table |
| DailyFetch.SuccessfulRunUpsertedTheDay | cloud_function/daily_fetch.py:30-72 | a run succeeds exactly when the window parses, the day is fetched and its records are upserted into `cashless` without error (auxiliary failures are caught), and a successful run reports one outcome per auxiliary table |
| DailyFetch.AfterFetchSucceeds | cloud_function/daily_fetch.py:30-72 | after the fetch, the run succeeds exactly when the cashless upsert does, with one outcome per auxiliary table |
| ExtractCashless.WindowParameters | extract/extract_cashless.py:17-20 | the start parameter is the isoformat of now − days_back followed by "Z", so it ends in "+00:00Z"; the end parameter ends in "+00:00" with no "Z" |
| ExtractCashless.ExtractCashlessRange | extract/extract_cashless.py:16-36 | the result (records or the failing request) is that of the page loop over the window, without retries or pauses |
| ExtractCashless.ExtractNeverSleeps | extract/extract_cashless.py:23-33 | the run never sleeps, requests pages 1, 2, … once each with the window and per_page=100, and returns their in-order concatenation |
| ExtractCashless.OnlyFirstAttempts | extract/extract_cashless.py:6-13 | every request is a single first attempt |
| ExtractCashless.SaveToCsv | extract/extract_cashless.py:39-42 | the output file is written with the records, even when there are none; no other file changes |
| ExtractCashless.RunWeekly | extract/extract_cashless.py:45-47 | a week back from now; a failed request ends the script before anything is written |
| Consolidation.StrLeTotal | merge/merge_cashless_facts_only.py:24 | any two texts are ordered one way or the other |
| Consolidation.StrLeTransitive | merge/merge_cashless_facts_only.py:24 | the text order is transitive |
| Consolidation.StrLeAntisymmetric | merge/merge_cashless_facts_only.py:24 | texts ordered both ways are equal |
| Consolidation.SortBySorted | merge/merge_cashless_facts_only.py:9 | the sort returns its input rearranged into order |
| Consolidation.Matching | merge/merge_cashless_facts_only.py:9 | the matched paths are exactly the listed ones that fit `cashless_*.csv` in the input directory |
| Consolidation.CsvFilesSorted | merge/merge_cashless_facts_only.py:9 | the files read are exactly the matching ones, in ascending name order |
| Consolidation.BackfillFilesMatch | merge/merge_cashless_facts_only.py:9 | every file the backfill writes is one the consolidation picks up |
| Consolidation.ReadAllConcatenates | merge/merge_cashless_facts_only.py:13-14 | the concatenation has the union of the files' columns and the sum of their rows |
| Consolidation.DedupKeepLast | merge/merge_cashless_facts_only.py:26 | defines `drop_duplicates(keep="last")`: a row is kept when no later row has its id; DedupKeepsIds, DedupDistinct, DedupFromInput, DedupOnePerId and DedupKeepsLatest state its properties |
| Consolidation.DedupKeepsIds | merge/merge_cashless_facts_only.py:26 | deduplication keeps every transaction id and invents none |
| Consolidation.DedupDistinct | merge/merge_cashless_facts_only.py:26 | no two kept rows share a transaction id |
| Consolidation.DedupFromInput | merge/merge_cashless_facts_only.py:26 | every kept row is an input row |
| Consolidation.DedupOnePerId | merge/merge_cashless_facts_only.py:25-27 | one row per input id; the dropped count is the input size less the number of ids |
| Consolidation.DedupKeepsLatest | merge/merge_cashless_facts_only.py:24-26 | on rows sorted by `occurred_at`, each kept row's `occurred_at` is the greatest among its id's rows |
| Consolidation.AnySortedOrder | merge/merge_cashless_facts_only.py:24-27 | for every sorted rearrangement, whatever the tie order: one input row per id, each with its id's greatest `occurred_at`, and the dropped count is the input size less the number of ids |
| Consolidation.ConsolidatedOnePerLatestId | merge/merge_cashless_facts_only.py:24-29 | a successful run outputs one of its input rows per input transaction id, each with its id's greatest `occurred_at`, and reports the right dropped count |
| Consolidation.Consolidate | merge/merge_cashless_facts_only.py:9-29 | defines the script: glob and sort, read and concatenate, rename `id`, require `occurred_at`, sort, deduplicate, and report the dropped count; ConsolidatedOnePerLatestId and ConsolidateFailures state its properties |
| Consolidation.ConsolidateFailures | merge/merge_cashless_facts_only.py:13-21 | no matching file, an unreadable file or a missing `occurred_at` column each stop the script before sorting; when the files read and combine and `occurred_at` is present, the script succeeds |

## Left out

- The HTTP client (`fetch_from_endpoint`, `requests.get`) is an oracle: the
  records of a page of a window, and whether an attempt fails. The oracle
  ignores `per_page`, which the model proves is always 100.
- The API oracle serves a finite sequence of pages per window, and every
  page past the last is empty. The source's `while True` page loops (in
  `extract_range`, `fetch_cashless_data` and `extract_cashless_range`) never
  end against an API that keeps returning full pages. The model cannot
  express that API. Pagination.Paginate's termination, and with it
  Pagination.PaginateCollects and Pagination.CollectPages, hold only because
  of this constraint.
- The auxiliary endpoints are fetched as one request, as the source does: no
  pagination.
- Reading the API's JSON, `pd.json_normalize` and `pd.read_csv` are oracles,
  including read_csv's dtype inference and its `parse_dates`. Whether a date
  column arrives as a datetime dtype is not constrained. CSV writing keeps
  records, not text, so encoding and the output file's column order are not
  modelled.
- `pd.to_datetime` and `pd.to_numeric` are oracles per value.
  - Their outputs are constrained only to be timestamps or null, and numbers
    or null, respectively.
  - The dtype pandas infers for a converted column is modelled as integer
    when every value is an integer, float otherwise.
  - The boolean and empty-column cases of pandas' inference are not
    distinguished further.
- Floats are opaque: only their printed text is kept.
- Frames.StrRepr: repr() of a text inside a list or dict is modelled with
  Python's quote choice and its escapes for the quote, the backslash, tab,
  newline, return and the non-printable Latin-1 characters. Characters above
  U+00FF are written as they are. Python escapes the ones Unicode does not
  call printable (format characters, line and paragraph separators, unassigned
  code points) as `\u` or `\U`, and the model does not.
- Columns.FillStringNoNulls: str() of a list or dict is exact except for the
  characters above U+00FF named in the Frames.StrRepr line.
- `\d` in the ISO value test is ASCII-only in the model. Python's `re` also
  accepts other Unicode digits in str patterns.
- Two columns that sanitise to the same name are not given any special
  treatment. pandas would then hold duplicate column names.
- BigQuery is a map from table id to schema and rows.
  - Type conversion on load is not modelled.
  - A MERGE checks that the final and the temporary table have every column
    it names, but not that the column types agree.
  - Neither are SQL NULL semantics beyond "a NULL id matches nothing".
  - A MERGE where several source rows match one target row fails, as
    BigQuery does, but the error text is not modelled.
- Load and MERGE job failures are fault flags given per table. Other
  exceptions in the loaders, such as network errors on `get_table`, are not
  modelled.
- Printing, logging, tracebacks and `time.sleep` are dropped. Sleeps are kept
  as events in a ghost trace.
- `datetime.now` is a parameter. The two clock readings of
  `extract_cashless_range` are two parameters.
- HistoricalCashless.GenerateDateRanges: requires a positive step. For a step
  of zero or less, the source generator never ends when start < end.
  HistoricalCashless.DateRanges has the same precondition.
- Consolidation.ConsolidatedOnePerLatestId: is stated about the model's
  insertion sort. pandas' default sort is not stable, so the tie order of
  equal `occurred_at` values is unspecified. Consolidation.AnySortedOrder
  states the same properties for every sorted rearrangement, and no
  tie-break is asserted.
- `occurred_at` values are compared as the text read from the CSV.
  - A non-text value is treated as missing, and missing values sort last.
  - Python compares strings by code point, and so does the model: a Dafny
    character is a Unicode scalar value.
- A file holding both an `id` and a `transaction_id` column is renamed
  row by row, with `id` overwriting. pandas would keep two columns of the
  same name.
- The consolidated output is the returned table (its column set, rows and
  dropped count); writing it to `data/cashless_facts_full.csv` is not
  modelled separately.
- Configuration loading (`.env`, `BIGQUERY_DATASET_ID`) is out of scope. The
  dataset id is a parameter.
- The entry-point scripts and the per-endpoint extractors are not part of
  this model. Neither are the unused merge scripts.
