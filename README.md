# DHL tracking service, modelled in Dafny

This project models the core of a FastAPI service that tracks DHL shipments
by waybill number. Each waybill can carry an optional bin id, the warehouse
bin the parcel belongs to. The model covers these parts of the service:

- **Batch processor** (`BatchProcessor`). It checks the daily quota of DHL
  requests and cuts the batch to what remains. It answers waybills with a
  record checked within the hour from the table (filling in a missing bin),
  and looks the rest up in chunks of five with 7 s between chunks. Waybills
  that failed get up to five retry rounds, with 10, 15, 20, 25 and 30 s of
  back-off. Whatever still fails is stored as a terminal failure. The
  processor returns the counts of the batch.
- **Repositories** (`Repositories`). The tracking table is a map from
  tracking number to record, with create, get, get-multiple, update,
  upsert, bulk upsert, delete and the bin-closure e-mail flag. The per-day
  API usage table supports get-or-create, increment and remaining.
- **Input parsing** (`Schemas`, `FileProcessor`, `Config`). This covers:
  - the `waybill,binID` plain-text requests of /bulk and /export, with
    first-occurrence de-duplication;
  - the list and single-number validators;
  - the file check of uploads, the column finder with its positional
    fallback, the row cleaner and de-duplication of CSV and Excel uploads;
  - the comma-separated team-leader e-mail setting.
- **DHL response mapping** (`DhlService`). It covers `_extract_location`,
  `_parse_tracking_response`, the status mapping of `track_single` and the
  chunked `track_batch`. The HTTP call is an oracle
  `transport(waybill, attempt) -> Response`, so "fails on attempts 1 to 4"
  can be stated.
- **Routes** (`TrackingApi`). The model covers these routes:
  - the single-number route (validation, then the quota, then the cache,
    then a lookup);
  - the quota gates of /bulk and /upload;
  - the bin merge and report reply of the text export;
  - the download route's file-name check and media type;
  - the history route.
- **Report tables** (`ExportService`). This is the table that the PDF and
  DOCX reports lay out: the header, one row per record, 'N/A' cells, and
  the last-event date.

Stateful parts are Dafny classes, each with a pure specification function:

- `TrackingRepository.records`, a map;
- `ApiUsageRepository.days`, a map of usage rows;
- `Runtime.Environment`, which holds the transport oracle, the requests
  made, and a ghost trace of requests and sleeps;
- `DhlApiService`, `BatchProcessor`.

Each method's `ensures` ties the new state to that function. For a whole
batch run the function is `ProcessBatchSpec`, and the lemmas of
`BatchProperties` state what the run promises.

Time is whole seconds. One `now` serves a whole route call or batch run.
Sleeps are recorded in milliseconds in the trace and do not advance the
clock. A record is fresh when `(now - last_checked) % 86400 < 3600`. This
is the `timedelta.seconds` test of the code, so a record checked 23.5 hours
ago counts as fresh.

The configuration constants come from `app/utils/config.py` and
`app/core/batch_processor.py`:

| constant | value |
|---|---|
| `DhlDailyLimit` | 250 |
| `DhlBatchSize` | 10 |
| `MaxFileSize` | 10 MiB |
| `ExportDir` | `./exports` |
| `AllowedExtensions` | `.csv`, `.xlsx`, `.xls` |
| first-pass chunk | 5 |
| first-pass pause | 7 s |
| retry rounds | 5 |
| retry delay | 10 s plus 5 s per round |
| retry chunk pause | 0.5 s |

Some behaviour of the code is easy to miss, and the model follows the code
each time:

- **Retries can overspend the quota.** The quota cuts the batch before it
  is looked up, but retries are not counted against it.
  `BatchProperties.QuotaOverspend` shows a batch that fills the remaining
  quota issuing six requests per waybill.
- **First-pass failures are not recorded as usage.** Retry outcomes are
  recorded, success or failure (`BatchProperties.RunUsage`). So "fails on
  attempts 1 to 4, then succeeds" records four usage calls, not five.
- **Waybills cut by the quota are not reported as failed.**
  `total_requested` becomes the remaining quota (`BatchProperties.WithinQuota`).
- **Retry successes can be stored without the batch id.** They are
  upserted before the batch id is set on them
  (`app/core/batch_processor.py:94` vs `191`).
- **A cache hit always counts as successful**, even when it answers with a
  stored failure.
- **The single route checks length after stripping**: it refuses a number
  shorter than five characters once stripped. The pydantic single-number
  model checks length on the raw text instead, so `"  ab1  "` passes as
  `"AB1"` (`Schemas.ValidateNumberShortAfterStrip`).

`track_batch` drops results that are exceptions. `track_single` catches
every exception, so no result is ever dropped, and the model proves one
result per waybill.

`app/repositories/tracking_repository.py` repeats the repository of
`app/repositories/__init__.py`. One `TrackingRepository` class models both;
the bin-closure flag and the async getter come from the former.

## Model

| member | source | states |
|---|---|---|
| Config.SplitEmails | app/utils/config.py:55-60 | an empty setting gives no address; never more addresses than comma-separated pieces |
| Config.StrippedNonBlankSound | app/utils/config.py:60 | every kept entry is non-blank, already stripped, and the strip of some piece |
| Config.StrippedNonBlankComplete | app/utils/config.py:60 | every piece that is not blank is kept, stripped |
| Config.SplitEmailsSound | app/utils/config.py:60 | every address is a non-blank, stripped, comma-free piece of the setting |
| Config.SplitEmailsComplete | app/utils/config.py:60 | no non-blank piece of the setting is lost |
| Config.SplitEmailsJoin | app/utils/config.py:57-60 | clean addresses written comma-separated read back as the same list, in order |
| Config.StrippedNonBlankIdentity | app/utils/config.py:60 | a list of clean addresses passes the strip-and-drop-blanks filter unchanged |
| Common.Strip | app/models/schemas.py:31 | `strip()` never lengthens, leaves no whitespace at either end, and is empty exactly for all-whitespace text |
| Common.CleanedIsClean | app/models/schemas.py:31 | `strip().upper()` gives text that is already stripped and upper-cased |
| Common.Split | app/models/schemas.py:134 | `split(sep)` gives one more piece than separators, none containing the separator |
| Common.StripIdempotent | app/models/schemas.py:31 | stripping twice is stripping once |
| Common.Upper | app/models/schemas.py:31 | `upper()` keeps the length and maps each character to its upper case |
| Common.Lower | app/core/file_processor.py:64 | `lower()` keeps the length and maps each character to its lower case |
| Common.UpperIdempotent | app/models/schemas.py:145 | upper-casing twice is upper-casing once |
| Common.JoinSplit | app/utils/config.py:60 | joining the pieces of a split gives back the text |
| Common.SplitJoin | app/models/schemas.py:134 | splitting pieces joined by a separator they lack gives back the pieces |
| Common.SplitFirst | app/models/schemas.py:144 | `split(',', 1)`: the part before the first comma has no comma, and the two parts rebuild the text |
| Common.Dedupe | app/models/schemas.py:164-171 | the `seen`-set loop computes the first element of each key, in input order |
| Common.FirstOccurrencesKeys | app/models/schemas.py:164-171 | the de-duplicated list has distinct keys |
| Common.FirstOccurrencesAreFirst | app/models/schemas.py:164-171 | each kept element is the first element of the input with its key |
| Common.FirstOccurrencesInOrder | app/models/schemas.py:92-98 | the kept elements keep the input order |
| Common.FirstOccurrencesComplete | app/models/schemas.py:92-98 | every key of the input is kept |
| Common.FirstOccurrencesOfDistinct | app/models/schemas.py:164-171 | input whose keys are already distinct is kept whole |
| Records.ApplyPatch | app/repositories/__init__.py:38-39 | keys the dictionary does not supply keep their value; creation time and e-mail flag are untouched |
| Records.UpdatedFields | app/repositories/__init__.py:35-44 | an update sets every supplied key (a supplied None included), keeps every other field, and sets `last_checked` and `updated_at` to now |
| Records.UpdatedIdempotent | app/repositories/__init__.py:35-44 | the same update twice at one instant equals one update |
| Repositories.UpsertStore | app/repositories/__init__.py:46-52 | after an upsert the table has exactly its old keys plus the dictionary's number, and stays keyed by tracking number |
| Repositories.PatchKeys | app/repositories/__init__.py:54-59 | the numbers supplied are exactly those of the dictionaries |
| Repositories.UpsertAllFacts | app/repositories/__init__.py:54-59 | sequential upserts add exactly the supplied numbers, leave every other row untouched, and keep the table keyed |
| Repositories.UpsertAllAppend | app/repositories/__init__.py:54-59 | two runs of upserts equal one run of both lists |
| Repositories.MarkedSentIdempotent | app/repositories/tracking_repository.py:98-106 | a second marking changes nothing and reports false |
| Repositories.TrackingRepository.Create | app/repositories/__init__.py:18-23 | a dictionary without a number is refused (NOT NULL), a number already present is refused (UNIQUE), otherwise exactly that row is added |
| Repositories.TrackingRepository.GetByTrackingNumber | app/repositories/__init__.py:25-28 | found exactly when stored, and the row found carries the number asked for |
| Repositories.TrackingRepository.GetByTrackingNumberAsync | app/repositories/tracking_repository.py:108-109 | the same answer as the synchronous getter |
| Repositories.TrackingRepository.GetMultiple | app/repositories/__init__.py:30-33 | exactly the stored rows whose numbers are requested, each once |
| Repositories.TrackingRepository.Update | app/repositories/__init__.py:35-44 | a missing row changes nothing and gives None; otherwise the row becomes the updated row, renamed if a new number is supplied, and a rename onto another row is refused |
| Repositories.TrackingRepository.Upsert | app/repositories/__init__.py:46-52 | the table becomes `UpsertStore` of the dictionary, and the row returned is the one stored under its number |
| Repositories.TrackingRepository.BulkUpsert | app/repositories/__init__.py:54-59 | one row per dictionary, in order, equal to the sequential upserts; the first dictionary without a number stops the run after the earlier upserts |
| Repositories.TrackingRepository.Delete | app/repositories/__init__.py:74-80 | true exactly when the row existed; it is gone afterwards, and nothing else changes |
| Repositories.TrackingRepository.MarkBinClosureEmailSent | app/repositories/tracking_repository.py:98-106 | true exactly when the row exists and was not yet marked; the table becomes the marked table |
| Repositories.WithToday | app/repositories/__init__.py:89-97 | today's row exists afterwards; an existing row is kept as it is, a missing one is created with zero counts |
| Repositories.RecordedAppend | app/repositories/__init__.py:99-109 | recording two runs of usage calls equals recording both |
| Repositories.RecordedCounts | app/repositories/__init__.py:99-109 | every call adds one to today's total and one to exactly one of the success and failure counts; other days are untouched |
| Repositories.Remaining | app/repositories/__init__.py:111-113 | never negative; zero exactly when the limit is used up; otherwise it plus the used count is the limit |
| Repositories.ApiUsageRepository.GetOrCreateToday | app/repositories/__init__.py:89-97 | the usage table becomes `WithToday`, and an existing row is returned unchanged |
| Repositories.ApiUsageRepository.IncrementUsage | app/repositories/__init__.py:99-109 | the table becomes one recorded call, and the returned row's total is one more than before |
| Repositories.ApiUsageRepository.GetRemainingRequests | app/repositories/__init__.py:111-113 | the remaining count of the table before the call; creates today's row |
| Repositories.ApiUsageRepository.CanMakeRequest | app/repositories/__init__.py:115-116 | true exactly when fewer than `limit` requests were made today |
| Schemas.ValidateTrackingNumberFacts | app/models/schemas.py:25-34 | a number is accepted exactly when its text has 5 to 50 characters and is not blank; the result is clean and no longer than the text |
| Schemas.ValidateCleanNumber | app/models/schemas.py:28-34 | a clean number of allowed length is accepted unchanged, so validating is idempotent |
| Schemas.ValidateNumberShortAfterStrip | app/models/schemas.py:25-34 | the length limit applies before stripping: `"  ab1  "` is accepted as `"AB1"` |
| Schemas.ValidateBinIdIdempotent | app/models/schemas.py:36-41 | validating a bin twice gives the same bin |
| Schemas.CleanNumbersMembers | app/models/schemas.py:88 | the cleaned list holds exactly the stripped, upper-cased, non-blank entries |
| Schemas.ValidateTrackingNumbers | app/models/schemas.py:85-98 | the loop computes the list validator's result |
| Schemas.BulkNumbersAccepts | app/models/schemas.py:83-90 | a list is accepted exactly when it has 1 to 1000 entries and one is not blank |
| Schemas.NumbersKept | app/models/schemas.py:91-98 | removing repeats loses no number |
| Schemas.BulkNumbersSound | app/models/schemas.py:85-98 | the accepted numbers are distinct, non-empty, exactly the cleaned entries, in entry order |
| Schemas.ParseLineSound | app/models/schemas.py:138-156 | a parsed line gives a clean waybill without a comma, and a bin that is non-empty and stripped when present |
| Schemas.ParseFormatLine | app/models/schemas.py:143-151 | a clean pair written as a line parses back to the same pair |
| Schemas.CollectLinesFirstError | app/models/schemas.py:137-149 | the error names the first line with an empty waybill, counting blank lines too |
| Schemas.CollectLinesErrExtends | app/models/schemas.py:137-149 | an error in some lines is the error of the whole text |
| Schemas.CollectLinesNoError | app/models/schemas.py:137-156 | lines without an empty waybill always parse |
| Schemas.CollectLinesSound | app/models/schemas.py:137-156 | every collected pair is clean |
| Schemas.CollectLinesNonBlank | app/models/schemas.py:137-156 | a non-blank line gives a pair or an error |
| Schemas.CollectFormatted | app/models/schemas.py:137-156 | clean pairs written one per line collect back to the same pairs |
| Schemas.CollectAllParsed | app/models/schemas.py:137-156 | lines that each parse collect to their pairs, in order |
| Schemas.CollectLinesLoop | app/models/schemas.py:137-156 | the loop computes the collected pairs or the first line error |
| Schemas.ParseBulkText | app/models/schemas.py:124-172 | the bulk validator computes the bulk parse |
| Schemas.ParseExportText | app/models/schemas.py:234-278 | the export validator computes the export parse |
| Schemas.ParsePlainTextSound | app/models/schemas.py:131-172 | an accepted text gives distinct, clean, comma-free waybills with stripped bins, in line order; the bulk parse gives at most 1000 |
| Schemas.NoValidUnreachable | app/models/schemas.py:158-159 | "No valid tracking numbers found" is never raised, because text that is not blank has a non-blank line |
| Schemas.LineErrorsOnly | app/models/schemas.py:148-149 | the only errors of the lines are line errors |
| Schemas.ParseFormatted | app/models/schemas.py:131-172 | distinct clean pairs written as text parse back to the same pairs, in order |
| Schemas.BulkAgreesWithExport | app/models/schemas.py:234-278 | the two text parsers agree except that the bulk one refuses empty text and more than 1000 records, counted before de-duplication |
| FileProcessor.InvalidTypeMessageLists | app/core/file_processor.py:65-69 | the type error lists the allowed extensions, comma-separated |
| FileProcessor.SavedSuffix | app/core/file_processor.py:46-49 | the saved file keeps the upload's suffix |
| FileProcessor.ValidateFileType | app/core/file_processor.py:62-69 | a file passes the type check exactly when its name ends, ignoring case, in ".csv", ".xlsx" or ".xls" after at least one character |
| FileProcessor.AllowedSuffixIff | app/core/file_processor.py:64-65 | the lower-cased `Path.suffix` is allowed exactly when the base name ends in ".csv", ".xlsx" or ".xls" after some character |
| FileProcessor.ValidateFileSize | app/core/file_processor.py:71-77 | a file of an accepted type passes exactly when its size is unknown or at most 10 MiB, and is otherwise refused as too large |
| FileProcessor.FirstMatch | app/core/file_processor.py:79-93 | a found position is a column of the sheet |
| FileProcessor.FirstMatchIsFirst | app/core/file_processor.py:79-93 | the column found is the first that names the kind, and none is found exactly when no header names it |
| FileProcessor.FindColumn | app/core/file_processor.py:79-93 | the search loop finds the first naming column |
| FileProcessor.BinHeaderExample | app/core/file_processor.py:91 | headers compare ignoring case and surrounding spaces: " Bin ID" names the bin column |
| FileProcessor.ChooseColumnsFacts | app/core/file_processor.py:121-137 | columns are chosen exactly when there is a column; a naming header wins over the positional fallback; no bin column only when the second column is missing, is the waybill column, or is unnamed |
| FileProcessor.PositionalColumns | app/core/file_processor.py:124-137 | without naming headers, two distinct non-empty headers are read as waybill then bin |
| FileProcessor.StripAll | app/core/file_processor.py:140 | each cell is stripped, keeping the column's length |
| FileProcessor.BinCells | app/core/file_processor.py:143-147 | one bin entry per row |
| FileProcessor.SelectColumns | app/core/file_processor.py:121-137 | computes the column choice |
| FileProcessor.ZipRows | app/core/file_processor.py:150-159 | the zip loop computes the cleaned rows |
| FileProcessor.CleanRowsAppend | app/core/file_processor.py:150-159 | rows are cleaned one by one, in order |
| FileProcessor.CleanRowsOne | app/core/file_processor.py:153-159 | a row is kept exactly when its waybill is present ('nan', 'none' and empty are not) |
| FileProcessor.CleanRowsSound | app/core/file_processor.py:150-159 | kept waybills are upper-cased and non-empty, kept bins are present, never more pairs than rows |
| FileProcessor.CleanRowsAllPresent | app/core/file_processor.py:150-159 | when every waybill is present, every row is kept in order |
| FileProcessor.Extract | app/core/file_processor.py:95-166 | the extractor computes the extraction, or its error |
| FileProcessor.ExtractNoColumns | app/core/file_processor.py:125-127 | a sheet without columns is refused under the extractor's own name |
| FileProcessor.ExtractSound | app/core/file_processor.py:139-159 | an extraction gives at most one pair per row, each upper-cased and non-empty |
| FileProcessor.ProcessFile | app/core/file_processor.py:238-276 | the method computes `process_file`'s outcome, for every check, save and read outcome |
| FileProcessor.ProcessFileDispatch | app/core/file_processor.py:250-258 | a file that passed the check goes to the extractor of its suffix; "Unsupported file type" is never reached |
| FileProcessor.AcceptedExtracts | app/core/file_processor.py:251-256 | an accepted file went through the extractor its saved suffix picks |
| FileProcessor.FinishSound | app/core/file_processor.py:260-268 | de-duplicating leaves distinct waybills in their original order, still upper-cased and non-empty |
| FileProcessor.ProcessFileSound | app/core/file_processor.py:238-268 | an accepted file gives distinct, upper-cased, non-empty waybills, drawn from its extraction in row order |
| DhlService.AsPatch | app/core/batch_processor.py:151-156 | the dictionary upserted carries the result's number, bin and success flag, and the batch id only for a success in a pass that sets it |
| DhlService.ExtractLocation | app/core/dhl_services.py:206-222 | never empty; "Unknown" exactly when the address is missing, has neither part, or its one part reads "Unknown" |
| DhlService.ExtractLocationCases | app/core/dhl_services.py:213-220 | "city, country" with both, the city alone, the country alone, else "Unknown" |
| DhlService.ParseTrackingResponse | app/core/dhl_services.py:140-204 | the result echoes the number and the bin asked for |
| DhlService.ParseTrackingResponseFacts | app/core/dhl_services.py:159-195 | a success exactly when the first shipment can be read; no shipments gives "No shipment data found"; at most the first five events, in order; default status "unknown"/"Unknown"; locations as `_extract_location` renders them |
| DhlService.TrackOutcome | app/core/dhl_services.py:58-96 | the lookup always yields a result echoing the number and the bin |
| DhlService.TrackOutcomeFacts | app/core/dhl_services.py:64-96 | a success only for a parsable 200; 404 gives "Tracking number not found"; any other status gives its refusal message; a timeout gives "Request timeout"; a transport error gives its message |
| DhlService.Outcomes | app/core/dhl_services.py:118-133 | one result per item |
| DhlService.OutcomesAppend | app/core/dhl_services.py:118-133 | two consecutive batches give the results of one batch of both |
| DhlService.OutcomesAt | app/core/dhl_services.py:118-133 | item i is looked up after the requests for the items before it |
| DhlService.TrackSingleEchoes | app/core/dhl_services.py:68-95 | every result echoes the number and bin whatever the response |
| DhlService.OutcomesEcho | app/core/dhl_services.py:118-133 | the result at each position answers the item at that position |
| DhlService.BatchTraceUnfold | app/core/dhl_services.py:118-136 | a batch bigger than a chunk: the first chunk's requests, a pause, then the rest |
| DhlService.BatchTraceSmall | app/core/dhl_services.py:118-136 | a batch no bigger than a chunk makes its requests and no pause |
| DhlService.BatchTraceChunk | app/core/dhl_services.py:118-136 | the trace is the first chunk, a pause only when more follows, and the rest |
| DhlService.BatchTraceRequests | app/core/dhl_services.py:118-136 | the requests of a batch are its waybills, in order |
| DhlService.BatchTraceSleepCount | app/core/dhl_services.py:135-136 | a batch of n > 0 items pauses ceil(n/size) - 1 times |
| DhlService.BatchTraceSleepsAre | app/core/dhl_services.py:135-136 | every pause lasts the given delay |
| DhlService.BatchTraceEndsWithRequest | app/core/dhl_services.py:135-136 | a batch never ends with a pause |
| DhlService.DhlApiService.TrackSingle | app/core/dhl_services.py:45-96 | one request, and the result of its response |
| Runtime.Environment.Get | app/core/dhl_services.py:62 | one request: the oracle's answer for this waybill's next attempt, recorded as a call and in the trace |
| Runtime.Environment.Sleep | app/core/dhl_services.py:136 | a pause is recorded in the trace and makes no request |
| DhlService.DhlApiService.TrackChunk | app/core/dhl_services.py:122-133 | the chunk's lookups, one request each, in order |
| DhlService.DhlApiService.TrackBatch | app/core/dhl_services.py:98-138 | one result per item, its requests in order, pauses only between chunks |
| BatchProcessor.SuccessPatches | app/core/batch_processor.py:151-156 | the dictionaries upserted all carry a number |
| BatchProcessor.PartitionSizes | app/core/batch_processor.py:147-161 | each result is exactly one success or one failure |
| BatchProcessor.FlagsCounts | app/core/batch_processor.py:147-161 | a usage call per success, and per failure only when the pass counts failures |
| BatchProcessor.SuccessesSound | app/core/batch_processor.py:147-161 | the successes are tracked results from the pass |
| BatchProcessor.SuccessPatchKeys | app/core/batch_processor.py:151-156 | each success is upserted under its own number |
| BatchProcessor.FirstPassTally | app/core/batch_processor.py:137-165 | the first pass keeps the table keyed |
| BatchProcessor.RetryStep | app/core/batch_processor.py:49-106 | a retry round keeps the table keyed |
| BatchProcessor.Rounds | app/core/batch_processor.py:174-205 | the retry rounds keep the table keyed |
| BatchProcessor.TerminalPatch | app/core/batch_processor.py:212-219 | the failure record carries a number |
| BatchProcessor.TerminalPatches | app/core/batch_processor.py:210-221 | one failure record per waybill still failing, in order |
| BatchProcessor.MultiRetry | app/core/batch_processor.py:108-231 | the whole run keeps the table keyed |
| BatchProcessor.TrackingNumbers | app/core/batch_processor.py:312-315 | the numbers of the successes, in order |
| BatchProcessor.RetryStepIdle | app/core/batch_processor.py:70-71 | with nothing failing, a round changes nothing |
| BatchProcessor.RetryStepFields | app/core/batch_processor.py:73-106 | a round that runs sleeps `10 + 5*(k-1)` s, looks every failing waybill up again, counts every outcome, and keeps the new failures |
| BatchProcessor.RoundsIdle | app/core/batch_processor.py:174-176 | once nothing fails, later rounds change nothing |
| BatchProcessor.RoundsDone | app/core/batch_processor.py:174-203 | the loop that stops early ends in the state of all five rounds |
| BatchProcessor.BatchProcessor.Absorb | app/core/batch_processor.py:147-161 | a success is upserted and counted; a failure is counted only when the pass counts failures |
| BatchProcessor.BatchProcessor.AbsorbAll | app/core/batch_processor.py:147-161 | the result loop absorbs every result, in order |
| BatchProcessor.BatchProcessor.FirstPassChunk | app/core/batch_processor.py:137-165 | one chunk: its lookups, its successes recorded, the pause when more follows |
| BatchProcessor.BatchProcessor.LookupChunk | app/core/batch_processor.py:144 | the chunk's results and requests |
| BatchProcessor.BatchProcessor.PauseAfterChunk | app/core/batch_processor.py:163-165 | 7 s exactly when a chunk follows |
| BatchProcessor.BatchProcessor.FirstPass | app/core/batch_processor.py:130-165 | the first pass's requests, trace, table, usage and counts are those of `FirstPassTally` |
| BatchProcessor.BatchProcessor.RetryFailedWaybills | app/core/batch_processor.py:49-106 | nothing failing: no sleep, no request, no change; otherwise the back-off, one batch of the failing waybills, every outcome recorded, successes upserted without the batch id |
| BatchProcessor.BatchProcessor.RetryRound | app/core/batch_processor.py:183-195 | the state after one more round is that of `Rounds` |
| BatchProcessor.BatchProcessor.RetryRounds | app/core/batch_processor.py:172-205 | the state after the loop is that of all five rounds |
| BatchProcessor.BatchProcessor.RecordTerminalFailures | app/core/batch_processor.py:207-221 | one failure record upserted per waybill still failing |
| BatchProcessor.BatchProcessor.ProcessWithMultiRetry | app/core/batch_processor.py:108-231 | requests, trace, table, usage and the returned dictionary are those of `MultiRetry` |
| BatchProcessor.BatchProcessor.ReadBack | app/core/batch_processor.py:312-316 | the stored rows of the numbers, without the misses |
| BatchProcessor.BatchProcessor.SplitCached | app/core/batch_processor.py:285-302 | the table, the cached numbers and the pending items are those of `Classify` |
| BatchProcessor.BatchProcessor.ClassifyOne | app/core/batch_processor.py:288-302 | one item of the split |
| BatchProcessor.BatchProcessor.ExistingRecords | app/core/batch_processor.py:281-283 | the stored rows of the batch's waybills, by number |
| BatchProcessor.BatchProcessor.ProcessWithinQuota | app/core/batch_processor.py:280-324 | result, table, usage, requests and trace are those of `ProcessData` |
| BatchProcessor.BatchProcessor.ProcessBatch | app/core/batch_processor.py:233-344 | result, table, usage, requests and trace are those of `ProcessBatchSpec` |
| BatchProcessor.BatchProcessor.ProcessLargeBatch | app/core/batch_processor.py:346-376 | the same run as `process_batch` |
| BatchProperties.FreshNow | app/core/batch_processor.py:296 | a record just updated is fresh |
| BatchProperties.ClassifyStepBin | app/core/batch_processor.py:289-300 | the bin is filled in only when the item brings one and the record has none, and such a record is then answered from the cache; otherwise the record is untouched and cached exactly when fresh |
| BatchProperties.ClassifySplit | app/core/batch_processor.py:285-302 | every item is either answered from the cache or looked up; cached numbers are fresh stored records; looked-up items come from the batch, and every unstored waybill is among them; the table keeps its keys and stays keyed |
| BatchProperties.ClassifyEmpty | app/core/batch_processor.py:301-302 | with an empty table every item is looked up |
| BatchProperties.MultiRetryAccounting | app/core/batch_processor.py:130-231 | every waybill ends a success or a failure; the API calls reported are the requests made; every success was counted and upserted; first-pass failures are the only requests without a usage call |
| BatchProperties.FirstPassConserved | app/core/batch_processor.py:137-165 | after the first pass every waybill is one success or one failure, requests and API calls agree, and every success is counted once and upserted |
| BatchProperties.RetryStepConserved | app/core/batch_processor.py:73-106 | a retry round keeps that bookkeeping |
| BatchProperties.RoundsConserved | app/core/batch_processor.py:172-205 | every number of rounds keeps it |
| BatchProperties.RunUsage | app/core/batch_processor.py:145-195 | the usage added is the API calls made minus the first-pass failures |
| BatchProperties.NoRetriesWithoutFailures | app/core/batch_processor.py:168 | without first-pass failures there is no retry round and no failure record |
| BatchProperties.RoundsAllFail | app/core/batch_processor.py:174-205 | waybills that always fail are still failing after every round, and k rounds add k requests per waybill |
| BatchProperties.OutcomesAllFail | app/core/dhl_services.py:118-133 | when no lookup succeeds, the batch's failures are all of its items, in order |
| BatchProperties.TerminalStep | app/core/batch_processor.py:210-219 | one failure record stores the waybill as failed, with the message, batch id, time and bin; other rows are untouched |
| BatchProperties.TerminalRecords | app/core/batch_processor.py:207-221 | every waybill still failing ends stored as a terminal failure |
| BatchProperties.TerminatedStep | app/core/batch_processor.py:210-219 | one more failure record keeps every earlier waybill stored as a terminal failure, with its last bin |
| BatchProperties.ReReadComplete | app/core/batch_processor.py:312-316 | re-reading stored numbers finds each, in order |
| BatchProperties.ProcessDataTotals | app/core/batch_processor.py:304-324 | every item is counted once as a success or a failure; the API calls reported are the requests made; no error |
| BatchProperties.QuotaExhausted | app/core/batch_processor.py:267-273 | with no quota left, every item is reported failed with "Daily API limit reached"; nothing is looked up or stored |
| BatchProperties.WithinQuota | app/core/batch_processor.py:275-278 | only the first `remaining` items are processed and reported; the excess is not counted as failed |
| BatchProperties.QuotaOverspend | app/core/batch_processor.py:168-205 | a batch filling the remaining quota, all failing, makes six requests per waybill |
| TrackingApi.AnswerFromCache | app/api/V1/tracking.py:94-98 | the cached record, with the given bin written when it differs; nothing else changes |
| TrackingApi.FetchAndStore | app/api/V1/tracking.py:100-104 | one request, its upsert, one usage call with its success flag |
| TrackingApi.TrackValid | app/api/V1/tracking.py:80-104 | reply, table, usage and requests are those of the quota, then cache, then lookup decision |
| TrackingApi.IsCached | app/api/V1/tracking.py:89-93 | true exactly when the number is stored and was checked within the hour |
| TrackingApi.TrackSingleShipment | app/api/V1/tracking.py:71-110 | reply, table, usage and requests are those of `TrackSingleSpec` |
| TrackingApi.SingleValidation | app/api/V1/tracking.py:72-78 | a 400 exactly for a number shorter than five once stripped, with no request or change |
| TrackingApi.SingleQuotaBeforeCache | app/api/V1/tracking.py:83-98 | with no quota left a 429 comes even for a fresh stored record, with no request |
| TrackingApi.SingleCacheHit | app/api/V1/tracking.py:89-98 | a fresh record is answered with no request and no count; only its bin changes |
| TrackingApi.SingleMiss | app/api/V1/tracking.py:100-104 | one request; the answer is stored under the number with the given bin; one usage call with the outcome |
| TrackingApi.BulkResponseOf | app/api/V1/tracking.py:157-164 | the response reports the batch's counts, results and id |
| TrackingApi.UploadBatchIdLost | app/api/V1/tracking.py:217 | the upload response as written never has the batch id |
| TrackingApi.BulkAsWrittenNeverTracks | app/api/V1/tracking.py:142 | /bulk as written always fails, with a 500 for valid text, where the intended route replies whenever quota remains |
| TrackingApi.QuotaGateBlocks | app/api/V1/tracking.py:144-149 | with no quota a 429 comes, with no request and no table change |
| TrackingApi.QuotaGatePasses | app/api/V1/tracking.py:151-164 | otherwise the reply carries the batch's counts and id, for the waybills the quota admits |
| TrackingApi.QuotaGated | app/api/V1/tracking.py:144-164 | the gate and batch computed by `QuotaGatedSpec` |
| TrackingApi.TrackBulk | app/api/V1/tracking.py:137-170 | the /bulk run of `BulkRouteSpec` |
| TrackingApi.UploadAndTrack | app/api/V1/tracking.py:188-225 | the /upload run of `UploadFrom` for the processed file |
| TrackingApi.TrackProcessed | app/api/V1/tracking.py:191-219 | the same for a given `process_file` outcome |
| TrackingApi.UploadRejectsBadFile | app/api/V1/tracking.py:188-222 | a refused file is answered with the check's error, and nothing is tracked |
| TrackingApi.UploadAnsweredOnlyWithData | app/api/V1/tracking.py:191-192 | a reply only for a file with at least one waybill, carrying the batch id |
| TrackingApi.ExportAsWrittenNeverExports | app/api/V1/tracking.py:256 | the export as written never makes a report: a 500 for valid text |
| TrackingApi.BinWrites | app/api/V1/tracking.py:272-273 | writing a bin sets it and keeps the number; a second write replaces the first |
| TrackingApi.MergeBinsKeys | app/api/V1/tracking.py:267-273 | the merge adds and removes no row, and keeps the table keyed |
| TrackingApi.MergeBinsWritten | app/api/V1/tracking.py:268-273 | a record ends with the last bin given for it, or its own |
| TrackingApi.MergeBinsUntouched | app/api/V1/tracking.py:268-273 | a record given no different bin is left exactly as it was |
| TrackingApi.MergeOne | app/api/V1/tracking.py:268-273 | one turn of the merge loop |
| TrackingApi.MergeLoop | app/api/V1/tracking.py:267-273 | the loop's table is `MergeBins` of the old one |
| TrackingApi.MergeFetched | app/api/V1/tracking.py:267-273 | the bins merged, and the records as they then stand |
| TrackingApi.FetchedNone | app/api/V1/tracking.py:261-264 | nothing is fetched exactly when the table has none of the numbers |
| TrackingApi.RecordsDict | app/api/V1/tracking.py:267 | a number is a key exactly when some record carries it |
| TrackingApi.RecordsDictFacts | app/api/V1/tracking.py:267 | the dictionary shows current rows, for exactly the numbers the table has |
| TrackingApi.MakeReport | app/api/V1/tracking.py:276-299 | the report of the records and the reply that points at it |
| TrackingApi.ExportParsed | app/api/V1/tracking.py:259-299 | a 404 with no change when nothing is stored; otherwise bins merged, then a 500 for a render error or the report of the merged records |
| TrackingApi.ExportTrackingData | app/api/V1/tracking.py:251-305 | a 422 for a refused text; otherwise as `ExportParsed` |
| TrackingApi.ReportNameSafe | app/core/export_services.py:59-63 | a report name is a safe download name |
| TrackingApi.ExportLinkServesReport | app/api/V1/tracking.py:291-297 | the link handed out downloads that very report, with its format's media type |
| TrackingApi.ReportMediaType | app/api/V1/tracking.py:384-389 | a report is served as PDF or Word by its format |
| TrackingApi.MediaTypeByEnding | app/api/V1/tracking.py:384-389 | ".pdf" names are PDF, other ".docx" names are Word, and exactly the rest are octet-stream |
| TrackingApi.DownloadStaysInExportDir | app/api/V1/tracking.py:373-382 | a 400 exactly for names with '..', '/' or '\\'; a served file lies directly in the export directory |
| TrackingApi.GetTrackingHistory | app/api/V1/tracking.py:446-455 | the stored record of the upper-cased number, or a 404 |
| TrackingApi.HistoryAfterSingle | app/api/V1/tracking.py:449 | a number the single route answered is found by the history route |
| ExportService.OrNA | app/core/export_services.py:119-122 | 'N/A' exactly for an empty value (or one that reads 'N/A'), never empty |
| ExportService.Header | app/core/export_services.py:105-131 | six columns in detail, four otherwise, from "Tracking #" to "Last Event Date" |
| ExportService.TableData | app/core/export_services.py:104-140 | the header, then one row per record in order |
| ExportService.RowShape | app/core/export_services.py:115-140 | each row is as wide as the header, starts with the number, ends with the last-event date |
| ExportService.RowCells | app/core/export_services.py:117-124 | a bin, status, origin or destination cell is 'N/A' exactly when the record has no such value |
| ExportService.SimpleIsDetailedProjected | app/core/export_services.py:125-140 | the simple table is the detailed one without origin and destination |
| ExportService.LastEventDateFromEvents | app/core/export_services.py:40-48 | the first event's timestamp wins |
| ExportService.LastEventDateFallback | app/core/export_services.py:50-53 | otherwise `last_checked`, and 'N/A' only when never checked |
| ExportService.LastEventDateAfterUpdate | app/core/export_services.py:50-51 | after an update that leaves no events the report shows the update's time |

## Left out

- HTTP transport: the httpx client is the `transport` oracle, and `test_connection` is not modelled.
- Concurrency: `asyncio.gather` is modelled as lookups one after the other. Sleeps are trace events that do not advance the clock.
- SQLAlchemy sessions, commits and refreshes: these are in-memory maps. `app/Models/database.py` declares no `bin_id` column, although the code writes one; the model has the field.
- Floating point: `calculate_estimated_time`, `processing_time`, the usage percentage and the file-size text in messages.
- `generate_batch_id` depends on uuid and the clock, so the batch id is a parameter.
- Clock text: `strftime` stamps (`stamp`, `fileStamp`) and `date.today()` (`today`) are parameters.
- pandas reading is not modelled. A sheet is a header list plus cell columns already read as text, and a read failure is a `read` parameter. Saving and deleting the upload are not modelled either; a save failure is a `saveError` parameter.
- Report rendering: reportlab and python-docx drawing are not modelled, only the table; a drawing failure is a `renderError` parameter. `export_repo.create`, `cleanup_old_exports` and the other export, usage and latest-download routes are not part of this model.
- Pydantic field errors: a refused body is a 422 carrying the validator's message. The error body's layout is not modelled.
- `get_by_batch_id`, `get_recent`, `count_all` and `get_usage_stats` are read-only queries nothing in the core uses, so they are not modelled.
- `Common.Upper`, `Common.Lower`: map ASCII letters only. Python's Unicode case mapping is not modelled.
- `Repositories.TrackingRepository.GetMultiple`: the SQL query fixes no order. The model returns rows in the order their numbers are first requested, and its contract states no order.
- `DhlService.DhlApiService.TrackBatch`: the exception-dropping branch of `track_batch` is modelled as never taken, because `track_single` catches every exception.
- `app/core/dhl-services.py`, `app/config.py`, `app/Automation/`, `app/utils/email_sender.py`, `app/utils/dependencies.py`, `app/main.py`, `run.py`, `app/api/V1/export.py` and the `data/` scripts are not part of this model. They are dead, broken or plumbing code.

## Findings

| source | as written | input that shows it | evidently intended | confidence | as-written member | corrected member |
|---|---|---|---|---|---|---|
| app/api/V1/tracking.py:142 | /bulk reads `request.tracking_data`, a field `PlainTextBulkRequest` does not declare; the `AttributeError` becomes a 500 | any valid body, e.g. `"1234567890,BIN001"` | track the pairs the validator left in `tracking_numbers_text` | not executed | TrackingApi.BulkAsWritten (TrackingApi.BulkAsWrittenNeverTracks) | TrackingApi.TrackBulk |
| app/api/V1/tracking.py:256 | /export reads `request.tracking_data`, a field `PlainTextExportRequest` does not declare; the export always fails with a 500 | any valid body, e.g. `"1234567890"` | export the parsed pairs | not executed | TrackingApi.ExportAsWritten (TrackingApi.ExportAsWrittenNeverExports) | TrackingApi.ExportTrackingData |
| app/api/V1/tracking.py:217 | the upload response takes `results.get("batch_ids", [None])[0]`, a key `process_batch` never returns, so the batch id is always null | any upload that reaches the batch processor | report `results["batch_id"]`, as /bulk does at line 162 | not executed | TrackingApi.UploadResponseAsWritten (TrackingApi.UploadBatchIdLost) | TrackingApi.BulkResponseOf (used by TrackingApi.UploadAndTrack) |
