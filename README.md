# rpa-insights-backend: the UiPath synchronisation engine and the dashboard result shaping

This project models two parts of the backend in Dafny and proves properties of them.

The first is the `UiPathClient` of `uipath_etl/client.py`. It reads its configuration from the
newest `uipath_configuration` row and authenticates with the UiPath identity server. It then
lists the Orchestrator folders. For each folder it fetches queue items or jobs, transforms
them into database rows and upserts them into the `queue_items` or `jobs` table. Three run
modes do this: `run_etl`, `run_update_job` and `run_jobs_etl`.

The second is the Python post-processing of three dashboard services:
`DashboardOpsService`, `DashboardJobsService` and `DashboardSlaService`. It turns the rows the
SQL queries return into the dictionaries the API serves:
- snapshots bucketed by status and by state;
- aligned trend lists;
- percentages guarded against a zero total;
- failure reasons;
- annotated rows.

Modules, one per file:

| file | module | what it holds |
|---|---|---|
| wrappers.dfy | Wrappers | `Option` and `Result` |
| digits.dfy | Digits | decimal text of numbers, zero-padded and plain, and reading it back |
| json.dfy | Json | upstream JSON values, `record.get`, Python truthiness, `str`, and `json.dumps` as an injected codec |
| timestamps.dfy | Timestamps | `parse_dt`, `clean_date`, and `str(timedelta)` with its fraction cut off |
| transform.dfy | Transform | `transform_data` and `transform_jobs`, both as functions and as the append loops |
| persister.dfy | Persister | `insert_data` and `insert_jobs` as upserts on a table that maps an id to a row |
| client.dfy | Client | classes `Database`, `IdSource` and `UiPathClient` with the run modes, oracles for HTTP, and the per-folder loop as a function |
| rates.dfy | Percent | the guarded percentage `part / whole * 100` as an exact rational |
| dashboard_ops.dfy | DashboardOps | volume snapshot, trend analysis, status distribution, default date range |
| dashboard_jobs.dfy | DashboardJobs | jobs snapshot, distribution, reliability, failure reasons, risk flags, recent failed jobs |
| dashboard_sla.dfy | DashboardSla | SLA compliance, exception analysis, retry metrics, failures by queue, recent failures, top reasons, failure trend |

How the model is shaped:
- **State.** The client's configuration fields, token and connection are fields of class
  `UiPathClient`. The two tables are `map` fields of class `Database`, which the insert
  methods reassign. `Database` also holds the configuration history that `load_config` reads.
- **HTTP.** Each `requests` call is a function in `Upstream`. It returns `None` when the call
  raised.
- **Failing writes.** A failed INSERT statement is an oracle that names the table it left
  behind.
- **`uuid4`.** The k-th call returns `uuid(k)`. `IdSource.drawn` counts the calls made so far. A
  batch that raises has still called it once for every job up to and including the faulty one.
- **Dashboards.** The result rows of each query are inputs.
- **Loops.** Every loop of the source is a `method` with a loop that is proved against a
  function. The properties are lemmas about those functions.

Where the code does something its names or docstrings do not suggest, the model follows the code:
- A run returns `{"value": rows}` or `None`. It does not return counts of fetched and stored
  records. The two record counts of `run_etl` are only logged.
- The "incremental" update sends the same request as the full run (client.py:173-211). So one
  oracle serves both `get_queue_items` and `get_filtered_queue_items`.
- A truthy timestamp field that is not a string does not degrade gracefully. `clean_date` and
  `parse_dt` raise `AttributeError`, and nothing catches it. The run raises, which the model
  writes as `Raised(BadTimestamp(..))`.
- The docstrings of the three `_get_date_range` helpers say "last 24h". The operational
  dashboard's helper starts at 2000-01-01 instead.

## Model

All source paths are relative to the repository root.

| member | source | states |
|---|---|---|
| Timestamps.ReplaceZ | uipath_etl/client.py:266 | `replace("Z", "+00:00")` leaves no 'Z', and it is the identity on text without one |
| Timestamps.ParseIso | uipath_etl/client.py:266 | a successful `fromisoformat` yields a datetime within the ranges `datetime` enforces, whose year, month, day, hour, minute and second are the numbers at the fixed positions of a YYYY-MM-DD?HH:MM:SS prefix |
| Timestamps.ParseIsoParts | uipath_etl/client.py:266 | accepting direction: the layout, then an optional `.` and digits, then nothing or a `±HH:MM` offset, parses exactly when the fields are in range, to those fields with the fraction's microseconds (0 without a fraction), whatever the offset |
| Timestamps.ParseIsoOnlyParts | uipath_etl/client.py:266 | rejecting direction: any text that parses is the layout, an optional `.` and digits and an optional offset, and nothing else |
| Timestamps.UtcFormParses | uipath_etl/client.py:264-268 | text with a fraction and a trailing `Z`, after the `Z` is replaced, parses to the fields as written |
| Timestamps.UpstreamExampleParses | uipath_etl/client.py:237 | `2025-11-18T14:00:44.18Z` reads as 2025-11-18 14:00:44.180000 |
| Timestamps.CleanText | uipath_etl/client.py:267 | `strftime('%Y-%m-%d %H:%M:%S.%f')` is always 26 characters long |
| Timestamps.CleanTextRoundTrip | uipath_etl/client.py:260-269 | the stored text has the fixed layout YYYY-MM-DD HH:MM:SS.ffffff (six fractional digits) and parses back to the same datetime |
| Timestamps.ParseDt | uipath_etl/client.py:271-280 | falsy input gives None; a string gives its parse, or None when malformed, without raising; a truthy non-string raises AttributeError, and nothing else does |
| Timestamps.CleanDate | uipath_etl/client.py:260-269 | raises exactly when `parse_dt` does; gives text exactly when `parse_dt` gives a datetime, and that text has the stored layout and reads back as the same datetime |
| Timestamps.BeforeFirstDot | uipath_etl/client.py:303 | `split('.')[0]` is a dot-free prefix, and text without a dot is unchanged |
| Timestamps.NoDotInDuration | uipath_etl/client.py:303 | the whole-second text of a timedelta ("H:MM:SS", or "D day(s), H:MM:SS") never contains a dot |
| Timestamps.TruncatedTimedelta | uipath_etl/client.py:299-309 | cutting `str(timedelta)` at the first dot gives the text of the whole seconds, rounded down (floor), also for negative deltas |
| Timestamps.Elapsed | uipath_etl/client.py:299-309 | a derived duration is the text of the whole seconds between the two wall-clock readings; the offsets do not enter it, since `ParseIsoParts` gives the same fields whatever the offset |
| Timestamps.Truncated | uipath_etl/client.py:303 | `str(timedelta(microseconds=us)).split('.')[0]` is the text of `floor(us / 10^6)` seconds |
| Transform.Duration | uipath_etl/client.py:297-309 | a duration is present exactly when both of its timestamps parsed, and it is then their elapsed text |
| Transform.DurationOfCleaned | uipath_etl/client.py:297-328 | a derived duration agrees with the two stored timestamp columns it spans |
| Transform.MakeRow | uipath_etl/client.py:311-328 | the row copies `Id` into `id` and takes the `folder_id` argument; it stores the cleaned timestamps; `run_duration` spans start→end and `waiting_duration` spans creation→start |
| Transform.TransformItem | uipath_etl/client.py:284-329 | one item raises exactly when a timestamp field is truthy but not a string; otherwise id, folder_id, both durations (null rules included) and their agreement with the stored columns |
| Transform.TransformItemColumns | uipath_etl/client.py:311-328 | of a transformed item, the eight copied columns are the item's own fields unchanged, and the four timestamp columns are what `clean_date` makes of the item's fields |
| Transform.BatchSpec | uipath_etl/client.py:284-330 | the append loop raises exactly when some record raises, with the first record's error; otherwise one result per record, in order |
| Transform.BatchFailureSticks | uipath_etl/client.py:284-330 | once a prefix of the records raises, the whole loop raises with the same error |
| Transform.BatchStep | uipath_etl/client.py:284-330 | one more record extends the result by its own value, or ends the loop with its error |
| Transform.TransformAll | uipath_etl/client.py:282-330 | same length and order as the input; every row has `folder_id` equal to the argument and `id` equal to the item's `Id`, and agrees with its timestamps; raises exactly when some item is faulty |
| Transform.TransformData | uipath_etl/client.py:282-330 | the append loop computes `TransformAll` |
| Transform.ToIntBool | uipath_etl/client.py:340-342 | None and falsy give 0, truthy gives 1 |
| Transform.ToJson | uipath_etl/client.py:345-346 | None stays None; anything else is `json.dumps` of it |
| Transform.Cell | uipath_etl/client.py:349-411 | each dictionary entry: a fresh id, a copied field, a 0/1 flag (1 iff truthy), a JSON column (null iff absent), or a date column (null iff unparsable, else stored layout that reads back) |
| Transform.DateColumns | uipath_etl/client.py:353-398 | exactly five entries go through `clean_date`: start_time, end_time, creation_time, resume_time, last_modification_time |
| Transform.CellsDefined | uipath_etl/client.py:349-411 | for a job that is not faulty, every entry of the dictionary evaluates without raising |
| Transform.TransformJob | uipath_etl/client.py:348-413 | a job raises exactly when one of its five date fields is truthy but not a string; otherwise column 0 is the drawn uuid |
| Transform.JobFirstFault | uipath_etl/client.py:348-411 | a raising job raises with `clean_date`'s error on its first faulty date entry in dictionary order |
| Transform.JobRowCells | uipath_etl/client.py:348-411 | column i of a job row is entry i of the dictionary evaluated on the job |
| Transform.JobRowDates | uipath_etl/client.py:353-398 | a date column is null exactly when its field parses to None; otherwise it has the stored layout and reads back |
| Transform.JobRowColumns | uipath_etl/client.py:350-408 | `folder_id` and `organization_unit_id` both copy OrganizationUnitId; boolean columns are 0 or 1; JSON columns are null exactly when the field is absent or null |
| Transform.TransformJobsAll | uipath_etl/client.py:334-414 | a successful batch has one row per job |
| Transform.JobBatchRows | uipath_etl/client.py:336-413 | row i of a batch is job i transformed with the id of `uuid4` draw `first + i` |
| Transform.FreshJobIds | uipath_etl/client.py:349 | each job gets its own draw of `uuid4`; when draws never repeat, the ids within a batch are pairwise distinct |
| Transform.EmptyBatches | uipath_etl/client.py:282-414 | an empty batch transforms to no rows and draws no id |
| Transform.JobBatchFails | uipath_etl/client.py:334-414 | a job batch raises exactly when one of its jobs has a faulty date field |
| Transform.TransformJobs | uipath_etl/client.py:334-414 | the append loop computes `TransformJobsAll`, and reports as `used` the number of `uuid4` calls it made, `Draws(jobs)` |
| Transform.DrawsFirstFault | uipath_etl/client.py:337-349 | a batch with no faulty job calls `uuid4` once per job; one that raises at job k has called it k + 1 times, the `"id"` entry being evaluated before the dates |
| Transform.DrawsOfSuccess | uipath_etl/client.py:337-349 | a batch that does not raise has drawn exactly one id per row |
| Persister.Merge | uipath_etl/client.py:447-452 | ON DUPLICATE KEY UPDATE takes `status`, `start_processing`, `end_processing`, `run_duration` and `waiting_duration` from the new row, and keeps every other column of the stored row |
| Persister.MergeAbsorbs | uipath_etl/client.py:447-452 | merging twice equals merging the later row, and merging a row into itself changes nothing |
| Persister.MergeConsistent | uipath_etl/client.py:447-452 | the update keeps `run_duration` in step with the stored start and end, and keeps both durations consistent when the creation time did not change |
| Persister.UpsertRow | uipath_etl/client.py:433-458 | a new id adds exactly one row; a stored id is merged and the size stays the same; other ids are untouched |
| Persister.UpsertAt | uipath_etl/client.py:433-458 | after a batch, each key holds: its stored row if the batch does not mention it; otherwise the first row with that id (if new) or the stored row, merged with the batch's last row with that id |
| Persister.UpsertKeys | uipath_etl/client.py:433-458 | the keys after a batch are the stored ids plus the batch's ids |
| Persister.UpsertIdempotent | uipath_etl/client.py:433-458 | re-upserting the same batch leaves the table unchanged |
| Persister.UpsertAppend | uipath_etl/client.py:523-528 | upserting folder by folder is upserting the concatenation of the folders' rows |
| Persister.UpsertKeepsFirstWritten | uipath_etl/client.py:447-452 | for a stored id, every column outside the allow-list keeps its first-written value through any batch |
| Persister.ColumnsAligned | uipath_etl/client.py:470-485 | the INSERT's column list names the keys of the `transform_jobs` dictionary, position by position |
| Persister.JobMergeColumns | uipath_etl/client.py:490-491 | a job update keeps the stored `id` and takes every other column from the new row |
| Persister.UpsertJob | uipath_etl/client.py:493 | a new job id adds one row; a stored id keeps the size |
| Persister.UpsertJobOthers | uipath_etl/client.py:493 | rows under other ids are untouched |
| Persister.UpsertJobReplaces | uipath_etl/client.py:493 | on a table whose rows are filed under their own ids, a row replaces the stored row with its id entirely |
| Persister.UpsertJobsWellFormed | uipath_etl/client.py:463-502 | a job batch keeps every row filed under its own id |
| Persister.UpsertJobsAppend | uipath_etl/client.py:599-603 | upserting job batches folder by folder is upserting their concatenation |
| Persister.JobsGrow | uipath_etl/client.py:349 | rows with new, pairwise distinct ids each add a row and leave the stored rows as they were, so a re-run inserts and does not update |
| Persister.JobKeys | uipath_etl/client.py:463-502 | the keys after a job batch are the stored ids plus the batch's ids |
| Client.MakeHeaders | uipath_etl/client.py:149-156 | the bearer token always; the folder header only for a truthy folder id, written with `str` |
| Client.FolderLoopPrefix | uipath_etl/client.py:519-529 | earlier folders' rows come first; once a prefix of the folders raises, the whole loop ends the same way |
| Client.FolderLoopStep | uipath_etl/client.py:519-529 | one more folder appends its rows, or ends the loop with its error and the rows of the earlier folders |
| Client.FolderLoopSkips | uipath_etl/client.py:525-526 | a folder that yields no rows can be dropped from the loop without changing the result |
| Client.FolderItems | uipath_etl/client.py:173-191 | a failed item fetch yields [] |
| Client.FolderJobs | uipath_etl/client.py:213-229 | a failed job fetch yields [] |
| Client.QueueSyncRows | uipath_etl/client.py:519-529 | every row a run writes agrees with its timestamps, and a run that finishes writes one row per fetched item |
| Client.SyncOutcome | uipath_etl/client.py:538-542 | the run finishes exactly when no folder raised, and then returns all the rows |
| Client.UiPathClient.constructor | uipath_etl/client.py:24-32 | every setting, the token and the connection start as None, so the gate is closed |
| Client.UiPathClient.LoadConfig | uipath_etl/client.py:67-91 | with a connection and a configuration row, the six fields come from the newest row; otherwise they are unchanged |
| Client.UiPathClient.ConnectDb | uipath_etl/client.py:34-65 | connected iff the server answers (or was connected); the settings are those `load_config` leaves |
| Client.UiPathClient.Authenticate | uipath_etl/client.py:127-147 | succeeds iff the token exchange answers, and then stores its token; a failure leaves the token unchanged |
| Client.UiPathClient.GetFolders | uipath_etl/client.py:158-169 | the folder listing with headers that have no folder id; None when the call raised |
| Client.UiPathClient.GetQueueItems | uipath_etl/client.py:173-211 | a failed call yields []; otherwise the `value` list fetched with the folder header |
| Client.UiPathClient.GetJobs | uipath_etl/client.py:213-229 | a failed call yields []; otherwise the `value` list fetched with the folder header |
| Client.UiPathClient.GetRecordCount | uipath_etl/client.py:416-428 | the number of stored queue items, or 0 without a connection or when the count fails |
| Client.UiPathClient.InsertData | uipath_etl/client.py:430-461 | no connection, or an empty batch, is a no-op; a successful statement upserts the batch; a failed one leaves what the fault oracle says |
| Client.UiPathClient.InsertJobs | uipath_etl/client.py:463-502 | the same, on the jobs table |
| Client.UiPathClient.SyncQueueFolder | uipath_etl/client.py:523-528 | one folder: fetch, transform, and upsert only when there are items (when the database is reachable and every write succeeds) |
| Client.UiPathClient.SyncQueueFolders | uipath_etl/client.py:519-529 | the folder loop returns `QueueSync` (per-folder rows concatenated in folder order), and the table ends as the upsert of all of them (when the database is reachable and every write succeeds) |
| Client.UiPathClient.RunEtl | uipath_etl/client.py:504-542 | the gate reads the settings held before `connect_db`: with one missing, None and no table change; otherwise the outcome is fixed by the loaded settings (authenticate, list folders, loop, with faults propagated), the token it ends with is the exchange's, and the table is the upsert of every batch written before the run returned or raised (when the database is reachable and every write succeeds) |
| Client.UiPathClient.RunEtlAfterConnect | uipath_etl/client.py:504-542 | the same run with the gate moved after `connect_db`, judged on the loaded settings: the same outcome, token and table (when the database is reachable and every write succeeds) |
| Client.UiPathClient.SyncQueue | uipath_etl/client.py:515-529 | authentication and folder-listing failures raise; otherwise the folder loop's outcome under the exchanged token, which the client keeps; the table gains the rows of every folder before a raise (when the database is reachable and every write succeeds) |
| Client.UiPathClient.RunUpdateJob | uipath_etl/client.py:544-575 | `run_etl` without the record counts: the same gate, result, token and table (when the database is reachable and every write succeeds) |
| Client.UiPathClient.RunJobsEtl | uipath_etl/client.py:577-608 | the same gate; past it, the jobs loop's outcome under the exchanged token, the jobs table as the upsert of every batch written before the run returned or raised, and `uuid4` advanced by the calls the loop made (when the database is reachable and every write succeeds) |
| Client.UiPathClient.SyncJobFolder | uipath_etl/client.py:594-602 | one folder of the jobs loop: fetch, transform with fresh ids, and upsert only when there are jobs; `used` is the folder's `Draws` (when the database is reachable and every write succeeds) |
| Client.UiPathClient.SyncJobFolders | uipath_etl/client.py:593-602 | the jobs loop returns `JobSync`, leaves the jobs table as the upsert of the rows it wrote, and makes `JobDraws` calls of `uuid4` (when the database is reachable and every write succeeds) |
| Client.FolderLoopLast | uipath_etl/client.py:593-602 | a finished loop has finished the loop over all but its last folder and appended the last folder's rows |
| Client.JobDrawsFinished | uipath_etl/client.py:593-602 | a finished jobs loop has called `uuid4` once per row it wrote |
| Client.JobDrawsPrefix | uipath_etl/client.py:593-602 | once a prefix of the folders raises, the jobs loop calls `uuid4` no more |
| Client.JobLoopStops | uipath_etl/client.py:593-602 | a jobs loop that raises in folder i returns the earlier folders' rows with folder i's error, having called `uuid4` for those rows and for folder i's jobs up to the faulty one |
| Client.FreshClientEtl | uipath_etl/client.py:504-511 | a freshly constructed client always stops at the gate and writes nothing |
| Client.FreshClientUpdateJob | uipath_etl/client.py:544-548 | the same for `run_update_job` |
| Client.FreshClientJobsEtl | uipath_etl/client.py:577-581 | the same for `run_jobs_etl`, which makes no `uuid4` call either |
| Client.FreshClientEtlAfterConnect | uipath_etl/client.py:504-511 | with the gate after `connect_db`, a fresh client runs iff the database answers and its newest configuration row is complete |
| Client.QueueFolderSkipped | uipath_etl/client.py:525-526 | a folder whose fetch raised or came back empty is skipped; the other folders' result is unchanged |
| Client.JobFolderSkipped | uipath_etl/client.py:601-602 | the same for the jobs loop: no ids drawn, later folders unaffected |
| Percent.Rate | uipath_etl/modules/dashboard_jobs/service.py:229 | 0 for a non-positive whole; otherwise `rate * whole == part * 100` |
| Percent.RateBounds | uipath_etl/modules/dashboard_jobs/service.py:229 | a part of a whole is between 0 and 100 percent, and the whole is 100 |
| Percent.RateAdditive | uipath_etl/modules/dashboard_jobs/service.py:83-88 | rates over one whole add up |
| DashboardOps.DateRange | uipath_etl/modules/dashboard_operational/service.py:18-24 | a given non-empty start and end are kept; a missing or empty start becomes '2000-01-01 00:00:00' and a missing or empty end becomes the clock |
| DashboardOps.DateRangeIdempotent | uipath_etl/modules/dashboard_operational/service.py:18-24 | a filled-in range is kept whatever the clock says |
| DashboardOps.StatusesOfRows | uipath_etl/modules/dashboard_operational/service.py:55-60 | the statuses given a key are exactly the normalised statuses of the rows |
| DashboardOps.LastCountIsLast | uipath_etl/modules/dashboard_operational/service.py:58-60 | a status's count is that of its last row ("InProgress" and "In Progress" count as one status): assigned, not added |
| DashboardOps.LastCountsBounded | uipath_etl/modules/dashboard_operational/service.py:55-63 | the counts of two distinct statuses never add up to more than the total |
| DashboardOps.VolumeSnapshot | uipath_etl/modules/dashboard_operational/service.py:48-63 | keys are the eight defaults plus every normalised status seen; "Total Queue Items" is the sum of all row counts; each other key holds its last row's count, or 0 |
| DashboardOps.LessIrreflexive | uipath_etl/modules/dashboard_operational/service.py:114 | Python's string order is irreflexive |
| DashboardOps.LessTransitive | uipath_etl/modules/dashboard_operational/service.py:114 | and transitive |
| DashboardOps.LessTotal | uipath_etl/modules/dashboard_operational/service.py:114 | and total on distinct strings |
| DashboardOps.Insert | uipath_etl/modules/dashboard_operational/service.py:114 | inserting into a strictly sorted list keeps it strictly sorted and adds exactly that element |
| DashboardOps.SortedSet | uipath_etl/modules/dashboard_operational/service.py:114 | `sorted(set(xs))` is strictly ascending and holds exactly the values of `xs` |
| DashboardOps.NoDuplicates | uipath_etl/modules/dashboard_operational/service.py:114 | a strictly sorted list holds each value once |
| DashboardOps.CountMap | uipath_etl/modules/dashboard_operational/service.py:111-112 | the dict comprehension's keys are exactly the rows' buckets |
| DashboardOps.CountMapLast | uipath_etl/modules/dashboard_operational/service.py:111-112 | a bucket's last row decides its count |
| DashboardOps.TrendBuckets | uipath_etl/modules/dashboard_operational/service.py:114 | the bucket list is strictly sorted and is the union of both maps' keys |
| DashboardOps.AlignBuckets | uipath_etl/modules/dashboard_operational/service.py:116-126 | three lists of the buckets' length, aligned bucket by bucket; a missing bucket counts 0; backlog is created minus completed, possibly negative |
| DashboardOps.TrendAnalysis | uipath_etl/modules/dashboard_operational/service.py:111-132 | the lists follow the sorted union of both queries' buckets, with counts from each query's map |
| DashboardOps.TrendCoversBuckets | uipath_etl/modules/dashboard_operational/service.py:114-122 | every bucket of either query appears exactly once; a bucket missing from one query reads 0 there |
| DashboardOps.Renamed | uipath_etl/modules/dashboard_operational/service.py:149-153 | "InProgress" is folded into "In Progress" (added); "Successful" moves to "Success"; no other key changes |
| DashboardOps.StatusDistribution | uipath_etl/modules/dashboard_operational/service.py:145-166 | None exactly for a missing or empty snapshot; otherwise exactly the five target keys, each the renamed count's share of the total; all 0 when the total is 0 |
| DashboardJobs.DateRange | uipath_etl/modules/dashboard_jobs/service.py:17-23 | given dates are kept; a missing start is the clock minus 24 hours and a missing end is the clock |
| DashboardJobs.Snapshot | uipath_etl/modules/dashboard_jobs/service.py:46-63 | `total_jobs` is the sum of all counts, unlisted states included; each listed state adds to its own bucket, with 'Faulted' under `failed` |
| DashboardJobs.BucketsWithinTotal | uipath_etl/modules/dashboard_jobs/service.py:51-63 | the five buckets sum to at most the total, and to exactly it when every row is in a listed state |
| DashboardJobs.PercentKeyInjective | uipath_etl/modules/dashboard_jobs/service.py:88 | distinct buckets give distinct `<state>_percent` keys |
| DashboardJobs.Distribution | uipath_etl/modules/dashboard_jobs/service.py:77-90 | None without a snapshot; otherwise exactly the five `<state>_percent` keys, each the bucket's share of `total_jobs`; all 0.0 when the total is 0 |
| DashboardJobs.DistributionWithinWhole | uipath_etl/modules/dashboard_jobs/service.py:80-90 | the five percentages of a computed snapshot add up to at most 100 |
| DashboardJobs.ReliabilityAsWritten | uipath_etl/modules/dashboard_jobs/service.py:227-234 | as written, the code raises exactly when the aggregate row has no job (`int(None)`) |
| DashboardJobs.ReliabilityRaisesOnEmptyRange | uipath_etl/modules/dashboard_jobs/service.py:228-233 | the empty range's row `(0, NULL)` raises TypeError |
| DashboardJobs.JobsReliability | uipath_etl/modules/dashboard_jobs/service.py:227-234 | rate 0.0 and count 0 with no job; otherwise the failed share and the failed count; the rate is a percentage |
| DashboardJobs.ReliabilityAgrees | uipath_etl/modules/dashboard_jobs/service.py:227-234 | wherever the code as written returns, the corrected version returns the same |
| DashboardJobs.ReasonOf | uipath_etl/modules/dashboard_jobs/service.py:264-266 | `str(error_code)` if truthy; else the first 50 characters of `str(info)` if truthy; else "Unknown" |
| DashboardJobs.FailureReasons | uipath_etl/modules/dashboard_jobs/service.py:262-272 | one entry per row, in order, with the row's count and its reason |
| DashboardJobs.JobsRiskFlags | uipath_etl/modules/dashboard_jobs/service.py:370-392 | both counts are taken at `hours * 3600` seconds; a missing row reads 0; `zombie_jobs_count` equals `jobs_running_beyond_threshold` |
| DashboardJobs.FormattedDuration | uipath_etl/modules/dashboard_jobs/service.py:423 | None for a 0 or NULL duration; otherwise `str(timedelta(seconds=d))`, which has no fraction |
| DashboardJobs.RecentFailedJobs | uipath_etl/modules/dashboard_jobs/service.py:421-426 | one row per row, in order, each keeping its fields and gaining `formatted_duration` |
| DashboardSla.SlaCompliance | uipath_etl/modules/dashboard_sla/service.py:67-80 | NULL aggregates read as 0; compliance is 100 with no completed item and whenever no item breached; otherwise the share within the SLA; the trend rows pass through |
| DashboardSla.ComplianceBounds | uipath_etl/modules/dashboard_sla/service.py:71-73 | with no more breaches than completions, compliance is a percentage |
| DashboardSla.ExceptionAnalysis | uipath_etl/modules/dashboard_sla/service.py:167-176 | business and system rates are always 0.0 and the note is fixed; the failure rate is 0.0 with no item, otherwise the failed share |
| DashboardSla.RetryMetricsAsWritten | uipath_etl/modules/dashboard_sla/service.py:207-219 | as written, the code raises exactly when no item ended in the range (`None > 0`) |
| DashboardSla.RetryRaisesOnEmptyRange | uipath_etl/modules/dashboard_sla/service.py:207-213 | the empty range's row `(0, NULL, NULL, NULL)` raises TypeError |
| DashboardSla.RetryMetricsOf | uipath_etl/modules/dashboard_sla/service.py:207-219 | the retry rate is 0 with no item and the success rate 0 with no retry; otherwise they are the shares; the average is read as 0.0 when NULL; both rates are percentages |
| DashboardSla.RetryMetricsAgree | uipath_etl/modules/dashboard_sla/service.py:207-219 | wherever the code as written returns, the corrected version returns the same |
| DashboardSla.FailuresByQueue | uipath_etl/modules/dashboard_sla/service.py:300-315 | one entry per row, in order; the queue id is kept, a NULL failure count becomes 0, and the rate is 0 when nothing was processed |
| DashboardSla.RecentFailures | uipath_etl/modules/dashboard_sla/service.py:341-345 | each row gains `exception_type` 'Unknown' and `failure_reason` 'See raw output'; nothing else changes |
| DashboardSla.PlaceholdersIdempotent | uipath_etl/modules/dashboard_sla/service.py:341-343 | adding the placeholders twice adds them once |
| DashboardSla.TopFailureReasons | uipath_etl/modules/dashboard_sla/service.py:371-379 | [] when the count is 0 or missing; otherwise one generic entry carrying the count at 100 percent |
| DashboardSla.FailureTrend | uipath_etl/modules/dashboard_sla/service.py:413-419 | one entry per row, in order, with `count` renamed to `failure_count` |

## Left out

- HTTP, OAuth and OData: the `requests` calls, URLs, payloads and query parameters (client.py:127-229) are oracles in `Upstream`. The fixed `$top`, `$skip` and `$filter` values are not modelled.
- MySQL: connections, cursors, `CREATE DATABASE`/`CREATE TABLE` (`create_table`), `commit`, closing, and the SQL text of every query. Tables are maps, and query results are inputs.
- MySQL column types: the maps hold each row as it is handed to the INSERT. The `DATETIME` columns (client.py:107-112) have no fractional precision, so MySQL rounds the `.ffffff` of the stored text to whole seconds, and the `inserted_at` default (client.py:116) is not modelled. `Persister.MergeConsistent` and `Client.QueueSyncRows` therefore describe the text sent, not what a later SELECT returns.
- Json: there is no float case. A JSON number with a fraction cannot be represented, so a fractional value copied into a job column or read by `to_int_bool` is not modelled.
- Atomicity of a failed batch: a failed INSERT leaves whatever the `queueFault`/`jobFault` oracle says, because the code swallows the error and promises nothing.
- Timestamps.ParseIso: only the extended form `YYYY-MM-DD` + one of `T`/`t`/space + `HH:MM:SS`, an optional `.` fraction of one or more digits (the first six kept) and an optional `±HH:MM` offset is read, as Python 3.11 or later reads it. Other forms that Python 3.11's `fromisoformat` accepts give None here, so their columns and durations are NULL in the model: a date alone, an hour alone (`...THH`), `HH:MM` without seconds, an offset with seconds (`±HH:MM:SS` or `±HH:MM:SS.ffffff`), the basic forms (`20250408T125144`, `+0000`, `+00`), week dates, other separator characters and a `,` fraction. Python 3.7 to 3.10, which accept only 3- or 6-digit fractions, would instead return None for upstream text such as `...44.18Z`.
- Timestamps.CleanText: the stored text writes the year with four digits, which assumes `strftime('%Y')` zero-pads years below 1000.
- Logging, the `print` calls and the CLI block (client.py:610-623). Under `--jobs`, the CLI also runs the full ETL first.
- `calculate_duration` (client.py:231-258): nothing calls it.
- The clock: `datetime.now()` and `now - 24h` in `_get_date_range` are parameters.
- `uuid4` is an injected function of the draw number. `json.dumps` and `str` of non-string JSON values are an injected codec.
- DashboardOps.VolumeSnapshot, DashboardJobs.Snapshot and the other dashboard members: `get_connection`, the `None` returned on a missing connection, and the `mysql.connector.Error` handlers are not modelled. Each member starts from the query's rows.
- DashboardOps.VolumeSnapshot: a NULL `status` would add a `None` key to the dict. Statuses are strings here. So is the `time_bucket` of a NULL timestamp, which `DATE_FORMAT` would return as NULL.
- Percent.Rate: `round(..., 2)` and float division are not modelled. Rates are exact rationals, so the rounding of every percentage is left out.
- Percent.Rate: the integer `0` that some guards return and the float `0.0` that others return are the same value here.
- DashboardOps.TrendAnalysis, DashboardSla.FailureTrend: the `interval`/`date_format` choice only changes the SQL, so it is not modelled. Bucket strings are inputs.
- DashboardJobs.FormattedDuration: `duration_sec` is an integer or NULL, which is what `TIMESTAMPDIFF` returns. Other types are excluded by its precondition.
- DashboardJobs.ReasonOf: `str(...)[:50]` slices characters. Python counts code points, and here a character is one code point.
- Non-core dashboard functions are not part of this model:
  - `get_aging_metrics`, `get_processing_performance` and `get_benchmarking`;
  - `get_jobs_volume_trend`, `get_jobs_performance`, `get_jobs_by_release` and `get_jobs_trigger_analysis`;
  - `get_sla_risk` and `get_operational_risk`.
- The in-place dict mutation of `get_recent_failed_jobs`, `get_recent_failures` and `get_status_distribution` is modelled as returning new rows or maps. Aliasing of the row dicts is not modelled.
- Authentication, configuration administration, Flask routes, the connection pool and the Airflow DAG are not part of this model.

## Findings

| source | as written | input that shows it | evidently intended | confidence | as-written member | corrected member |
|---|---|---|---|---|---|---|
| uipath_etl/client.py:504-511 | the gate tests `client_id`, `client_secret`, `org` and `tenant` before `connect_db`, which is what calls `load_config` (client.py:60); on a new client all four are None (client.py:24-31) | any run of a freshly constructed client, as the DAG creates one: it returns None, whatever the configuration table holds | test the configuration after `connect_db` has loaded it | high (not executed) | Client.FreshClientEtl | Client.FreshClientEtlAfterConnect |
| uipath_etl/modules/dashboard_jobs/service.py:227-233 | `int(failed)` where `failed` is `SUM(...)`, which is NULL when no job ended in the range | an end-time range with no job: the row is `(0, NULL)`, the rate guard passes, and `int(None)` raises TypeError outside the `Error` handler | report rate 0.0 and count 0 | high (not executed) | DashboardJobs.ReliabilityRaisesOnEmptyRange | DashboardJobs.JobsReliability |
| uipath_etl/modules/dashboard_sla/service.py:207-213 | `retried > 0` where `retried` is `SUM(...)`, which is NULL when no item ended in the range | a range with no item: the row is `(0, NULL, NULL, NULL)`, and `None > 0` raises TypeError | report both rates as 0.0 | high (not executed) | DashboardSla.RetryRaisesOnEmptyRange | DashboardSla.RetryMetricsOf |
