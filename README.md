# toggl-jira synchronisation, modelled in Dafny

This project models the core of toggl-jira: the per-day reconciliation that
reads Toggl time entries and books them as Jira work logs. It covers:

- the validation of a raw record and the resolution of its Jira issue key from
  the workspace's project list, with a per-instance project cache;
- the per-day aggregation of accepted records into an ordered map keyed by the
  record's own id, where a repeated id merges into the stored entry object;
- the day filler, which tops a short weekday up to eight hours plus a
  one-minute buffer on the filler issue;
- the delivery ledger, which is the persisted set of ids already uploaded, and
  the upload loop that consults and extends it;
- the Jira overwrite/skip scan: the same-day, same-author work logs of the
  issue are either deleted (overwrite) or end the scan with the POST, and the
  effect of those requests on the issue's work logs;
- the day loop of `sync`, from the start day to the end day.

Layout:

| file | module | contents |
|---|---|---|
| `wrappers.dfy` | `Wrappers` | the `Option` datatype |
| `calendar.dfy` | `Calendar` | days as integers, instants, the end-of-day instant, the ISO weekday |
| `work_log_entry.dfy` | `WorkLog` | the `WorkLogEntry` class with its five fields, setters and getters, and the hydrator |
| `jira_api.dfy` | `Jira` | the Jira client as a class with a request log and the tracker's work logs, and the scan and its effect as functions with their lemmas |
| `ledger.dfy` | `Ledger` | the delivery ledger as a class over the three observable states of its store file |
| `resolver.dfy` | `Resolver` | the accept/reject rule (both as written and corrected) and the validation method |
| `aggregation.dfy` | `Aggregation` | the ordered map of a day's entries as a function of the records, with its lemmas |
| `day_filler.dfy` | `DayFiller` | the top-up as a function of the entries, with its lemmas |
| `upload.dfy` | `Upload` | the upload loop as a function of the entries, the ledger, the request log and the work logs, with its lemmas |
| `sync_spec.dfy` | `SyncSpec` | one day and the whole day loop as functions of their inputs, with their lemmas |
| `sync_service.dfy` | `SyncService` | the service class: every step as a method proved against the functions above |

Remote services are inputs:

- The time-tracking service is a `TogglSource`, giving a day's records or a
  failure, and a workspace's projects or a failure.
- The issue tracker is a `JiraRemote`, giving the key of a user name, whether
  the listing call on an issue throws, and the reply to a POST.
- The tracker's work logs are state of the Jira client (`Tracker`): per issue,
  the work logs in listing order, and the id the next created work log gets.
  A listing that does not throw lists the issue's current work logs; a
  DELETE removes the work log with its id; a POST whose reply has no error
  messages adds a work log with the next id, the requested start and the
  user key as author.
- Every request the Jira client issues (GET a listing, DELETE a work log, POST
  a new one) is appended to its `sent` log. Statements about which requests
  are sent are statements about that log; statements about which work logs
  remain are statements about the tracker's state.

The imperative parts of the source are methods over mutable state: the service
class, the entry objects, the ledger and the client. Each method's
postcondition ties its result and new state to a specification function. The
properties the source promises are proved as lemmas about those functions.

Several source functions are split into a method per loop body so that each
proof stays small:

- `sync` into `Sync`, `SyncDay` and `ProcessDay`;
- `parseTimeEntries` into `ParseTimeEntries`, `ParseRecord`, `StoreParsed` and
  `StoreEntry`;
- `fillTimeToFull` into `FillTimeToFull`, `ScanForFill`, `NewFillerEntry` and
  `AddFillTime`;
- `addWorkLogsToApi` into `AddWorkLogsToApi`, `UploadStep` and `UploadEntry`;
- `addWorkLogEntry` into `AddWorkLogEntry` and `ScanAndPost`.

The model follows the code where it does something other than its own
messages and names suggest:

- A record with a duration of exactly zero is accepted. The test at
  `Service/SyncService.php:263` rejects only a negative duration, although
  the message it logs reads "0 seconds, or timer still running, skipping".
- When a repeated record is merged, the description is appended unless the
  pattern built from the stored comment matches that same stored comment
  (`Service/SyncService.php:280`). The new description is never consulted by
  that test.
- The filler entry's date is the processed day at 23:59:59, not its start.
  The variable `$clonedStartDate` is moved forward by `PT23H59M59S` in place
  (`Service/SyncService.php:105-108`) before it is handed to the filler.
- A workspace whose projects cannot be fetched ends the run. `null` is passed
  where an array is required, which is an uncaught type error; the record is
  not skipped.
- An entry without an id ends the run when the upload loop reads its id. The
  filler entry created by the top-up never gets an id, so a filled day aborts
  the run at that entry, after the entries before it were uploaded.
- With overwrite, each entry's upload lists its issue afresh, so a later
  entry of the same run on the same issue and day deletes the work log an
  earlier one just created, while the ledger keeps the earlier id
  (`Upload.SameRunOverwriteDeletesEarlierPost`).

One rule is modelled as it is evidently intended rather than as written; see
"## Findings". A record whose project id matches no project of its
workspace is skipped in the model, where the code ends the run. The service
methods (`ParseRecord`, `ParseTimeEntries`, `ProcessDay`, `SyncDay`, `Sync`)
and the day-loop functions and lemmas of `Aggregation`, `SyncSpec` and
`Upload` all use this corrected rule. The rule as written is
`Resolver.ParseAsWritten`; it crashes on such records
(`Resolver.UnmatchedProjectEndsRun`) and agrees with the corrected rule on
every other record (`Resolver.ParseAgreesWhenMatched`).

## Model

| member | source | states |
|---|---|---|
| Calendar.EndOfDay | module/TogglJira/src/Service/SyncService.php:105-108 | the processed instant is the same day at its last second (midnight plus 23:59:59) |
| WorkLog.WorkLogEntry.constructor | module/TogglJira/src/Entity/WorkLogEntry.php:30-33 | a new entry has no id |
| WorkLog.WorkLogEntry.SetIssueID | module/TogglJira/src/Entity/WorkLogEntry.php:36-44 | afterwards the issue id reads back as the value set, and the other four fields are unchanged |
| WorkLog.WorkLogEntry.SetTimeSpent | module/TogglJira/src/Entity/WorkLogEntry.php:46-54 | afterwards the duration reads back as the value set, and the other four fields are unchanged |
| WorkLog.WorkLogEntry.SetSpentOn | module/TogglJira/src/Entity/WorkLogEntry.php:56-64 | afterwards the date reads back as the value set, and the other four fields are unchanged |
| WorkLog.WorkLogEntry.SetComment | module/TogglJira/src/Entity/WorkLogEntry.php:66-74 | afterwards the comment reads back as the value set, and the other four fields are unchanged |
| WorkLog.WorkLogEntry.SetId | module/TogglJira/src/Entity/WorkLogEntry.php:76-84 | afterwards the id is set to the value given (`GetId` is defined only then), and the other four fields are unchanged |
| WorkLog.Hydrate | module/TogglJira/src/Service/SyncService.php:270 | the hydrated entry is a fresh object holding exactly the parsed issue, duration, comment, date and id |
| Jira.NotifyFlag | module/TogglJira/src/Jira/Api.php:31 | the query value is "true" exactly when users are to be notified, and "false" otherwise |
| Jira.Post | module/TogglJira/src/Jira/Api.php:32-36 | the POST carries the issue, duration, comment and start unchanged, with the notify flag |
| Jira.Listed | module/TogglJira/src/Jira/Api.php:38-43 | the listing throws exactly when the tracker's listing call on the issue fails; otherwise it lists the issue's current work logs, or has no `worklogs` key when the issue has none |
| Jira.Matching | module/TogglJira/src/Jira/Api.php:41-49 | a listed work log is kept exactly when it has the new entry's day and the user's author key, and the kept ones stay in listing order |
| Jira.ScanEndsWithOnePost | module/TogglJira/src/Jira/Api.php:43-68 | every scan ends with exactly one POST, and every write before it is a DELETE |
| Jira.NoOverwriteOnlyPosts | module/TogglJira/src/Jira/Api.php:51-57 | without overwrite, the scan's only write is the POST, whether it comes at the first match or after the scan |
| Jira.OverwriteDeletesAllMatching | module/TogglJira/src/Jira/Api.php:60-68 | with overwrite, every same-day same-author work log is deleted in listing order, and the POST follows all the deletes |
| Jira.NeverDeletesOthers | module/TogglJira/src/Jira/Api.php:41-49 | every DELETE targets a listed work log of the same day and author |
| Jira.UploadShape | module/TogglJira/src/Jira/Api.php:38-68 | an upload sends the listing request first; a listing that threw ends it there; otherwise one POST comes last, after DELETEs only; with no `worklogs` key or no match, the POST is the only write |
| Jira.DeletesEffect | module/TogglJira/src/Jira/Api.php:60-65 | DELETEs create no work log and use up no id; after the DELETE of an id on an issue no work log with that id remains there, and later DELETEs do not bring one back |
| Jira.OverwriteExchange | module/TogglJira/src/Jira/Api.php:38-68 | with overwrite and a listing that does not throw, an upload is the listing, the DELETEs of every same-day same-author work log the tracker holds for the issue, then the POST, whose effect comes after all the deletes |
| Jira.Api.AddWorkLogEntry | module/TogglJira/src/Jira/Api.php:22-69 | the upload appends exactly the requests of the specified exchange to the log, computed from the tracker's work logs before the call, leaves the tracker as those requests do, and returns the reply to the POST (or the listing's exception) |
| Jira.Api.ScanAndPost | module/TogglJira/src/Jira/Api.php:43-68 | the scan over the listed work logs sends exactly the specified DELETEs and POST, leaves the tracker as those requests do, and returns the reply to the POST |
| Ledger.Stored | module/TogglJira/src/Service/SyncService.php:399-406 | a missing or empty store reads as nothing delivered |
| Ledger.DeliveryLedger.CheckLogId | module/TogglJira/src/Service/SyncService.php:392-408 | true exactly when the id is recorded; a missing store is created empty; the recorded ids do not change |
| Ledger.DeliveryLedger.SaveLogId | module/TogglJira/src/Service/SyncService.php:372-390 | afterwards the id is recorded, so a following check is true, and every id recorded before is kept |
| Resolver.LookupIssue | module/TogglJira/src/Service/SyncService.php:245-256 | a missing project id is noticed only when the project list is non-empty; otherwise the name found is that of the first project with the record's project id, and a name is found exactly when such a project exists |
| Resolver.ParseAccepts | module/TogglJira/src/Service/SyncService.php:230-271 | a record is accepted exactly when it has a description, a non-negative duration (zero included) and a first matching project whose name contains `-`; the entry carries that name and the record's duration, description, start and id |
| Resolver.ParseAgreesWhenMatched | module/TogglJira/src/Service/SyncService.php:230-271 | the corrected rule and the rule as written agree on every record for which the latter does not crash |
| Resolver.UnmatchedProjectEndsRun | module/TogglJira/src/Service/SyncService.php:245-261 | on a record whose project is not in the list, or with an empty list, the rule as written crashes while the corrected rule rejects |
| Resolver.ParseTimeEntry | module/TogglJira/src/Service/SyncService.php:230-271 | the validation with its first-match project loop yields the corrected rule's verdict |
| Aggregation.KeyIndex | module/TogglJira/src/Service/SyncService.php:206-208 | the position returned holds the key; no position holds it when none is returned |
| Aggregation.AggregateFails | module/TogglJira/src/Service/SyncService.php:197-200 | with the corrected resolution rule, aggregation ends the run exactly when some record's workspace projects cannot be fetched (as written, an unmatched project id also ends it; see "## Findings") |
| Aggregation.AddRecordKeys | module/TogglJira/src/Service/SyncService.php:206-213 | storing an accepted record keeps the keys unique and adds exactly its id to the key set |
| Aggregation.AggregateKeys | module/TogglJira/src/Service/SyncService.php:193-225 | the day's map has exactly one entry per distinct accepted record id |
| Aggregation.AggregateSums | module/TogglJira/src/Service/SyncService.php:206-213 | each entry's duration is the sum of the durations of all accepted records with its id, hence non-negative |
| Aggregation.RejectedRecordIgnored | module/TogglJira/src/Service/SyncService.php:200-204 | a rejected record leaves the day's entries exactly as they were |
| DayFiller.LastWithIssue | module/TogglJira/src/Service/SyncService.php:342-345 | the position returned is the last entry booked on the filler issue; none is returned when no entry is |
| DayFiller.FillTotal | module/TogglJira/src/Service/SyncService.php:337-370 | a day of at least 28800 seconds comes back unchanged; a shorter day totals exactly 28800 + 60 afterwards |
| DayFiller.FillShape | module/TogglJira/src/Service/SyncService.php:354-366 | at most one entry is appended, exactly when no entry is on the filler issue, carrying the filler issue, comment and processed day and no id; otherwise only the last filler entry's duration changes |
| Upload.UploadLedger | module/TogglJira/src/Service/SyncService.php:300-334 | the ledger only grows; a new id comes from an entry whose reply had no error messages; after a full run every such entry is recorded, even when uploads before it threw or failed |
| Upload.OnlyUndeliveredAreSent | module/TogglJira/src/Service/SyncService.php:300-312 | earlier requests are kept, and every request a run adds is the listing, a DELETE on the issue, or the own POST of an entry whose id was not in the ledger when the run started |
| Upload.UploadRequestsOf | module/TogglJira/src/Jira/Api.php:38-68 | every request of one upload names the entry's issue and is the listing, a DELETE, or exactly that entry's POST |
| Upload.DeliveredEntrySendsNothing | module/TogglJira/src/Service/SyncService.php:302 | an entry whose id the ledger holds when the loop reaches it, whether recorded before the run or earlier in it, sends nothing and changes nothing |
| Upload.SecondRunRepeatsNothing | module/TogglJira/src/Service/SyncService.php:300-334 | a second run from the ledger, requests and work logs the first run left sends requests only for entries whose id the first run did not record and whose upload does not succeed; this holds also when the runs end at an entry without an id |
| Upload.UploadStopsAtMissingId | module/TogglJira/src/Service/SyncService.php:302 | the first entry without an id ends the run there, and the entries after it are never uploaded |
| Upload.UploadNeverCrashes | module/TogglJira/src/Service/SyncService.php:300-334 | entries that all have ids never end the run |
| Upload.SameRunOverwriteDeletesEarlierPost | module/TogglJira/src/Service/SyncService.php:300-312 | with overwrite, when two undelivered entries of one run share issue and day and the first upload succeeds, its id is recorded and its work log is created, and the second upload DELETEs that work log, so none with its id remains |
| SyncSpec.DayRunGrows | module/TogglJira/src/Service/SyncService.php:121-137 | one day only adds to the ledger and the request log; a dry run changes neither, nor the work logs |
| SyncSpec.DayRunSends | module/TogglJira/src/Service/SyncService.php:121-137 | every request one day adds belongs to the upload of one of that day's entries whose id was not in the ledger |
| SyncSpec.NoFillUnlessGuarded | module/TogglJira/src/Service/SyncService.php:126-133 | without a filler issue, on the current day, at the weekend or in a dry run, the day's entries are exactly the aggregated ones |
| SyncSpec.SyncGrows | module/TogglJira/src/Service/SyncService.php:102-138 | a run never forgets a delivered id and never takes back a request |
| SyncSpec.SyncSendsOnlyUndelivered | module/TogglJira/src/Service/SyncService.php:102-138 | every request a run adds belongs to the upload of an entry of one of its days whose id the ledger did not hold at the start: a delivered entry is never uploaded again |
| SyncSpec.SecondSyncRepeatsNothing | module/TogglJira/src/Service/SyncService.php:102-138 | running the same days again from the ledger, requests and work logs the first run left uploads no entry the first run delivered, however the first run ended |
| SyncSpec.DryRunWritesNothing | module/TogglJira/src/Service/SyncService.php:130-137 | a dry run records nothing in the ledger, sends nothing to the issue tracker and changes no work log |
| SyncSpec.FetchFailureStops | module/TogglJira/src/Service/SyncService.php:111-113 | a failed fetch on a day ends the loop there, with the state the earlier days left |
| SyncService.SyncService.constructor | module/TogglJira/src/Service/SyncService.php:68-84 | the service starts with an empty project cache |
| SyncService.SyncService.GetProjects | module/TogglJira/src/Service/SyncService.php:168-188 | returns the workspace's projects (or the failure); a cached workspace is not fetched again; a successful fetch is cached, a failed one is not |
| SyncService.SyncService.AddTimeToExistingTimeEntry | module/TogglJira/src/Service/SyncService.php:273-291 | the stored entry, and only it, gains the new duration and (unless its comment matches itself) the new description |
| SyncService.SyncService.ParseTimeEntries | module/TogglJira/src/Service/SyncService.php:193-225 | the objects built hold exactly the aggregated entries, are distinct and fresh, and the run ends exactly when aggregation does |
| SyncService.SyncService.ParseRecord | module/TogglJira/src/Service/SyncService.php:197-204 | one record: failure exactly when its projects cannot be fetched; otherwise the map gains what the corrected rule accepts |
| SyncService.SyncService.StoreParsed | module/TogglJira/src/Service/SyncService.php:200-213 | an accepted entry is stored as a fresh object; a rejected record leaves the map as it was |
| SyncService.SyncService.StoreEntry | module/TogglJira/src/Service/SyncService.php:206-221 | a repeated key merges into the stored object; a new key is appended after the ledger is consulted; the ledger's ids do not change |
| SyncService.SyncService.FillTimeToFull | module/TogglJira/src/Service/SyncService.php:337-370 | the objects afterwards hold exactly the topped-up entries, through the shared objects or one fresh filler |
| SyncService.SyncService.ScanForFill | module/TogglJira/src/Service/SyncService.php:339-348 | the scan yields the day's total and the object at the last position booked on the filler issue, or null when there is none |
| SyncService.SyncService.NewFillerEntry | module/TogglJira/src/Service/SyncService.php:356-362 | a fresh entry holding the filler issue, the configured comment, the processed day and the top-up, with no id |
| SyncService.SyncService.AddFillTime | module/TogglJira/src/Service/SyncService.php:365 | extending the found filler object changes that position's duration and nothing else in the day's list |
| SyncService.SyncService.AddWorkLogsToApi | module/TogglJira/src/Service/SyncService.php:293-335 | the ledger, the request log, the work logs and the crash flag afterwards are those of the specified upload run over the entries' values |
| SyncService.SyncService.UploadStep | module/TogglJira/src/Service/SyncService.php:300-334 | one pass of the loop: an entry without an id ends the run there, any other continues the specified run by one entry |
| SyncService.SyncService.UploadEntry | module/TogglJira/src/Service/SyncService.php:301-333 | an entry with an id is uploaded unless recorded, and recorded when the reply has no error messages |
| SyncService.SyncService.Sync | module/TogglJira/src/Service/SyncService.php:89-146 | a user without a key fails before any day and changes nothing; otherwise the outcome, ledger, request log and work logs are those of the specified day loop, with the corrected resolution rule |
| SyncService.SyncService.SyncDay | module/TogglJira/src/Service/SyncService.php:102-138 | one pass of the day loop: stops on a failed fetch or an aborted day, skips an empty day, and otherwise continues from the state the day left |
| SyncService.SyncService.ProcessDay | module/TogglJira/src/Service/SyncService.php:121-137 | one day with records: aggregation, the guarded top-up, and the upload unless a dry run, as specified |

## Left out

- HTTP transport and the client libraries are not modelled. The Jira and
  Toggl answers, including the user lookup (`getUser`), are inputs.
- The file system and JSON encoding of the ledger's store file are not
  modelled. The file is one of three states: absent, empty, or holding a set
  of ids.
- Logging is not modelled, including the rounded hours in the log context.
- Date parsing and formatting, time zones and the clock are not modelled.
  Days are integers, an instant is a day and a second, and the current day is
  a parameter of `Sync`.
- The `md5` key is not modelled. The map is keyed by the record id itself,
  since `md5` of the id string is injective on the ids that occur.
- The regular-expression test of a stored comment against itself is an input
  predicate. The model does not claim comments get concatenated.
- The hydrator is not part of this model. It is taken to copy the five values
  into a fresh entry through the setters.
- The exception raised by a DELETE call is not modelled. The DELETE is taken
  to return normally; only the listing call and the POST may fail.
- Jira's own id scheme and author resolution are not modelled. A created
  work log's id is the tracker's next id, and its author key is the user key
  the upload is made for.
- Whether a listing call throws is an input per issue. It does not depend on
  the tracker's state.
- A POST whose reply is an exception or carries error messages is taken to
  create no work log.
- Integer overflow of PHP's 64-bit integers in duration sums is not modelled.
  Durations are unbounded integers.
- The fields of a fresh `WorkLogEntry` that PHP leaves unset are given
  placeholder values. The source never reads them before they are set.
- Calendar.IsoWeekday: only its range 1..7 is stated. The weekday arithmetic
  from the 1970-01-01 Thursday is its definition.

## Findings

| source | as written | input that shows it | evidently intended | confidence | as-written member | corrected member |
|---|---|---|---|---|---|---|
| module/TogglJira/src/Service/SyncService.php:245-261 | when no project has the record's project id, or the project list is empty, `$data['issueID']` is never set, and `strpos` on the null value raises an uncaught type error under strict types, ending the whole run | record with pid 7 and description "fix login" against the list [project 3 "OPS-1"], or against [] | the record is skipped as an unresolvable issue key, like a name without `-` | not executed | Resolver.UnmatchedProjectEndsRun | Resolver.ParseAccepts |
