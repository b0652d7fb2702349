# NetInsight analysis service, modelled in Dafny

NetInsight Analyst takes uploaded packet captures (`.pcap`, `.cap`,
`.pcapng`) and HTTP archives (`.har`) and analyses them. The server puts
each file on an in-memory analysis queue. The queue admits waiting files in
FIFO order while fewer than `maxConcurrent` ids are in its running map.
`maxConcurrent` is `MAX_CONCURRENT_ANALYSIS` read by `parseInt`, or 3 when
the variable is absent, unparsable or 0. A negative value admits nothing. An
id added twice can have more analyses in flight than that (see Findings).

An analysis creates an analysis record and marks the file `running`. It then
runs the Python engine, or builds placeholder results when Python and scapy
are not available. At the end it writes the results or the error to the
record and to the file. The browser dashboard shows the results with a
handful of pure helpers: file-type validation, RFC 1918 address
classification, conversation pairing, URL truncation, status colours and
lookup tables.

The project has these modules:

- `QueueModel` (queue_model.dfy): the queue as a state machine. Steps cover
  `add`, one `process` admission, the settling of an `analyzeFile` call, the
  deferred `setImmediate` re-trigger and `cancelAnalysis`. Lemmas cover
  arbitrary interleavings of these steps.
- `Lifecycle` (lifecycle.dfy): the file and record transitions of
  `analyzeFile` and `reAnalyze`, over an in-memory document store.
- `Engine` (engine.dfy): how `runAnalysis` maps an engine outcome to a
  result or an error. Also the placeholder results, script selection and
  error messages.
- `Scheduler` (scheduler.dfy): the `AnalysisQueue` object and the document
  store as classes whose fields change in place. Each method is proved to
  perform the matching `QueueModel` or `Lifecycle` transition.
- `Dashboard` and `Conversations` (dashboard.dfy, conversations.dfy): the
  browser helpers.
- `Text` and `Common` (text.dfy, common.dfy): the JavaScript string
  primitives the helpers use (`split`, `toLowerCase`, `endsWith`, decimal
  `parseInt`, decimal rendering), plus `Option`, `Result`, `Min` and `Max`.

The clock, the environment variable, the engine's outcome and the file size
from `fs.statSync` are inputs: a `now` parameter, an `Option<string>`, an
`EngineOutcome` value and a `Stat` value.

Two parts of the JavaScript runtime are ghost state of the queue:
- the multiset of `analyzeFile` calls still in flight;
- the number of scheduled `process` callbacks that have not run yet.

Some behaviours of the code worth knowing, which the model keeps:

- A timed-out engine process is not a separate error kind. Node's `spawn`
  timeout kills the process, and `close` then reports an absent exit code.
  The code turns that into the ordinary exit-failure message with
  `exit code: null` (`Engine.ExitCodeText`).
- Only the packet-shaped placeholder result carries a marker anomaly
  (`demo_analysis`); the `har` placeholder carries none
  (`Engine.PlaceholderMarking`).
- `add` does not check whether the id is already queued or running. See
  Findings.
- A parse failure's message holds only the parser's message, not an
  excerpt of the raw output.

## Model

| member | source | states |
|---|---|---|
| QueueModel.MaxConcurrentFrom | src/services/analysisService.js:13 | the ceiling is never 0. It is the parsed value when that is a non-zero number, and 3 when the variable is absent, unparsable or 0 |
| QueueModel.MaxConcurrentRoundTrip | src/services/analysisService.js:13 | any non-zero ceiling written in decimal is taken exactly |
| QueueModel.InitialWithinCeiling | src/services/analysisService.js:10-14 | a new queue is idle, within its ceiling, and its ceiling is non-zero |
| QueueModel.ProcessStep | src/services/analysisService.js:21-27 | with no room or an empty queue nothing changes. Otherwise exactly the head leaves the queue and runs from `now`, the rest of the queue is unchanged, other running entries keep their start times, and one more analysis is in flight |
| QueueModel.AddStep | src/services/analysisService.js:16-19 | after `add`, the id is running or waits last in the queue; exactly one more id is waiting or in flight; ceiling and scheduled callbacks are unchanged |
| QueueModel.WakeStep | src/services/analysisService.js:21-27 | a scheduled callback is consumed and makes one admission attempt: with room and a waiting id the head moves to the running map; otherwise running map, queue and in-flight analyses are unchanged |
| QueueModel.SettleStep | src/services/analysisService.js:29-37 | a settling analysis (resolved or thrown alike) leaves the running map, nothing else running changes, and one more `process` call is scheduled |
| QueueModel.StepKeepsCeiling | src/services/analysisService.js:16-37 | every add, admission, settlement, callback and cancellation keeps the running count within max(ceiling, 0) |
| QueueModel.CeilingHoldsOnEveryTrace | src/services/analysisService.js:16-37 | on every valid interleaving of events, the running count stays within the ceiling |
| QueueModel.AddAllFillsCeiling | src/services/analysisService.js:16-27 | adding N different files to an idle queue with ceiling K runs the first min(N, K) and leaves the rest waiting in order |
| QueueModel.AddAllNegativeCeiling | src/services/analysisService.js:13-27 | with a negative ceiling (`parseInt` keeps `-1`), every added id waits in order and nothing runs |
| QueueModel.SettleThenWakeAdmitsNext | src/services/analysisService.js:29-37 | when a job settles and its callback runs, the next waiting file is admitted, so a failure never stalls the queue |
| QueueModel.TwoSlotScenario | src/services/analysisService.js:16-37 | with ceiling 2 and three different files a, b, c added in that order: a and b run and c waits; after a settles and its callback runs, b and c run and nothing waits |
| QueueModel.IndexOf | src/services/analysisService.js:349 | `indexOf` returns -1 exactly when the id is absent, and otherwise the position of its first occurrence |
| QueueModel.CancelStep | src/services/analysisService.js:347-363 | true exactly when the id is queued, and then only its first occurrence is removed and `running` is untouched; otherwise false and nothing changes |
| QueueModel.DuplicateAddOverrunsCeiling | src/services/analysisService.js:16-27 | as written: with ceiling 2, adding A, A, B keeps the running map within the ceiling while three analyses are in flight |
| QueueModel.AddIfAbsentStep | src/services/analysisService.js:16-19 | corrected `add`: an id that is already queued or running leaves the state unchanged, and any other id is added exactly as the original `add` does |
| QueueModel.ProcessKeepsExclusive | src/services/analysisService.js:21-27 | admission keeps each id in at most one place, with the in-flight analyses exactly the running ids |
| QueueModel.SettleKeepsExclusive | src/services/analysisService.js:33-37 | settlement keeps that invariant |
| QueueModel.CancelKeepsExclusive | src/services/analysisService.js:349-351 | removing the first queued occurrence keeps the queue free of duplicates |
| QueueModel.GuardedTraceBoundsJobs | src/services/analysisService.js:16-37 | with the guarded `add`, the invariant holds, the ceiling is unchanged and the number of analyses in flight never exceeds it on any interleaving |
| QueueModel.GuardedBoundFromStart | src/services/analysisService.js:10-37 | a new queue satisfies the invariant, so with the guarded `add` the bound holds on every interleaving from construction on |
| Lifecycle.StatusName | src/services/analysisService.js:51 | the four statuses are written as `pending`, `running`, `completed` and `failed`, each name for exactly one status, and each is a key the dashboard's status text table knows |
| Lifecycle.SetFileStatus | src/services/analysisService.js:65 | `updateAnalysisStatus` sets the status, sets the error only when one is given, and leaves all other fields alone |
| Lifecycle.Begin | src/services/analysisService.js:40-67 | a missing file is an error naming the id, and nothing is written |
| Lifecycle.BeginCreatesRunningRecord | src/services/analysisService.js:48-67 | an existing file gets a `running` record under an unused id; the file becomes `running` and points to that record, keeping its metadata and error |
| Lifecycle.BeginKeepsConsistent | src/services/analysisService.js:48-67 | admission keeps every file's record link valid and record ids fresh |
| Lifecycle.Finish | src/services/analysisService.js:69-98 | settling writes only the job's file and the job's record |
| Lifecycle.FinishStatusesAgree | src/services/analysisService.js:69-98 | afterwards the file's status and the record's status are the same: `completed` for a result, `failed` for an error |
| Lifecycle.FinishSuccess | src/services/analysisService.js:73-83 | the record holds the results, both are `completed`, and the metadata is the old metadata overridden key by key by the summary |
| Lifecycle.FinishFailure | src/services/analysisService.js:87-97 | the record is `failed` with code `ANALYSIS_ERROR` and the error's message, the file is `failed` with the same message, and its metadata is unchanged |
| Lifecycle.FinishReportsExitCode | src/services/analysisService.js:91-97 | after a non-zero exit, the exit code can be read back from the record's message, which ends with the engine's stderr |
| Lifecycle.FinishReportsParseFailure | src/services/analysisService.js:143-149 | after a zero exit with unparsable output, the record is `failed` with code `ANALYSIS_ERROR` and a message that starts with the parse-failure prefix and ends with the parser's message; the file carries the same message |
| Lifecycle.FinishStoresReport | src/services/analysisService.js:73-83 | after a zero exit with parsable output, the record holds exactly the parsed report, both are `completed`, and the file's metadata is the old one overridden by the summary |
| Lifecycle.FinishKeepsConsistent | src/services/analysisService.js:69-98 | settling keeps record links valid and ids fresh |
| Lifecycle.Reset | src/services/analysisService.js:323-327 | `reAnalyze` of a missing file fails with the not-found message |
| Lifecycle.ResetClearsRecord | src/services/analysisService.js:329-337 | the file becomes `pending` with no record link and keeps its metadata. Its old record is deleted. The same files exist, every other file is unchanged, every remaining record is unchanged, and the record-id counter is unchanged |
| Lifecycle.ResetKeepsConsistent | src/services/analysisService.js:329-337 | the reset keeps record links valid and ids fresh |
| Lifecycle.RestartReplacesRecord | src/services/analysisService.js:323-341 | a restart and a new admission leave the file linked to a new record with the old one deleted, so the number of records does not grow |
| Engine.MockAnalysisResults | src/services/analysisService.js:178-273 | `har` gets the request-shaped result and every other type the packet-shaped one. `totalBytes` is the size. The average sizes are floor(size / 145) and floor(size / 1547). The packet result has protocols and exactly one `demo_analysis` anomaly of severity `info` |
| Engine.PlaceholderMarking | src/services/analysisService.js:210-217 | a placeholder carries the demo marker exactly when its type is not `har` |
| Engine.PythonScript | src/services/analysisService.js:275-284 | the script is `analyze_har.py` exactly for `har`, and `analyze_pcap.py` for every other type |
| Engine.ScriptPath | src/services/analysisService.js:111 | the script path is the fixed script directory followed by the script name |
| Engine.ExitCodeText | src/services/analysisService.js:151 | an absent exit code renders as `null` and only then; a present code renders with a leading minus exactly when it is negative |
| Engine.ErrorMessage | src/services/analysisService.js:111-157 | an exit failure's message starts with the exit-failure prefix and ends with stderr; a parse failure's starts with the parse-failure prefix and ends with the parser's message; a missing script's starts with the missing-script prefix and ends with the path; a start failure's is the prefix and the spawn message; a failed `statSync` passes its own message through |
| Engine.ExitCodeRecoverable | src/services/analysisService.js:151 | the exit code in an exit failure's message parses back to the code |
| Engine.RunAnalysis | src/services/analysisService.js:101-158 | without the Python environment the result is the placeholder, or the `statSync` error. A missing script, a spawn error (with its message) and a non-zero or absent exit code (with code and stderr) are errors. Exit 0 with parsable output gives exactly the parsed report, and exit 0 with unparsable output is a parse error with the parser's message. The result is Ok exactly for the placeholder or for exit 0 with parsable output |
| Scheduler.Repository.BeginAnalysis | src/services/analysisService.js:40-67 | performs `Lifecycle.Begin` on the store's fields |
| Scheduler.Repository.FinishAnalysis | src/services/analysisService.js:69-98 | performs `Lifecycle.Finish` on the store's fields |
| Scheduler.Repository.ResetFile | src/services/analysisService.js:323-337 | performs `Lifecycle.Reset`; nothing changes on error |
| Scheduler.AnalysisQueue.constructor | src/services/analysisService.js:10-14 | empty queue, empty running map, ceiling from the environment |
| Scheduler.AnalysisQueue.Process | src/services/analysisService.js:21-30 | performs `ProcessStep`, and starts `analyzeFile` for the admitted id (`Lifecycle.Begin`) |
| Scheduler.AnalysisQueue.Add | src/services/analysisService.js:16-19 | performs `AddStep`: push, then one admission |
| Scheduler.AnalysisQueue.Complete | src/services/analysisService.js:29-37 | writes the outcome (`Lifecycle.Finish`) and performs `SettleStep` |
| Scheduler.AnalysisQueue.Release | src/services/analysisService.js:31-37 | the `finally` block of every `analyzeFile` call, including one that threw before writing anything, performs `SettleStep` |
| Scheduler.AnalysisQueue.RunDeferred | src/services/analysisService.js:36 | a scheduled callback performs `WakeStep` |
| Scheduler.AnalysisQueue.GetQueueStatus | src/services/analysisService.js:286-297 | nothing changes. `waiting` and `running` are the two sizes and the ceiling is reported as it is. There is exactly one task per running id, with its start time and `duration = now - startTime` |
| Scheduler.ListTasks | src/services/analysisService.js:292-296 | the loop over the running map lists one task per running id, each with its start time and `duration = now - startTime` |
| Scheduler.StartAnalysis | src/services/analysisService.js:307-310 | enqueues the file |
| Scheduler.FindQueued | src/services/analysisService.js:349 | the loop computes `indexOf` |
| Scheduler.CancelAnalysis | src/services/analysisService.js:347-363 | performs `CancelStep` |
| Scheduler.ReAnalyze | src/services/analysisService.js:323-341 | a missing file is an error and nothing changes; otherwise the reset and then `add` |
| Text.Lower | public/js/app.js:222 | `toLowerCase` keeps the length and lowers each ASCII capital in place |
| Text.Split | public/js/app.js:991 | `split` gives one more piece than there are separators, and no piece holds a separator |
| Text.JoinSplit | public/js/app.js:991 | joining the pieces with the separator gives the input back |
| Text.EndsWith | public/js/app.js:223 | `endsWith` can hold only when the suffix is no longer than the string, and then the last characters agree |
| Text.EndsWithIffSuffix | public/js/app.js:223 | a string ends with a suffix exactly when it is some stem followed by that suffix |
| Text.IntToDecimal | src/services/analysisService.js:151 | `${code}` of an integer is non-empty, starts with a minus exactly for a negative number, and is otherwise made of decimal digits |
| Text.ParseInt | public/js/app.js:994-995 | `parseInt` gives a number exactly when a digit comes first, or after one sign; a leading minus gives a number of at most 0, and otherwise it is at least 0 |
| Text.ParseIntegerPrefix | public/js/app.js:994-995 | `parseInt` of an integer's decimal rendering followed by text that does not start with a digit reads back the integer |
| Text.ParseIntToDecimal | public/js/app.js:994-995 | `parseInt` reads back the decimal rendering of every integer |
| Dashboard.ValidateFile | public/js/app.js:219-234 | an accepted name is at least as long as the shortest extension |
| Dashboard.ValidateFileIgnoresCase | public/js/app.js:219-234 | validation depends only on the lower-cased name |
| Dashboard.ValidateFileAcceptsExtension | public/js/app.js:221-223 | any name ending with `.pcap`, `.cap`, `.pcapng` or `.har`, in any ASCII letter case, is accepted |
| Dashboard.IsPrivateIP | public/js/app.js:990-1003 | a private answer needs exactly four dot-separated pieces and a first piece that parses as 10, 172 or 192 |
| Dashboard.PrivateDottedQuad | public/js/app.js:990-1003 | on the dotted-quad text of four numbers, the answer is exactly membership of an RFC 1918 block |
| Dashboard.PrivacyIgnoresLastPieces | public/js/app.js:990-1003 | the third and fourth pieces never change the answer |
| Dashboard.GetConversationDescription | public/js/app.js:977-988 | each of the four labels is returned exactly for its combination of private and public ends |
| Dashboard.DescriptionDeterminedByPrivacy | public/js/app.js:977-988 | two conversations get the same label exactly when their ends have the same privacy |
| Dashboard.TruncateUrl | public/js/app.js:1271-1274 | a URL that is empty or fits comes back unchanged. A longer one becomes its first `maxLength` characters and "...", so it is at most `maxLength + 3` long |
| Dashboard.GetHttpStatusColor | public/js/app.js:1260-1269 | the grey `#9ca3af` exactly for a missing or zero code; one colour per band 2xx, 3xx, 4xx and 5xx and above; `#6b7280` exactly for the other codes below 200 |
| Dashboard.GetStatusClass | public/js/app.js:427-436 | unknown keys fall back to `status-processing`; the completed and failed classes belong to those keys only |
| Dashboard.GetStatusText | public/js/app.js:438-447 | `未知状态` exactly for unknown keys |
| Dashboard.GetStatusIcon | public/js/app.js:449-458 | `fa-question-circle` exactly for unknown keys |
| Dashboard.StatusTablesAgree | public/js/app.js:427-458 | the three status tables know the same keys |
| Dashboard.GetSeverityConfig | public/js/app.js:1411-1419 | each known severity has its own configuration, and the others fall back to medium |
| Dashboard.GetHealthConfig | public/js/app.js:1317-1348 | `warning` and `critical` have their own configurations, and every other status is shown as good |
| Dashboard.GetAnomalyTitle | public/js/app.js:954-965 | each known type gets its title from the table, and any other type is shown as itself |
| Conversations.Pair | public/js/app.js:776-780 | a pair joins the source's and the destination's address, its packets and bytes are the minimum of the two endpoints' values, and its description is the label of the two addresses |
| Conversations.PairConversations | public/js/app.js:768-783 | the nested loops build exactly the pairs, source by source |
| Conversations.PairsMembership | public/js/app.js:771-783 | a conversation is listed exactly when it pairs some source with some destination of a different address |
| Conversations.PairsSound | public/js/app.js:771-783 | every listed conversation pairs some source with some destination of a different address |
| Conversations.PairsComplete | public/js/app.js:771-783 | every source and destination of different addresses have their conversation in the list |
| Conversations.NoSelfConversation | public/js/app.js:773 | no conversation joins an address with itself |
| Conversations.PairsLength | public/js/app.js:771-783 | there are at most |sources| × |destinations| conversations |
| Conversations.SortByBytes | public/js/app.js:785-786 | the sort keeps the number of conversations |
| Conversations.SortPermutes | public/js/app.js:785-786 | sorting returns a permutation of the conversations |
| Conversations.SortOrders | public/js/app.js:785-786 | sorting orders the conversations by non-increasing bytes |
| Conversations.PrefixHoldsLargest | public/js/app.js:785-787 | after sorting, nothing beyond the first k entries has more bytes than any of them |
| Conversations.TopConversations | public/js/app.js:763-788 | the top list has min(5, number of pairs) entries, ordered by non-increasing bytes, drawn from the pairs, none of them a self-pair, and nothing left out has more bytes than anything kept |

## Left out

- The engine subprocess, its stdout/stderr buffering, the spawn timeout and the `python3 -c "import scapy"` probe. They appear only as an `EngineOutcome` value; a timeout is the `Closed` outcome with no exit code.
- Real asynchrony. Each `await` chain inside `analyzeFile` is one step: the reads and writes before the engine runs happen at admission, and the rest happens when the job settles. Interleavings between those awaits are not modelled.
- Wall-clock time. `new Date()` and `Date.now()` are a `now` parameter.
- The `File` and `Analysis` models. Their code is not part of this model, so they are two in-memory maps.
  - Record ids come from a counter.
  - `save()` writes the whole in-memory document.
  - A record deleted while its job runs is written again when the job settles.
  - The record's creation time is not modelled.
- `Lifecycle.SetFileStatus` assumes `updateAnalysisStatus` sets the status and, when given one, the error message, and that it saves the file. The model likewise assumes `analysis.updateStatus` saves the record with its results or error. So the failed file's message stays stored, and so does the `pending` status of a reset file that has no linked record, although the service calls no `save()` on those paths. A reset file with a linked record is saved by the service itself. The code of both methods is not part of this model.
- The error's stack trace, which the failure record stores as `details`.
- The `filePath` argument of the engine and of `fs.statSync`.
- The `logger` calls.
- The JSON text of the engine's output. Parsing success or failure is an input, and a parsed result is known only by its `summary`.
- Floating-point values in the placeholder results: durations, percentages, rates and the `Math.floor(size * 0.3)` domain byte counts. They are opaque literals.
- `formatFileSize`, the chart geometry and all DOM, `fetch` and notification code of the dashboard. So are the rendering helpers of public/js/report.js.
- The directory of the engine scripts. The service resolves it as an absolute path from its own location. The model uses the fixed relative prefix `analysis-scripts/` (`Engine.ScriptPath`), so the missing-script message carries that path.
- Dashboard.TruncateUrl: lengths and the cut are counted in Unicode scalar values, as Dafny strings count them. JavaScript counts UTF-16 code units, so a URL with characters outside the Basic Multilingual Plane is cut at a different place, for example `truncateUrl("😀😀", 2)`.
- `parseInt`'s whitespace skipping and `0x` prefix. The model reads an optional sign and a run of decimal digits.
- Case folding beyond ASCII letters in `validateFile`.
- Lookup by a key such as `constructor`, which JavaScript resolves on the object prototype rather than through the table's default.
- Conversations with missing byte counts (NaN in `Math.min` and in the sort comparator). Byte counts are integers. The placeholder's `topSources` and `topDestinations` carry no `bytes` field, so on placeholder data every conversation's bytes is NaN. The comparator then returns NaN and the list keeps its pairing order. The ordering proved for `Conversations.TopConversations` does not apply to placeholder data.
- The order of `runningTasks`, which follows the insertion order of the JavaScript `Map`. The model fixes no order.
- Conversations.SortByBytes: the stability of the sort is not proved, only ordering and permutation.
- Dashboard.IsPrivateIP: its contract states only what a private answer requires. The exact RFC 1918 characterisation is proved on canonical dotted-quad text in `PrivateDottedQuad`.

## Findings

| source | as written | input that shows it | evidently intended | confidence | as-written member | corrected member |
|---|---|---|---|---|---|---|
| src/services/analysisService.js:16-27 | `add` enqueues an id that is already queued or running, and `running.set` overwrites the running entry of a re-admitted id | ceiling 2: add A, add A, add B with nothing settling in between | at most `maxConcurrent` analyses in flight, with an id in at most one of queue and running map | medium, not executed | QueueModel.DuplicateAddOverrunsCeiling | QueueModel.GuardedTraceBoundsJobs |

With that input, the second A is admitted while the first A is still
running. The running map keeps two entries, so its size stays within the
ceiling. Yet three `analyzeFile` calls are in flight. Two of them write to
the same file, and the first to settle deletes the entry the other still
needs. The corrected `QueueModel.AddIfAbsentStep` ignores an id that is
already queued or running. With it, the analyses in flight are exactly the
running ids on every interleaving, and their number is within the ceiling.
