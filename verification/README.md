# Code execution engine: a verified model

The code execution engine accepts programs over HTTP, keeps them as rows of a
Postgres table, hands them to workers through a Redis queue (Asynq), runs each one
in a single-use Docker container and reports the result by polling or webhook. This
project models its hard core in Dafny and proves what its design promises:

- **The submission lifecycle** (`Submissions`, `Lifecycle`, `LifecycleInvariant`,
  `LifecyclePreservation`, `LifecycleTheorems`, `LifecycleAttempts`, `LifecycleHistory`,
  `LifecycleResults`, `LifecycleProgress`, `LifecycleNecessity`, `Histories`, `Worker`). API requests, queue, worker handlers and webhook
  deliveries are one state machine whose steps are single SQL statements, queue operations, program starts and
  faults. None of the UPDATE statements checks the row's status, so that a finished
  result is never overwritten rests on a status read made several steps earlier; the
  inductive invariant says why that is enough. `Worker` holds the two handlers and the
  API request as straight-line code with early returns and proves that, whatever other
  actors do between its calls, the history it makes is a path of the machine, and that
  its own steps in it are those its call results ask for.
- **The concurrent image pull** (`ImagePull`, `ImageCalls`, `EnsureImage`): any number of
  goroutines around a map of `sync.Once` objects with delete-on-failure, proved to
  refine plain inspect-or-pull.
- **The marker line** (`Text`, `Utf8`, `Base64`, `Markers`, `Capture`, `Outcomes`,
  `Sandbox`): printed by a shell script, framed by the daemon, captured under a byte
  limit, found by last-occurrence search, split, parsed and base64-decoded (section
  4 of RFC 4648), and turned into a verdict.
- **Supervision** (`Supervision`, `Containers`): exit paths, nested deadlines and
  conservation of containers.
- **Arithmetic** (`Backoff`, `Config`): retry delays and the size of the environment
  entry that carries the code.

Byte strings are `string`s with one character per byte. Durations are nanoseconds.
Everything the code does not control (clocks, random draws, results of daemon, SQL
and queue calls, the order in which actors move) is a parameter, so each theorem is
about all of it.

## Hypotheses and findings

Two hypotheses of the lifecycle theorems are explicit (`Lifecycle.Sane`): attempts
of one queue entry do not overlap, and an enqueue that reports an error did not
happen. `LifecycleNecessity` has a run without each in which a finished row is
overwritten. A third switch, shutdown requeues that are not counted as attempts, is
allowed for safety but not for the bounds on attempts. SQL errors are always
ambiguous: a failed write may have been applied. `now()` never runs backwards.

The bound of containers by the concurrency has two hypotheses of its own: nothing
leaks, and every handler reaches Execute within 25 s (`Containers.Punctual`), because
a queue whose task deadline has passed hands the slot on while Execute still cleans
up. The image theorems assume that images are not removed from the daemon.

Where code and documentation disagree, the model follows the code:

- A missing marker does not always mean a kill (`internal/executor/script.go:15-17`):
  the script also leaves it out, exiting 0, when its working directory is missing, and
  the capture limit can cut it off. A marker that is found can even be wrong, because
  the limit can cut through a number: a program that exits 1 can be stored with exit
  status 0. `Sandbox.MarkerFoundIff` and `Sandbox.ExitStatusIsRightIff` say exactly when.
- The backoff cap is five minutes *plus* two seconds (`internal/queue/queue.go:74`).
- Timeout and out-of-memory can both be reported, in exactly one case: a compile step
  that was killed in a container the daemon reports as OOM-killed.
- The promise never to treat a failed pull as done (`internal/executor/executor.go:397-398`)
  holds for errors that ImagePull or the copy of its stream return. The daemon reports
  later errors inside that stream, which is drained unread: such a pull looks good, its
  Once stays spent, and until something else brings the image every call for it
  fails without a pull (`ImagePull.PullStartsIff`, `ImagePull.StuckUntilItAppears`).
- Invalid UTF-8 is caught in requests (`internal/api/handlers.go:71-72`) but not in
  results: a program that prints it strands its own row, and the byte limits can turn
  valid output into invalid by cutting a character in half.
- A `RUN_TIMEOUT` below one second turns into `timeout 0`, which is no limit, and
  makes every killed run look like a timeout.
- Not every submission ends terminal: each of six faults can strand one, and nothing
  else does. A lost fail write leaves a row `running` for good and its webhook
  announces that state; together with a shutdown requeue it can be announced twice.

## Model

| member | source | states |
|---|---|---|
| `LifecyclePreservation.StepKeepsInv` | internal/worker/worker.go:60-183 | every step of every actor keeps the invariant: a live handler is the sole holder of its queue entry, between the status check and the result write its row is not terminal, and rows, requests, queue entries, webhooks and starts agree |
| `LifecyclePreservation.KeepsStoreResult` | internal/worker/worker.go:108-122 | storing a result, even when the statement reports an error, keeps the invariant: only a running row becomes completed |
| `LifecyclePreservation.KeepsFailEngine` | internal/worker/worker.go:96-103 | recording an engine failure, written or lost, keeps the invariant and happens only on the last attempt |
| `LifecyclePreservation.RunKeepsInv` | internal/worker/worker.go:60-183 | the invariant holds in every reachable state of every interleaving with crashes, retries, requeues and failed calls |
| `LifecycleTheorems.StatusMovesForward` | internal/db/submissions.sql.go:14-29 | in every run each step moves a status only queued to running, running to completed or failed, queued to failed, or not at all, although no statement checks it |
| `LifecycleTheorems.FinishedRowsAreFrozen` | internal/worker/worker.go:75-80 | rows are never deleted, the client's columns never change, and once terminal the whole row never changes again |
| `LifecycleTheorems.RowsAreWellShaped` | internal/db/submissions.sql.go:252-257 | completed rows have all result columns and no error, failed rows an error and no result, finished_at is set exactly when terminal, created_at <= started_at <= finished_at |
| `LifecycleTheorems.NothingIsLost` | internal/api/handlers.go:101-124 | every persisted row is terminal, still owned by its request, owned by exactly one live queue entry with at most one handler, or hit by a recorded fault |
| `LifecycleTheorems.FaultsHaveACause` | internal/worker/worker.go:185-203 | a fault is recorded exactly by the six named events: unconfirmed insert, request given up or abandoned, lost fail write, SQL error or crash on the last attempt |
| `LifecycleTheorems.RetriesHaveACause` | internal/worker/worker.go:96-106 | on the last attempt an engine error is never handed back to the queue: only SQL errors are |
| `LifecycleTheorems.SparedSubmissionsFinish` | internal/worker/worker.go:90-122 | a submission none of those events hits is terminal once its request is over and no live queue entry is left, whatever else failed |
| `LifecycleProgress.FinishableIff` | internal/worker/worker.go:60-137 | a submission without a fault can still be brought to a terminal row without one if and only if it is there already or its last attempt is not lost yet (to a SQL error, or to output that no text column takes), and then eight steps suffice |
| `LifecycleProgress.DoomedNeverFinishes` | internal/worker/worker.go:120-122 | once its last attempt is lost, no continuation without that fault ends with the row terminal |
| `LifecycleTheorems.HandlingTerminates` | internal/queue/queue.go:48-54 | at most 24 steps are ever spent on one execute entry over all its attempts, by a measure of retries left and handler position |
| `LifecycleTheorems.StartsAreBounded` | internal/queue/queue.go:50-53 | a program is started at most 1 + MaxRetry = 3 times, plus once per uncounted shutdown requeue |
| `LifecycleTheorems.StartsOnlyWhileRunning` | internal/worker/worker.go:90-95 | a program starts only while its row says running and with the request the row holds |
| `LifecycleHistory.RowsAreWhatClientsSent` | internal/api/handlers.go:87-94 | in every run each row holds, column by column, the request of an INSERT made for it, and the time of that INSERT as created_at |
| `LifecycleHistory.ProgramsAreWhatClientsSent` | internal/worker/worker.go:90-95 | hence the program that is started is the one the client's request carried |
| `LifecycleHistory.TimesAreThoseOfTheStatements` | internal/db/submissions.sql.go:252-257 | started_at is the time of the last MarkSubmissionRunning that was applied, finished_at that of the last CompleteSubmission or FailSubmission |
| `LifecycleAttempts.AttemptsFollowTheCode` | internal/worker/worker.go:60-137 | every attempt of every run makes its calls along one of the ways through handleExecute, early returns included, and returns the verdict that way ends in |
| `LifecycleAttempts.ProgramsNeedTheirPreparation` | internal/worker/worker.go:69-95 | a program is started only by an attempt that loaded the row, found its language and was told that the row is marked as running |
| `LifecycleAttempts.StoresWhatItsEngineReported` | internal/worker/worker.go:94-120 | what an attempt stores is the outcome the engine reported to that very attempt |
| `LifecycleAttempts.UnknownLanguageNeverRuns` | internal/worker/worker.go:82-88 | an attempt that finds its language unknown does nothing but try to record that |
| `LifecycleTheorems.HandlersFindTheirRow` | internal/worker/worker.go:69-74 | the row-not-found branch is unreachable for entries the API enqueued |
| `LifecycleTheorems.OneWebhook` | internal/worker/worker.go:169-183 | at most one webhook entry per submission across crashes and retries; with uncounted requeues, unless its fail write was lost |
| `LifecycleTheorems.WebhooksFollowTheResult` | internal/worker/worker.go:100-105 | a webhook exists only for a terminal row or one whose fail write was lost |
| `LifecycleTheorems.EveryPostIsTheFinalBody` | internal/worker/worker.go:142-167 | every delivery attempt posts the body of the final row, unless the fail write was lost |
| `LifecycleResults.StoredOutcomeIsReadBack` | internal/worker/worker.go:108-120 | a webhook body built from a stored row gives back every field of the outcome but the compile-error flag, which has no column |
| `LifecycleResults.StoredOutcomeIsWhatClientsGet` | internal/worker/worker.go:108-167 | once an outcome is stored, even by a statement that reports an error, the row says exactly that outcome in every later state, and so does every body posted unless a fail write was lost |
| `LifecycleResults.CompletedRowsCarryAnEngineOutcome` | internal/worker/worker.go:94-120 | every completed row of every run carries, column by column, an outcome the engine reported for that submission, all of it valid text |
| `LifecycleResults.UnstorableOutputNeverCompletes` | internal/worker/worker.go:108-122 | a submission all of whose reported outcomes are not valid UTF-8 is never completed |
| `LifecycleResults.FailedRowsNameTheirReason` | internal/worker/worker.go:82-103 | every failed row names something that happened to it: an engine error with its text, an unknown language, or an enqueue error |
| `LifecycleHistory.RecordedFailureIsWhatClientsGet` | internal/worker/worker.go:142-189 | once a failure is recorded the row says failed, with that text, that time and no result, in every later state, and so does every body posted unless a fail write was lost |
| `LifecycleHistory.FailureIsReadBack` | internal/worker/worker.go:142-167 | a webhook body built from a failed row carries its error, its times and its language |
| `LifecycleHistory.DeliveredIff` | internal/worker/worker.go:142-167 | in each step a webhook becomes delivered if and only if its delivery succeeded; a failed delivery, or a death on the way, leaves it to be tried again; each delivery posts the body of the row loaded for it |
| `LifecycleResults.WebhookGoesWhereAsked` | internal/worker/worker.go:169-183 | an enqueued webhook is for the handler's submission and its client's URL, and exists exactly if there is one and the enqueue happened |
| `LifecycleNecessity.OverlapReopensACompletedRow` | internal/db/submissions.sql.go:252-257 | with overlapping attempts a late MarkSubmissionRunning reopens a completed row |
| `LifecycleNecessity.AmbiguousEnqueueCompletesAFailedRow` | internal/api/handlers.go:112-124 | with ambiguous enqueue errors a failed row ends completed with its error still set |
| `LifecycleNecessity.EveryFaultCanStrand` | internal/worker/worker.go:90-122 | the list of faults is exact: each of the six, as the only fault of a run, leaves in any environment an unfinished row with no request, handler or live queue entry |
| `LifecycleNecessity.LostFailStrandsTheRow` | internal/worker/worker.go:185-189 | the lost fail write among them |
| `LifecycleNecessity.UnstorableOutputStrandsTheRow` | internal/worker/worker.go:108-122 | a program can strand its own row: in any environment one that prints bytes that are not valid UTF-8 is run three times and its row stays running |
| `LifecycleNecessity.RequeueNotifiesTwice` | internal/worker/worker.go:100-104 | a lost fail write followed by a shutdown requeue leads to two webhooks for one submission |
| `Worker.World.HandleExecute` | internal/worker/worker.go:60-137 | handleExecute, interleaved with anything, only adds a path of the lifecycle machine on which its handler goes from start to the verdict it returns, by exactly the call results its environment dealt it; its calls are one of the ways through the code |
| `Worker.World.ExecuteAndStore` | internal/worker/worker.go:94-137 | the half after MarkRunning as such a path: retry, terminal failure on the last attempt, or stored result and webhook |
| `Worker.World.EnqueueWebhook` | internal/worker/worker.go:169-183 | enqueueWebhook, interleaved with anything, adds a path that ends the handler with nil whatever the queue answers |
| `Worker.World.PutHook` | internal/worker/worker.go:169-183 | adds one webhook entry with an unused id for this submission and URL, or none without a URL or when the enqueue did not happen, and changes nothing else |
| `Worker.World.Fail` | internal/worker/worker.go:185-189 | writes the failed row or, the write being lost, changes nothing and goes on |
| `Worker.World.HandleCreateSubmission` | internal/api/handlers.go:87-132 | its steps are exactly: persist this request; give up, or enqueue; fail the row if the enqueue reported an error. 202 means a pending entry is queued, 503 that the row is failed and says why unless that write was lost, 500 exactly the named failures |
| `Worker.World.FailRequested` | internal/api/handlers.go:112-124 | sends FailSubmission and nothing else, after which the row is failed with the text about the enqueue unless the write was lost |
| `Worker.World.HandleWebhook` | internal/worker/worker.go:142-167 | loads the row and posts its body; returns nil if and only if both succeed, and otherwise leaves the webhook pending |
| `Worker.World.ProcessTask` | internal/worker/worker.go:60-137 | dequeue, handle, record: under the two hypotheses no finished row changes, all rows stay well shaped, nobody works on the entry afterwards, and it is finished, pending with one attempt more or archived as the verdict says |
| `Worker.World.GetSubmission` | internal/db/submissions.sql.go:174-199 | the row, no-rows or an error, changing nothing |
| `Worker.World.CreateSubmission` | internal/db/submissions.sql.go:82-86 | inserts a queued row with the schema's defaults unless the statement is lost before it is applied |
| `Worker.World.MarkSubmissionRunning` | internal/db/submissions.sql.go:252-257 | sets status and started_at of that row and no other, whatever its status was |
| `Worker.World.CompleteSubmission` | internal/db/submissions.sql.go:14-29 | sets status, result columns and finished_at of that row, leaving its error, and returns the updated row; an outcome that is not text is refused |
| `ImagePull.StepKeepsInv` | internal/executor/executor.go:376-419 | every interleaved step, a pull that looks good and brings nothing included, keeps the ownership of Once objects by runners and the link between map entry, spent Once and pull that reported success |
| `ImagePull.OnePullAtATime` | internal/executor/executor.go:388-408 | at most one pull of an image is in progress at a time |
| `ImagePull.OneSuccessfulPull` | internal/executor/executor.go:375-375 | at most one pull of an image per process reports no error |
| `ImagePull.DeleteRemovesOwnOnce` | internal/executor/executor.go:395-407 | a failing runner's Delete, which names only the reference, always removes its own Once |
| `ImagePull.NilMeansPresent` | internal/executor/executor.go:413-418 | a nil return and a cache entry both imply that the image is on the daemon |
| `ImagePull.NilFillsTheCache` | internal/executor/executor.go:377-379 | after a nil return every later call for that image answers from the cache without asking the daemon |
| `ImagePull.PullStartsIff` | internal/executor/executor.go:388-408 | with no pull of the image open, the next caller to reach the Once is not blocked, and starts a real pull if and only if no pull of it has reported success, whether or not that one brought the image |
| `ImagePull.FailureIsNotSticky` | internal/executor/executor.go:397-399 | hence a pull that reported its error can be repeated: the next caller starts a real pull, provided none looked good |
| `ImagePull.SilentFailureSticks` | internal/executor/executor.go:403-407 | for every image that is missing there is a run in which one pull looks good and brings nothing |
| `ImagePull.StuckUntilItAppears` | internal/executor/executor.go:388-415 | from such a state on, until something else brings the image, nobody pulls it again, nobody blocks on it and no call for it returns nil |
| `ImagePull.WaitersHaveALiveRunner` | internal/executor/executor.go:392-408 | a goroutine blocked in Do waits for a live runner of the same image that can step |
| `ImagePull.EnsureImageRefinesSpec` | internal/executor/executor.go:376-419 | forward simulation: every step of a run is a step, or a stutter, of inspect-or-pull without cache, map or Once, in which what a pull reports and whether it brings the image are independent, yes needs the image present and no a missed inspect with pulling off or a pull that is over |
| `ImageCalls.CallsFollowTheCode` | internal/executor/executor.go:376-419 | every call of every run does its operations along one of the ways through ensureImage and answers what that way ends in |
| `EnsureImage.Executor.Ensure` | internal/executor/executor.go:376-419 | ensureImage, interleaved with anything, adds a path of the pull machine on which its inspects say yes if and only if the daemon answers and has the image at that moment, and its pull ends as it was dealt; it answers what its way through the code ends in; a nil return means present and cached; an image there from the start is accepted without a pull; a call that has not returned is blocked in Do behind another goroutine's pull |
| `EnsureImage.Executor.PullOrWait` | internal/executor/executor.go:388-411 | LoadOrStore, Do, pull, delete on failure: ends at the confirming inspect, with an error, or blocked behind another goroutine's pull |
| `Markers.ExtractMarker` | internal/executor/executor.go:331-373 | the search, cut and field loop compute Extract for every input |
| `Markers.PatternDoesNotRecur` | internal/executor/executor.go:332-332 | the searched pattern cannot occur again inside the marker line, whatever the nonce |
| `Markers.ExtractUndoesEmit` | internal/executor/script.go:50-53 | for every program stderr, nonce without blank or newline, phase and int64 values, parsing stderr followed by emit's line gives back exactly that stderr and those values, negative CPU time as 0 |
| `Markers.NoncesAreClean` | internal/executor/executor.go:440-446 | every nonce newNonce makes has 41 characters, none of them a blank or newline |
| `Text.ParseIntOfDecimal` | internal/executor/executor.go:355-362 | every int64 survives being printed in decimal and parsed |
| `Text.ParseIntSaturates` | internal/executor/executor.go:355-362 | any integer in decimal is read exactly or as the nearest int64 |
| `Text.ParseIntOfNonsense` | internal/executor/executor.go:355-362 | what is empty, a bare sign or begins with neither digit nor sign is read as 0 |
| `Text.FieldsOfJoin` | internal/executor/executor.go:347-347 | splitting at blanks undoes joining with blanks |
| `Text.FieldsSplit` | internal/executor/executor.go:347-347 | white space separates fields, however much of it there is |
| `Text.CutAtFirst` | internal/executor/executor.go:348-351 | only the first `=` separates key and value, so base64 padding stays in the value |
| `Base64.RoundTrip` | internal/executor/executor.go:364-366 | decoding restores every encoded byte string |
| `Base64.DecodesIff` | internal/executor/executor.go:364-366 | apart from line breaks, decoded are exactly the strings of whole groups of four symbols of which the last may end in one or two `=` |
| `Base64.DecodeSkipsLineBreaks` | internal/executor/executor.go:364-366 | line breaks in the input change nothing |
| `Base64.QuadIs24Bits` | internal/executor/executor.go:131-131 | three bytes give the four 6-bit digits of their 24 bits |
| `Base64.SymbolsAreTheStandardOnes` | internal/executor/executor.go:131-131 | the symbols are those of table 1 of RFC 4648 |
| `Base64.TestVectors` | internal/executor/executor.go:131-131 | the examples of section 10 of RFC 4648, paddings included |
| `Base64.UnwrapIsIdentity` | internal/executor/script.go:67-67 | `base64` followed by `tr -d` of newlines is the unbroken encoding |
| `Capture.LimitedWriter.Write` | internal/executor/executor.go:456-470 | reports the whole chunk as written and keeps the buffer equal to the first `limit` bytes of all that was sent |
| `Capture.CopyStreams` | internal/executor/executor.go:231-241 | however output is cut into frames and interleaved, each buffer is the first `limit` bytes of its stream |
| `Capture.StreamsDoNotMix` | internal/executor/executor.go:231-241 | frames of one stream do not show in the other, wherever they come in between |
| `Capture.CuttingDoesNotMatter` | internal/executor/executor.go:231-241 | cutting a text into frames does not change its stream |
| `Capture.TakenIsValidIff` | internal/executor/executor.go:456-470 | the byte limit leaves valid text valid if and only if nothing is cut off or what is cut off begins with a whole character |
| `Capture.NothingIsLostUnderTheLimit` | internal/executor/executor.go:331-373 | if program stderr and marker fit the limit, both are recovered exactly |
| `Capture.CutBeforeThePattern` | internal/executor/executor.go:333-335 | if the limit cuts before the pattern is complete, no marker is found and the captured bytes pass through unchanged |
| `Capture.FoundIffPhaseCaptured` | internal/executor/executor.go:331-373 | a marker is found if and only if the limit lets at least one byte of the phase through, and then the program's stderr is recovered exactly |
| `Capture.ExtractOfCut` | internal/executor/executor.go:331-373 | for every limit, what the parser returns: the captured bytes and no marker until the phase gets through, then the program's stderr and each field as read from the bytes of it that were captured |
| `Capture.ValuesSurviveIff` | internal/executor/executor.go:347-370 | a marker that is found has the right exit status, CPU time, memory or seconds if and only if the last digit was captured or the value is the 0 that a missing field reads as, and the right phase if and only if all of it was |
| `Capture.CutCorruptsTheExitStatus` | internal/executor/executor.go:355-356 | a limit one byte past the pattern finds a marker with exit status 0 whatever the program returned; one just before the last digit of a status of 10 or more, a tenth of it |
| `Outcomes.BuildOutcome` | internal/executor/executor.go:275-318 | the step-by-step reconciliation of marker and daemon state computes Judged |
| `Sandbox.BothFlagsIff` | internal/executor/executor.go:302-316 | for every path of the script and stream that fits, timeout and OOM are both reported if and only if the compile step was killed and the daemon reports an OOM kill |
| `Sandbox.BothFlagsUnderAnyLimitIff` | internal/executor/executor.go:302-316 | for any limit, if and only if in addition the marker got through up to that exit status |
| `Sandbox.Script` | internal/executor/script.go:23-84 | on every path the script exits 0, and with a working directory its stream is what preceded the marker and one marker line, from which the parser gets back exactly that text and every value; without one it finds no marker |
| `Sandbox.CompilerDiagnosticsSurvive` | internal/executor/script.go:61-69 | for every compile log and framing, a limit of 22029 bytes suffices for the reported compile output to be its first 16384 bytes, with empty stderr, and for exit status, CPU time, memory, wall time, flags and stdout to be exact |
| `Sandbox.CompileOutputIsTextIff` | internal/executor/script.go:67-67 | a compile log of valid text can be stored if and only if its first 16384 bytes do not end inside a character |
| `Sandbox.RunIsReportedExactly` | internal/executor/script.go:72-83 | for every program stderr and framing that fits, stderr, exit status, CPU, memory and flags are reported exactly |
| `Sandbox.RunOutputIsTextIff` | internal/executor/executor.go:231-241 | a run that prints valid text can be stored if and only if the limit does not cut its standard output inside a character |
| `Sandbox.SetupFailureIsReported` | internal/executor/script.go:55-59 | a submission that could not be decoded is reported, field by field, as exit status 70 and not as a compile error |
| `Sandbox.MarkerFoundIff` | internal/executor/script.go:23-84 | for every path and limit a marker is found if and only if there was a working directory and the limit let a byte of the phase through |
| `Sandbox.ExitStatusIsRightIff` | internal/executor/executor.go:285-300 | for every path with a working directory and every limit, exactly when the reported exit status is the recorded one: with a marker, when its last digit was captured or it is 0; without, when the container's agrees |
| `Sandbox.WithoutAMarkerTheDaemonDecides` | internal/executor/executor.go:285-297 | whenever no marker is found, on every path and for every limit, the outcome is the daemon's exit status, wall time and OOM flag, field by field |
| `Sandbox.MissingMarkerWithoutAKill` | internal/executor/script.go:25-25 | without its working directory the script prints no marker and exits 0, and that outcome is reported |
| `Sandbox.FloodedStderrLosesTheVerdict` | internal/executor/executor.go:285-297 | a program whose stderr pushes the phase past the limit is judged by the container's exit status, wall time and OOM flag alone; its own exit status and CPU time are lost |
| `Sandbox.TimedOutIff` | internal/executor/executor.go:310-315 | exactly when a reported run counts as a timeout with floored clocks: exit status 137, no OOM, elapsed time plus the starting fraction of a second reaches the limit in whole seconds; hence always at the limit and never a full second before it |
| `Sandbox.TimeoutCanBeASecondEarly` | internal/executor/executor.go:310-315 | that second cannot be improved on: a kill arbitrarily little more than a whole second short of the limit can be called a timeout |
| `Sandbox.SubSecondLimitBlursTheVerdict` | internal/executor/executor.go:134-135 | with a limit below one second every killed run without OOM counts as a timeout |
| `Supervision.Engine.Execute` | internal/executor/executor.go:105-124 | path taken, outcome, requests sent and time of return for every behaviour of the daemon; among the requests a created container has exactly one remove, forced and last, a kill exactly when the budget was exceeded, an inspect exactly when it exited, both between wait and remove, attach before start and wait right after it |
| `Supervision.DaemonsViewIsReported` | internal/executor/executor.go:243-271 | without a marker the outcome of an execution has the exit status the wait delivered (0 if it delivered none), the wall time measured and the OOM flag the inspect told |
| `Supervision.RunOutcomeIsReported` | internal/executor/executor.go:243-271 | with a marker it has the run's own exit status and stderr, and the wall time and OOM flag of this execution |
| `Supervision.OutcomeIffExit` | internal/executor/executor.go:214-271 | there is an outcome if and only if the wait brought an exit; its wall time runs from the start request to the exit and lies within the budget |
| `Supervision.ExecutionTakesItsCalls` | internal/executor/executor.go:243-267 | below the limits of 10, 15 and 20 s and its deadline an execution takes exactly as long as its calls |
| `Supervision.Engine.RunContainer` | internal/executor/executor.go:196-271 | the same for the supervised part, with early returns on attach, start, wait and budget, and the outcome judged from what was captured |
| `Supervision.ExecutionIsBounded` | internal/executor/executor.go:110-123 | an execution ends within its budget plus 35 s, plus 30 s on the kill path, for all timeouts |
| `Supervision.ResultCanStillBeStored` | internal/api/handlers.go:103-106 | an execution ends within C + R + 65 s of the image check, so under 25 s of preamble leave a live context for the result write |
| `Supervision.TheMarginIsExact` | internal/api/handlers.go:103-106 | those 25 s are exact: the result can be stored in time under every daemon behaviour if and only if the preamble takes less |
| `Containers.ExecutionLeaksIff` | internal/executor/executor.go:105-124 | one Execute, sending the requests it was proved to send, is for every behaviour of the daemon a path that leaves containers as they were, except for leaking its own if and only if the create was lost or the remove failed |
| `Containers.ContainersAreConserved` | cmd/worker/main.go:73-77 | in every interleaving of such executions live containers are at most executions in flight plus leaks, and executions in flight at most the concurrency plus those whose task deadline passed |
| `Containers.LeaksHaveACause` | internal/executor/executor.go:429-438 | nothing but a lost create, a failed remove or a dying process ever leaks |
| `Containers.ConcurrencyBoundsContainers` | cmd/worker/main.go:73-77 | without a leak, and if every handler reaches Execute within 25 s of its start, there are never more containers than the worker's concurrency, and none when it is idle |
| `Containers.NobodyIsOverdue` | internal/api/handlers.go:103-106 | within those 25 s no execution outlives its task's deadline, so the queue never hands on a slot in use |
| `Containers.LateHandlersBreakTheBound` | internal/api/handlers.go:103-106 | with any longer way to Execute a worker with one slot can hold two containers although nothing leaks |
| `Backoff.DelayBounds` | internal/queue/queue.go:80-90 | every delay is at least 2 s and below min(2 * 2^n, 300) + 2 s, and the window never shrinks |
| `Backoff.FullJitter` | internal/queue/queue.go:80-90 | after n retries exactly the delays from 2 s to below min(2 * 2^n, 300) + 2 s are possible, each by exactly one draw |
| `Backoff.TotalDelayWhileDoubling` | internal/queue/queue.go:80-90 | k <= 8 retries wait at least 2k s and less than 2(2^k - 1) + 2k s in total |
| `Backoff.TotalDelayAtTheCap` | internal/queue/queue.go:80-90 | k >= 8 retries wait at least 2k s and less than 510 + 300(k - 8) + 2k s in total |
| `Config.EntryFitsIff` | internal/config/config.go:85-91 | the environment entry fits 131072 bytes with its terminator if and only if the code has at most 98292 bytes |
| `Config.LimitIsSafeIff` | internal/config/config.go:85-91 | a limit on source code keeps all entries within the bound if and only if it is at most 98292, so the validated 90000 does |
| `Config.LoadsIff` | internal/config/config.go:79-92 | a configuration that sets the three values loads, to those values, if and only if concurrency is at least 1 and the code limit at most 90000 |
| `Config.DefaultsLoad` | internal/config/config.go:59-66 | unset, they default to 64000, 64000 and 8 |
| `Config.AcceptedIff` | internal/api/handlers.go:52-86 | which requests are accepted, and that 413 is answered if and only if a size is what is wrong |
| `Config.AcceptedCodeArrives` | internal/api/handlers.go:61-65 | every code accepted under a validated configuration gives an entry of at most 120015 bytes that decodes to it byte for byte |

## Left out

- HTTP routing, JSON decoding, middleware, logging, polling and listing of submissions; of the request checks only their order and limits are modelled.
- Webhook URL validation, the HTTP delivery itself, and the limit on webhook retries: a webhook entry may be attempted any number of times, one attempt at a time.
- Text columns are taken to refuse invalid UTF-8 and nothing else, and the texts of engine errors to be valid.
- Malformed queue payloads: entries are the ones the API built.
- Language registry, container security settings, image warm-up at start-up and connection retries: constants and plumbing.
- The marker theorems take the nonce as given; its randomness and secrecy are not modelled.
- Text.FieldsOfJoin: splits at the six ASCII white-space bytes only, because emit prints ASCII; Go also splits at multi-byte Unicode spaces, which matters only for lines a program forged.
- Base64.RoundTrip: one decoder stands for both encoding/base64 and base64(1); they differ only in how they treat malformed input.
- Backoff.DelayBounds: the float64 power is taken as exact, which it is for 2 s times a power of two; overflow to infinity lands in the capped branch.
- Sandbox.TimedOutIff: the whole seconds of RUN_TIMEOUT are taken without float64 rounding, which differs only for limits of many years.
- Overflow of int64 durations and of the memory limit in kilobytes, which needs configured values near 2^63.
- The effect of reading cgroup files: their values are arbitrary integers.
- EnsureImage.Executor.Ensure: waiting in Do is not a loop; a call whose schedule ends while another goroutine runs the pull is reported as still blocked. Panics inside Do are not modelled.
- A process that outlives its program and writes to stderr after the marker: the marker is taken to be written last.
