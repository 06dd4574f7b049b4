# Edge AI monitor: a verified model of its protocols

The monitor watches workload logs on an edge node, has errors explained by a
local model, keeps one proposal per problem on disk, and forwards proposals to
event sinks and issue trackers through a store-and-forward spool. Each of these
steps is a small stateful protocol. This project models them in Dafny and
proves what they keep over every run: whatever the disk, the network, the
trackers, the language model and the arrival order of events do.

## How the model is laid out

Every protocol has the same three parts.

* A **value model** (`LifecycleModel`, `SpoolModel`, `AnalyzerModel`,
  `RemediationModel`, `RegistryModel`, `ExporterModel`; `ContextWindows` and
  `LogTail` hold theirs beside the class): the state, one function per
  operation, an `Event` type listing everything that can happen, and `Run`.
* **Classes** in the source's own imperative form (`Lifecycle`, `SpoolDirectory`,
  `Analyzer`, `Proposals`, `Registry`, `ExportService`, `LogMonitoring`, and the
  classes in `LogTail` and `ContextWindows`). Their methods update fields in place, loop
  where the source loops, and are proved to do to the object exactly what the
  value model says.
* **Theorems** about runs (`LifecycleRuns`, `LifecycleResolution`, `LifecycleComments`,
  `SpoolRuns`, `SpoolFates`, `SpoolOrder`, `SpoolBackoff`, `FileNames`, `AnalyzerRuns`,
  `Recurrence`, `Accounting`, `RegistryRuns`, `ContextRuns`, `ExporterRuns`,
  `ExporterDeliveries`, `Pipeline`, `Records`). They speak of what was handed in,
  answered and posted, in their own words, rather than through the functions the
  classes are proved against.

`ExporterModel` composes the spool with one lifecycle per tracker. Its
`ComponentsRunAsSpecified` shows that each component inside a running exporter
goes through a run of its own model, so the component theorems hold end to end.
`Accounting` composes the analyzer with the proposal store, and `LogMonitoring`
the log tailer with the context windows, in the same way. `Pipeline` follows
idempotency keys from the analyzer through the proposal store and the exporter
to the event sinks.

What the outside world answers (a tracker's replies, the model's answer, the
disk's success, the random jitter, the clock, which log files can be opened) is
part of each event, so "every run" ranges over every possible answer, and
producers may act between any two steps of a delivery pass or of an analysis,
and the service may restart between any two steps of the exporter.

## Assumptions

* A tracker operation that fails has no effect, a successful `create` returns a
  reference that is not empty and was never issued before, and outsiders only
  close issues. (GitHub's `reopen` is a PATCH followed by a comment,
  `issue_sinks.py:209-215`, so the first is an assumption about the tracker;
  `HalfDoneReopenOpensASecondIssue` shows what happens without it.)
* A `send` that raises may have arrived all the same; nothing is assumed of event
  sinks.
* Only the results about *order* (`SpoolOrder`), *schedules* (`SpoolBackoff`), the
  comment interval and the recurrence window and cache (`Recurrence`)
  restrict the clock: they need one that does not run backwards, and order also
  needs times below 10^10 s and fewer than 10^6 names taken by a process.
  `NamesSortExactly` says what happens beyond. Conservation needs no clock and no
  bound.
* A restarted service numbers its names from one again. Results that follow a
  record by its name assume `RestartsAdvance`: no put falls in the millisecond of
  a put before a restart. It holds of every run of one process
  (`OneProcessAdvances`), and `RestartMayReuseAName` shows what happens without it.
* The issue ledger is kept outside the spool directory. `build_exporter` puts it
  at `<spool>/issues-<name>.json` (`exporter.py:276`), where the spool's glob
  (`spool.py:143`) takes it for a record; the model describes the two as the
  code intends them, as separate files.
* Problem keys are a collision-free digest of the error signature, and the text
  form of a workload id determines its four parts, and no id is another one
  followed by a colon (files are unwatched by that prefix, `log_monitor.py:231-236`).
* Characters stand for bytes, and `\n` is the only line separator.

## Where the code does less than it says

Each of these is modelled as the code is, with a concrete failing input and the
exact condition under which the promise holds.

* *An issue seen again stays open while the occurrence is recent.* A successful
  reopen does not store the new `last_seen`, and noting an occurrence without a
  usable time does not date the issue, so a later sweep judges it by the old time
  and can close it at once: `RevivedIssueIsClosedAtOnce`, condition in
  `RecentOccurrenceKeepsIssueOpen`.
* *Reading in pieces returns the same lines as reading at once.* An empty line
  just before unfinished text is dropped, which also moves every later line
  number: `EmptyLineIsDropped`, condition in `EmptyLinesSurviveExactlyWhen` and
  `NumbersFollowTheFileExactlyWhen`.
* *An event's line number is the line's place in its file.* A rotation does not
  restart the count, and leading context may come from the old file:
  `RotationKeepsCounting`, exact offset in `EventsAreNumberedInTheFile`.
* *Only opted-in workloads are read, and every monitorable one is.* A change of
  opt-in while a workload keeps running is not acted on, and a log file that
  could not be opened when it started running is not tried again:
  `LateOptInIsNotTailed`, `UnreadablePathIsNeverRetried`, condition in
  `UpToDateExactlyWhen`.
* *A genuinely new occurrence produces a new idempotency key.* Not always after
  a failed proposal write or an unreadable proposal:
  `UnstoredProposalRepeatsItsKey`, `UnreadableProposalRepeatsItsKey`, condition
  for any two results of a run in `KeyRepeatsExactlyWhen`.
* *The occurrence tally counts occurrences.* An error that recurs during its own
  successful analysis is miscounted for good:
  `RecurrenceDuringAnalysisCountsTwice`, condition in
  `ProposalTotalIsExactExactlyWhen`.
* *Every queued record is counted once.* A record shed or purged while its
  delivery is under way is counted again by its outcome, and a put after a
  restart may replace a file: `ShedInFlightCountsTwice`, `RestartMayReuseAName`,
  condition in `BooksBalanceExactlyWhen` and `NamesCollideExactlyWhen`.
* *A retry after an ambiguous failure can be recognised as a duplicate.* Delivery
  is at least once, not exactly once: `AmbiguousFailureIsSentAgain`, condition for
  a record to be received again in `ReceivedAgainExactlyWhen`. The promise itself
  holds: `KeysIdentifyRecords`, and end to end `SinksCanTellRecordsApart`.
* *Lexical order of spool names is arrival order.* Not at the millionth record of
  a process: `MillionthNameSortsEarly`, condition for numbers of any length in
  `NamesSortExactly`.

## Model

| member | source | states |
|---|---|---|
| `LifecycleRuns.OneOpenIssuePerProblem` | src/edge_ai_monitor/export/lifecycle.py:143-310 | over every run of occurrences, sweeps, restarts, tracker failures and outside closings, a problem has at most one open issue, it is the ledger's reference, and a problem the ledger calls resolved has none open |
| `LifecycleRuns.RunKeepsLinks` | src/edge_ai_monitor/export/lifecycle.py:143-310 | the invariant behind it: each ledger entry names an existing issue of its own problem, and each open issue is the one its problem's open entry names |
| `LifecycleRuns.RaisesExactlyWhen` | src/edge_ai_monitor/export/lifecycle.py:143-267 | `handle` raises exactly when a create it needs, or a comment it owes, is refused; it opens an issue exactly when one is needed and granted |
| `LifecycleRuns.RaisingChangesNothing` | src/edge_ai_monitor/export/lifecycle.py:158-267 | a `handle` that raises leaves ledger, tracker, log and counters as they were |
| `LifecycleRuns.FailedAttemptsLeaveNoTrace` | src/edge_ai_monitor/export/lifecycle.py:158-267 | a run with retries ends in the state its successful attempts alone lead to |
| `LifecycleRuns.OthersUntouched` | src/edge_ai_monitor/export/lifecycle.py:143-267 | handling one problem changes no other problem's entry, issues or posts |
| `LifecycleRuns.HistoryNamesEveryIssue` | src/edge_ai_monitor/export/lifecycle.py:164-267 | a ledger entry's history lists exactly the tracker's issues for its problem, once each, the current one last, across reopening, recreation, closing and restart |
| `LifecycleRuns.OpensExactlyWhen` | src/edge_ai_monitor/export/lifecycle.py:143-267 | a handled record opens one issue exactly when none exists or the old one cannot be revived, and otherwise none |
| `LifecycleRuns.OneIssueForever` | src/edge_ai_monitor/export/lifecycle.py:158-267 | with a tracker whose reopen always works, no problem ever gets a second issue |
| `LifecycleRuns.RoutineCommentsAreRateLimited` | src/edge_ai_monitor/export/lifecycle.py:131-132 | every routine comment is a full interval later than every earlier post on its problem, across revised analyses, reopens, recreations and restarts |
| `LifecycleRuns.RoutineCommentsFit` | src/edge_ai_monitor/export/lifecycle.py:164-260 | routine comments times the interval fit between a problem's first issue and its latest post |
| `LifecycleRuns.IntervalsMultiply` | src/edge_ai_monitor/export/lifecycle.py:131-132 | the time n intervals take, as used in that bound, is n times the interval |
| `LifecycleResolution.SweepClosesItsTickets` | src/edge_ai_monitor/export/lifecycle.py:271-310 | a sweep closes an open issue exactly when its reference time is at least the window old and the tracker agrees, and marks its entry resolved |
| `LifecycleResolution.SweepingAgainFinishesTheJob` | src/edge_ai_monitor/export/lifecycle.py:271-310 | a second sweep at the same time makes up for refused closings, reaching the state of a sweep without refusals; a third closes nothing |
| `LifecycleResolution.OccurrenceIsRemembered` | src/edge_ai_monitor/export/lifecycle.py:164-267 | a handled occurrence leaves its problem open with its time, tally and announced cause stored; reviving keeps all the old ones, a quiet note the old cause, a missing time or cause replaces none, and a quiet note of no occurrences changes no tally; the issue is dated when something was posted on it, and only then, and is open on the tracker once revived or opened |
| `LifecycleResolution.ClosedExactlyWhenStale` | src/edge_ai_monitor/export/lifecycle.py:271-310 | over any run in which its problem is not seen again, an open issue's entry stays as it is until a sweep finds it at least the window old and the tracker agrees, and is resolved exactly then |
| `LifecycleResolution.RecentOccurrenceKeepsIssueOpen` | src/edge_ai_monitor/export/lifecycle.py:191-310 | over any run in which the problem is not seen again and every sweep comes within the window of its latest occurrence, the issue is open at the end if and only if that occurrence did not leave it with an older time that some sweep finds too old, by reviving it or by having no usable time itself |
| `LifecycleResolution.StaysOpenExactlyWhen` | src/edge_ai_monitor/export/lifecycle.py:191-310 | whatever the sweeps: until the problem is seen again the issue of an occurrence is open if and only if no sweep that the tracker obeys comes a window after the time the occurrence left it with |
| `LifecycleResolution.RevivedIssueIsClosedAtOnce` | src/edge_ai_monitor/export/lifecycle.py:240-252 | the failing run, from an empty ledger: opened, closed after a day, reopened for a fresh occurrence, and closed by a sweep at the same instant |
| `LifecycleResolution.HalfDoneReopenOpensASecondIssue` | src/edge_ai_monitor/export/issue_sinks.py:209-215 | a reopen that takes effect and then reports failure makes the lifecycle open a second issue, so the assumption about failing operations is needed |
| `LifecycleResolution.DryRunTouchesNothing` | src/edge_ai_monitor/export/lifecycle.py:140-141 | in dry run no sequence of occurrences, sweeps and restarts opens, posts on, reopens or closes anything |
| `LifecycleResolution.CountersMatchTheLog` | src/edge_ai_monitor/export/lifecycle.py:120-124 | since the last restart the created, updated, reopened and skipped counters equal what the tracker accepted and what fell below the threshold |
| `LifecycleResolution.ResolvedMatchesTheLedger` | src/edge_ai_monitor/export/lifecycle.py:120-124 | since the last restart the resolved counter equals the number of times an issue went from open to resolved |
| `LifecycleComments.CommentsExactlyWhen` | src/edge_ai_monitor/export/lifecycle.py:191-226 | over every run, a comment is posted on an open issue if and only if the tracker takes it and the record either gives another cause than the one last announced, which makes it a revised analysis, or comes an interval after the last post on the problem |
| `LifecycleComments.NothingNewIsNotSaid` | src/edge_ai_monitor/export/lifecycle.py:194-206 | no comment storm: a record with the cause already announced, less than an interval after the last post, adds nothing to the tracker and leaves the issue open |
| `LifecycleComments.LedgerRemembers` | src/edge_ai_monitor/export/lifecycle.py:164-226 | after any run a ledger entry tells when something was last posted on its problem, and the cause last announced by opening or commenting |
| `LifecycleComments.PostsAndReturns` | src/edge_ai_monitor/export/lifecycle.py:143-267 | what one occurrence adds to the tracker, cross-link included, and the reference `handle` returns, which is the one of the issue that then stands for the problem |
| `LifecycleComments.UndatedIssueClosesExactlyWhen` | src/edge_ai_monitor/export/lifecycle.py:277-282 | over every run, a sweep closes an issue without a usable time if and only if nothing was posted on it for the window, and the tracker agrees |
| `Lifecycle.IssueLedger.Load` | src/edge_ai_monitor/export/lifecycle.py:59-71 | loading rebuilds one state object per well-formed entry, agreeing with it field by field, skips the others, and starts empty without a readable file |
| `Lifecycle.LoadsWhatWasSaved` | src/edge_ai_monitor/export/lifecycle.py:59-83 | loading the document written for a ledger gives that ledger back |
| `Lifecycle.IssueLifecycle.Handle` | src/edge_ai_monitor/export/lifecycle.py:143-162 | the objects move to the state of the decision table, and return or raise accordingly |
| `Lifecycle.IssueLifecycle.Create` | src/edge_ai_monitor/export/lifecycle.py:164-189 | nothing changes in dry run or when the tracker refuses; otherwise entry, issue, log and counter are as for a new issue |
| `Lifecycle.IssueLifecycle.Update` | src/edge_ai_monitor/export/lifecycle.py:191-228 | an open issue is noted quietly, commented on, revised, or handed to reopening, exactly as the decision table says |
| `Lifecycle.IssueLifecycle.Reopen` | src/edge_ai_monitor/export/lifecycle.py:230-267 | the old issue is revived, or a new linked one takes its place with the history kept |
| `Lifecycle.IssueLifecycle.ResolveStale` | src/edge_ai_monitor/export/lifecycle.py:271-310 | the loop over live state objects has the effect of the sweep, in any order of visits, and returns the number closed |
| `SpoolRuns.ShedIsLongestFit` | src/edge_ai_monitor/export/spool.py:217-241 | shedding leaves the longest suffix, oldest dropped first, that fits the ceiling, also when a single record is larger than it |
| `SpoolRuns.SheddingIsOnline` | src/edge_ai_monitor/export/spool.py:98-120 | shedding before a record arrives never loses what shedding afterwards would have kept |
| `SpoolOrder.SurvivorsAreLongestFit` | src/edge_ai_monitor/export/spool.py:98-120 | after any number of puts the survivors are the longest fitting suffix of everything ever put, and the rest are counted dropped |
| `SpoolRuns.RunIsFaithful` | src/edge_ai_monitor/export/spool.py:98-203 | however often its delivery failed and the service restarted, every record listed or in flight has the sink, payload and queueing time it was handed in with |
| `SpoolOrder.PendingIsOldestFirst` | src/edge_ai_monitor/export/spool.py:140-149 | while times and the numbers of names taken fit their widths, the listing is in arrival order, across restarts too |
| `SpoolRuns.NothingIsLostSilently` | src/edge_ai_monitor/export/spool.py:98-254 | in every run, with puts and restarts allowed at any moment, on disk + delivered + dropped + expired + replaced = found at the start + queued + outcomes recorded for a record gone meanwhile |
| `SpoolRuns.BooksBalanceExactlyWhen` | src/edge_ai_monitor/export/spool.py:172-203 | found + queued = on disk + delivered + dropped + expired if and only if as many outcomes were recorded for records shed or purged while in flight as puts replaced a file; without a millisecond shared across a restart, if and only if there was no such outcome |
| `SpoolRuns.NothingIsOverwritten` | src/edge_ai_monitor/export/spool.py:92-113 | while no put shares the millisecond of one before a restart, no put replaces a file |
| `SpoolRuns.RestartMayReuseAName` | src/edge_ai_monitor/export/spool.py:92-96 | the failing input otherwise: put, restart and put in one millisecond, and the first record is gone without a count |
| `SpoolRuns.ShedInFlightCountsTwice` | src/edge_ai_monitor/export/spool.py:172-203 | the failing input: a record shed during its own delivery is counted as dropped and as delivered |
| `SpoolRuns.DeliveredOnce` | src/edge_ai_monitor/export/spool.py:151-176 | no record is reported delivered twice, and a delivered record is neither on disk nor in the rest of the pass, across restarts too |
| `SpoolFates.EveryDueRecordIsListed` | src/edge_ai_monitor/export/spool.py:140-153 | in every run, a delivery pass begins with exactly the records whose backoff has elapsed, in listing order, whatever stands before them |
| `SpoolFates.ShedExactlyWhen` | src/edge_ai_monitor/export/spool.py:217-241 | a file is shed if and only if it and everything that sorts after it are more bytes than the ceiling |
| `SpoolFates.FailureExactlyWhen` | src/edge_ai_monitor/export/spool.py:177-203 | a failure removes a record past the age limit; any other it rewrites with one more attempt, to be tried again after between half and all of the doubled wait, at most an hour, even if its file had gone |
| `SpoolFates.LeavesExactlyWhen` | src/edge_ai_monitor/export/spool.py:98-254 | over every run, a record leaves the directory if and only if it is delivered, fails or is purged later than the age limit after it was handed in, or is shed |
| `SpoolFates.ComesExactlyWhen` | src/edge_ai_monitor/export/spool.py:98-203 | and a name comes into it only by a put that fits, or by rewriting a record shed or purged while in flight |
| `SpoolFates.CountersTellWhatHappened` | src/edge_ai_monitor/export/spool.py:112-254 | each of the four counters goes up by the records its own kind of event concerns, and by nothing else |
| `SpoolFates.NameTellsArrival` | src/edge_ai_monitor/export/spool.py:92-96 | a name gives the whole milliseconds of its arrival and its number in the process |
| `SpoolDirectory.Spool.Put` | src/edge_ai_monitor/export/spool.py:98-120 | stores under the next name, sheds, counts, and says where it went, or changes only what a failing disk lets it |
| `SpoolDirectory.Spool.EnforceLimits` | src/edge_ai_monitor/export/spool.py:217-241 | the unlinking loop with its running total leaves exactly the shed listing and counts what went |
| `SpoolDirectory.Spool.Due` | src/edge_ai_monitor/export/spool.py:151-153 | the snapshot holds the records whose next attempt has come, in listing order |
| `SpoolDirectory.Spool.Fail` | src/edge_ai_monitor/export/spool.py:178-203 | an expired record goes and is counted; another is rewritten with one more attempt and a jittered delay |
| `SpoolDirectory.Spool.PurgeExpired` | src/edge_ai_monitor/export/spool.py:243-254 | the loop removes exactly the expired records and returns their number |
| `SpoolBackoff.DelaysGrowUntilCapped` | src/edge_ai_monitor/export/spool.py:54-65 | for every jitter, a delay is never longer than the next one if and only if the next one is not cut by the maximum |
| `SpoolBackoff.AttemptsAreBounded` | src/edge_ai_monitor/export/spool.py:178-213 | with a clock that does not run backwards, and across restarts, a record on disk that failed k times has waited out k-1 delays within its age limit: their nominal sum is at most twice the limit |
| `SpoolBackoff.DefaultAttemptLimit` | src/edge_ai_monitor/export/spool.py:25-28 | with the shipped base, maximum and age limit no record on disk has more than 342 attempts |
| `FileNames.NamesSortExactly` | src/edge_ai_monitor/export/spool.py:92-96 | for numbers of any length, where two names sort: by milliseconds, or by sequence number if those are equal, each compared digit by digit over the shorter text |
| `FileNames.PadIsAsWideAsNeeded` | src/edge_ai_monitor/export/spool.py:92-96 | how long those texts are: the width asked for, or as many digits as the number has |
| `FileNames.NamesFollowArrival` | src/edge_ai_monitor/export/spool.py:92-96 | while numbers fit their widths, names sort by clock and then sequence number, whatever the sinks |
| `FileNames.NamesCollideExactlyWhen` | src/edge_ai_monitor/export/spool.py:92-96 | two puts share a name if and only if they share the millisecond, the sequence number and the sink |
| `FileNames.MillionthNameSortsEarly` | src/edge_ai_monitor/export/spool.py:92-96 | the failing input: sequence number 1000000 sorts before 999999 in the same millisecond |
| `AnalyzerRuns.QueueIsSound` | src/edge_ai_monitor/error_analyzer.py:142-265 | in every reachable state the index and the queue hold the same items, one per signature, never more than the capacity, and admitted = dropped + analysed + failed + queued + in flight |
| `AnalyzerRuns.PopTakesTheMostUrgent` | src/edge_ai_monitor/error_analyzer.py:220-226 | the item taken is ahead of every item left, by rank and then arrival |
| `AnalyzerRuns.VictimIsShedFirst` | src/edge_ai_monitor/error_analyzer.py:201-206 | the item chosen for shedding has the lowest rank, and within that rank arrived first |
| `AnalyzerRuns.FullQueueTakesExactlyWhen` | src/edge_ai_monitor/error_analyzer.py:184-218 | a full queue takes a new error if and only if some waiting error is less urgent, and sheds the longest waiting of the least urgent; otherwise it stays as it is, and either way one is counted dropped |
| `AnalyzerRuns.InsertAllSorts` | src/edge_ai_monitor/error_analyzer.py:177-216 | the reference for the next row is a descending arrangement of exactly the same ranks |
| `AnalyzerRuns.LargestIsPrefix` | src/edge_ai_monitor/error_analyzer.py:192-199 | keeping the k largest of a descending arrangement is taking its first k |
| `AnalyzerRuns.ShedsAllButTheLargest` | src/edge_ai_monitor/error_analyzer.py:177-216 | between two analyses the queued ranks end as the `capacity` largest of those waiting and all admitted since, in any order of arrival, and the rest are counted dropped |
| `Analyzer.ErrorAnalyzer.Submit` | src/edge_ai_monitor/error_analyzer.py:142-199 | the heap, index, cache and counters move to the state of the error's fate: aggregated, served from cache, rejected, displacing another, or queued |
| `Analyzer.Backlog.Lowest` | src/edge_ai_monitor/error_analyzer.py:201-206 | the scan finds the item the specification sheds |
| `Analyzer.Backlog.Aggregate` | src/edge_ai_monitor/error_analyzer.py:149-157 | the shared item takes the new count, seen through heap and index alike |
| `Analyzer.ErrorAnalyzer.GetCached` | src/edge_ai_monitor/error_analyzer.py:275-284 | a hit exactly when an entry has not expired; a miss forgets the entry |
| `Analyzer.ErrorAnalyzer.TakeNext` | src/edge_ai_monitor/error_analyzer.py:220-226 | takes the head of the queue into analysis and drops it from the index |
| `Analyzer.ErrorAnalyzer.Conclude` | src/edge_ai_monitor/error_analyzer.py:236-265 | an answer is counted, cached and emitted; a failure is counted |
| `Recurrence.ItemsCountTheWindow` | src/edge_ai_monitor/error_analyzer.py:84-90 | with a clock that does not run backwards and over runs of any length, a waiting error stands for exactly its own submissions no further back than the window when it was last submitted |
| `Recurrence.ResultsCountTheWindow` | src/edge_ai_monitor/error_analyzer.py:220-270 | an analysed result stands for that count as it was when its item was taken, and a failed analysis hands on nothing; each is counted as what it was |
| `Recurrence.AnsweredFromCacheExactlyWhen` | src/edge_ai_monitor/error_analyzer.py:157-177 | an error that is not waiting is answered from the cache if and only if its latest successful analysis ended no longer ago than results are kept, with what that analysis found, for one occurrence |
| `Accounting.RunIsTallied` | src/edge_ai_monitor/error_analyzer.py:142-265 | with one error's submissions in one window, and its own cached results outliving them, its waiting item stands for all of them, and its emissions are exact until an analysis succeeds with an overtaken item, then too few while the overtaking item lives, and too many once it is analysed |
| `Accounting.WindowSuffices` | src/edge_ai_monitor/error_analyzer.py:18-19 | when results are cached at least as long as the window, as shipped, and the clock does not run backwards, one window for the error's submissions is all these results need |
| `Accounting.TallyIsExactExactlyWhen` | src/edge_ai_monitor/error_analyzer.py:84-90 | the emissions of an analysed error sum to its submissions if and only if no analysis of it ever succeeded with an overtaken item; an error never analysed has none |
| `Accounting.ProposalTotalIsExactExactlyWhen` | src/edge_ai_monitor/remediation.py:214-253 | an error has a proposal if and only if it was analysed, and the proposal totals exactly its submissions, despite aggregation, shedding, rejection, failure and cache hits, if and only if no analysis of it ever succeeded with an overtaken item |
| `Accounting.ProposalsCountEveryOccurrence` | src/edge_ai_monitor/remediation.py:214-253 | in particular the total is exact when the error never recurs during its own analysis |
| `Accounting.EveryItemCounts` | src/edge_ai_monitor/error_analyzer.py:142-265 | nothing is ever queued, analysed or emitted for zero occurrences |
| `Accounting.EmissionsGetDistinctKeys` | src/edge_ai_monitor/export/records.py:65-73 | the proposals made from any analyzer run get pairwise distinct idempotency keys while writes succeed |
| `Accounting.RecurrenceDuringAnalysisCountsTwice` | src/edge_ai_monitor/error_analyzer.py:220-265 | the failing input: two submissions that end as a total of three |
| `RemediationModel.DocumentIsTheDigest` | src/edge_ai_monitor/remediation.py:214-253 | whatever could be read or written, a problem's stored proposal is the digest of the events it stems from: total, number of real inferences, first and last sighting, latest findings, and latest delivery note per sink |
| `RemediationModel.EverythingIsRetained` | src/edge_ai_monitor/remediation.py:214-253 | while a problem's own proposal can be read and written, whatever happens to others, those events are its whole history |
| `RemediationModel.KeysNeverRepeat` | src/edge_ai_monitor/remediation.py:234-243 | while a problem's own proposal can be read and written, no other exported record shares an idempotency key with one of its records |
| `RemediationModel.HandoutCounts` | src/edge_ai_monitor/remediation.py:214-253 | in any run of readable and unreadable reads, stored and failed writes, a result is exported with the occurrences stored since its tally last started over, and its own |
| `RemediationModel.KeyRepeatsExactlyWhen` | src/edge_ai_monitor/remediation.py:292-304 | for any two results of a problem in any run: counting from one start they share a key if and only if the earlier was not stored and equals what was stored between plus the later; counting from different starts, if and only if their two sums are equal |
| `RemediationModel.OtherProblemsHaveOtherKeys` | src/edge_ai_monitor/export/records.py:65-73 | results of different problems never share a key, whatever the disk does |
| `RemediationModel.UnstoredProposalRepeatsItsKey` | src/edge_ai_monitor/remediation.py:292-304 | the failing input: two results of one problem, the first not stored, exported under one key |
| `RemediationModel.UnreadableProposalRepeatsItsKey` | src/edge_ai_monitor/remediation.py:222-227 | another: every write succeeds, one proposal cannot be read back, and a key is used again |
| `Proposals.RemediationGenerator.HandleResult` | src/edge_ai_monitor/remediation.py:292-304 | merges, stores and hands on; the store stays the one its history leads to, and written, updated and failed proposals add up, written being one per stored problem |
| `Proposals.RemediationGenerator.MergeWithExisting` | src/edge_ai_monitor/remediation.py:214-243 | field by field the merge keeps the first sighting and the exports, adds the occurrences, and counts an analysis unless it came from the cache |
| `Proposals.RemediationGenerator.RecordDelivery` | src/edge_ai_monitor/remediation.py:306-330 | a delivery note touches only its own sink's entry of a proposal that is there |
| `Records.PayloadIsShaped` | src/edge_ai_monitor/export/records.py:123-150 | the layered construction gives exactly the fields a level may show, each with the proposal's value |
| `Records.ContentNeedsConsent` | src/edge_ai_monitor/export/records.py:153-167 | what a proposal says beyond its metadata can influence a payload if and only if a content level was asked for and consented to |
| `Records.LevelsAreNested` | src/edge_ai_monitor/export/records.py:123-150 | metadata, analysis and full payloads form a chain of sub-maps |
| `Records.KeysAreInjective` | src/edge_ai_monitor/export/records.py:65-73 | an idempotency key determines its problem key and tally, even when the problem key itself contains hyphens and digits |
| `ExporterRuns.ComponentsRunAsSpecified` | src/edge_ai_monitor/export/exporter.py:72-176 | inside a running exporter the spool and each tracker's lifecycle go through runs of their own models |
| `ExporterDeliveries.WhatIsFiled` | src/edge_ai_monitor/export/exporter.py:72-97 | the document filed for a sink holds exactly the fields its level and the consent let through, the lookup failing counting as no consent, with the proposal's values, and a key made of problem and total |
| `ExporterDeliveries.WhatATrackerReads` | src/edge_ai_monitor/export/exporter.py:131-143 | a lifecycle reads from its copy the proposal's own severity, key, time and tally, and its cause exactly when that may be said |
| `ExporterDeliveries.SubmittedIsQueued` | src/edge_ai_monitor/export/exporter.py:87-102 | a copy the disk takes is counted as queued, and is there to be delivered at once if it fits |
| `ExporterDeliveries.EveryDueRecordIsAttempted` | src/edge_ai_monitor/export/exporter.py:112-119 | a pass attempts exactly the records that are due |
| `ExporterDeliveries.PurgedExactlyWhen` | src/edge_ai_monitor/export/exporter.py:192-196 | purging throws away exactly the records past the age limit |
| `ExporterDeliveries.AttemptSettlesExactlyWhen` | src/edge_ai_monitor/export/exporter.py:131-161 | in every run, an attempt takes its record off the spool and counts it as delivered if and only if its event sink acknowledged it, its lifecycle handled it without raising, or its sink is not configured; otherwise an unexpired record is on disk with one more attempt |
| `ExporterDeliveries.ReturnsTrueExactlyWhen` | src/edge_ai_monitor/export/exporter.py:131-164 | an attempt returns true if and only if the record was acknowledged or handled |
| `ExporterDeliveries.OnlyItsTrackerMoves` | src/edge_ai_monitor/export/exporter.py:141-143 | the lifecycle of the record's tracker handles it once and no other is touched |
| `ExporterDeliveries.DeliveredWasSettled` | src/edge_ai_monitor/export/exporter.py:131-161 | over every run, nothing counts as delivered without an attempt that was acknowledged, handled without raising, or made for a sink not configured |
| `ExporterDeliveries.SweepReachesEveryTracker` | src/edge_ai_monitor/export/exporter.py:166-176 | a sweep sweeps every tracker with its own refusals, and touches neither spool nor receipts |
| `ExporterRuns.OneOpenIssuePerProblemAndTracker` | src/edge_ai_monitor/export/exporter.py:131-176 | through retries, outages, shedding, sweeps and outside closing, each tracker has at most one open issue per problem |
| `ExporterRuns.OneIssueHoweverManyAttempts` | src/edge_ai_monitor/export/exporter.py:131-164 | on a tracker that always reopens, whatever the others do, a problem gets one issue however many records, failed attempts and restarts there were |
| `ExporterRuns.NothingIsLostSilently` | src/edge_ai_monitor/export/exporter.py:112-164 | in every run the spool's books balance while the exporter submits, delivers and purges, records for removed sinks included |
| `ExporterRuns.ReceiptsAreGenuine` | src/edge_ai_monitor/export/exporter.py:131-141 | whatever reaches an event sink, acknowledged or not, is the payload that was filed for it, with the key it was filed with, however often it is sent again |
| `ExporterRuns.DeliveredIsReceived` | src/edge_ai_monitor/export/exporter.py:136-161 | at least once: no record is taken off the spool as delivered that its event sink did not receive |
| `ExporterRuns.ReceivedAgainExactlyWhen` | src/edge_ai_monitor/export/exporter.py:136-153 | a record is received more than once if and only if some attempt arrived although it raised, and a later attempt arrived |
| `ExporterRuns.AmbiguousFailureIsSentAgain` | src/edge_ai_monitor/export/exporter.py:136-153 | the failing input for exactly once: a send that times out after it was accepted is sent again, with the same key and payload |
| `ExporterRuns.KeysIdentifyRecords` | src/edge_ai_monitor/export/exporter.py:87-97 | if the proposals filed for an event sink have different idempotency keys, then of everything it ever receives two deliveries with one key are the same record with the same payload |
| `Pipeline.DistinctHandoutsAreFiledDistinct` | src/edge_ai_monitor/export/exporter.py:87-97 | proposals whose problem and total make different keys are filed for a sink under different keys, at every level and consent |
| `Pipeline.SinksCanTellRecordsApart` | src/edge_ai_monitor/export/records.py:65-73 | end to end, for any analyzer run whose proposals are stored and handed on: two deliveries to a sink with one key are the same record with the same payload |
| `Pipeline.StoredProposalsAreToldApart` | src/edge_ai_monitor/remediation.py:234-243 | the same for any history of results and delivery notes in which proposals can be read and written |
| `ExporterRuns.UnconsentedContentLeavesNoTrace` | src/edge_ai_monitor/export/exporter.py:72-142 | two runs that differ only in the content of unconsented proposals leave the same files, receipts and tracker operations |
| `ExportService.Exporter.Resumed` | src/edge_ai_monitor/export/exporter.py:31-61 | started again on the directory and the ledgers a run left behind, the object stands where the model's restart leads |
| `ExportService.Exporter.Submit` | src/edge_ai_monitor/export/exporter.py:72-102 | the loop over sinks files one redacted copy per sink and returns how many were stored |
| `ExportService.StoredIsQueued` | src/edge_ai_monitor/export/exporter.py:72-102 | the number returned is by how much the spool's own count of queued records went up |
| `ExportService.Exporter.DeliverOnce` | src/edge_ai_monitor/export/exporter.py:112-129 | a pass attempts the records of its snapshot in order, until done or stopped, with anything handed in between its attempts, and returns how many succeeded; the object stays in a state the model reaches |
| `ExportService.Exporter.Deliver` | src/edge_ai_monitor/export/exporter.py:131-164 | one attempt goes to an event sink, a lifecycle, or nobody, and ends in success, a scheduled retry, or a discarded record |
| `ExportService.Exporter.SweepResolutions` | src/edge_ai_monitor/export/exporter.py:166-176 | the loop over lifecycles sweeps each of them once and returns how many issues were closed |
| `ExportService.ClosedIsResolved` | src/edge_ai_monitor/export/exporter.py:166-176 | the number returned is by how much the trackers' own counts of resolved issues went up |
| `LogTail.TailedFile.ReadNewLines` | src/edge_ai_monitor/log_monitor.py:130-171 | one read of a missing, unopenable or readable file returns the newly completed lines, holds back the rest, and starts afresh after a noticed rotation |
| `LogTail.CutMakesUpTheText` | src/edge_ai_monitor/log_monitor.py:163-171 | the lines and the held-back rest are the text cut at every newline, and only there |
| `LogTail.TailingIsChunkIndependent` | src/edge_ai_monitor/log_monitor.py:146-171 | however a text is split across reads, the non-empty lines returned and the text held back are those of the whole text |
| `LogTail.EmptyLinesSurviveExactlyWhen` | src/edge_ai_monitor/log_monitor.py:165-171 | all lines, empty ones included, are returned if and only if no chunk, continuing the unfinished text before it, ends unfinished right after an empty line |
| `LogTail.EmptyLineIsDropped` | src/edge_ai_monitor/log_monitor.py:165-171 | the failing input: an empty line followed by one unfinished character |
| `LogTail.TailFollowsTheFile` | src/edge_ai_monitor/log_monitor.py:130-171 | through any number of rotations and failed reads, told from the looks alone: what has been returned and held back since the file was last another one, or shorter, is exactly its text from where reading it began |
| `LogMonitoring.MonitoredFile.Poll` | src/edge_ai_monitor/log_monitor.py:255-287 | what one poll reads from the file goes, line by line, into its context windows |
| `LogMonitoring.NumbersFollowTheFileExactlyWhen` | src/edge_ai_monitor/log_monitor.py:130-171 | across rotations the windows see the lines carried over from before the last one and then the current file's lines, so a number is the place in the file plus the lines carried over, if and only if no empty line of the file was dropped in reading it |
| `LogMonitoring.RotationKeepsCounting` | src/edge_ai_monitor/log_monitor.py:141-143 | the failing input for numbers as places: the first line of a rotated file gets number two |
| `LogMonitoring.EventsAreNumberedInTheFile` | src/edge_ai_monitor/log_monitor.py:255-287 | then every event of the current file names its line by that number, its trailing context is the file's, and its leading context the lines before it, old file included |
| `ContextWindows.WindowedFile.ProcessFile` | src/edge_ai_monitor/log_monitor.py:255-287 | the object is in the streaming state of everything read and every overflow so far, and hands on exactly the newly reported events |
| `ContextWindows.WindowedFile.TrimContext` | src/edge_ai_monitor/log_monitor.py:305-330 | an overflow, of this file or another, clears the leading context and keeps only the latest pending error |
| `ContextWindows.WindowedFile.FlushPending` | src/edge_ai_monitor/log_monitor.py:289-303 | splits the pending events into those complete (or all) and those kept waiting, each in order |
| `ContextRuns.WindowsAreExact` | src/edge_ai_monitor/log_monitor.py:255-303 | every matching line gives exactly one event, in line order, unless an overflow dropped it, equal to the window cut from the finished log: the last 50 lines before it since the last overflow, and the lines after it up to the 50th or the first quiet poll |
| `ContextRuns.EmittedExactlyWhen` | src/edge_ai_monitor/log_monitor.py:289-303 | an event that was not dropped has been handed on if and only if 50 lines or a quiet poll followed its line; otherwise it is waiting |
| `ContextRuns.LostExactlyWhen` | src/edge_ai_monitor/log_monitor.py:316-330 | an error is dropped if and only if some overflow found it waiting for context with a later match waiting too |
| `ContextRuns.NothingLostWithoutOverflow` | src/edge_ai_monitor/log_monitor.py:305-330 | in a run without overflow no error is dropped and leading contexts are the full 50 lines |
| `ContextRuns.EmittedContextIsFinal` | src/edge_ai_monitor/log_monitor.py:255-303 | an event handed on has its full leading context since the last overflow, and trailing context of 50 lines unless it stops at a quiet poll |
| `ContextRuns.HorizonIsTheFirstQuiet` | src/edge_ai_monitor/log_monitor.py:257-259 | trailing context is cut at the first quiet poll after the line, not a later one |
| `RegistryRuns.MergedEntriesKeepTheirIdentity` | src/edge_ai_monitor/workload_registry.py:315-397 | however incomplete the three sources are, each merged entry gives back the identity it was merged under |
| `RegistryRuns.MergedSaysWhatTheSourcesSay` | src/edge_ai_monitor/workload_registry.py:315-418 | a workload is listed if and only if one source names it, is active if and only if an unterminated agreement does, and its opt-in is the last config's that carries one, or else the last definition's |
| `RegistryRuns.PollReportsWhatTheSourcesSay` | src/edge_ai_monitor/workload_registry.py:315-480 | after a poll a listed workload shows its agreements in force, in order, and the opt-in it last got, or none |
| `RegistryRuns.PollSettlesExactlyWhen` | src/edge_ai_monitor/workload_registry.py:277-310 | one poll puts every workload in the state its response calls for, except that one which ran and is now listed without agreement is stopped |
| `RegistryRuns.TwoPollsConverge` | src/edge_ai_monitor/workload_registry.py:277-310 | from any state, two polls with the same response leave every workload running, registered or removed as the response says |
| `RegistryRuns.ThirdPollChangesNothing` | src/edge_ai_monitor/workload_registry.py:421-493 | a third identical poll makes no transition and moves no watch |
| `RegistryRuns.OnlyRunningWorkloadsAreWatched` | src/edge_ai_monitor/main.py:130-135 | in every reachable state only running workloads' files are tailed, whichever files could be opened |
| `RegistryRuns.WatchSetIsWhatWasAdmitted` | src/edge_ai_monitor/main.py:130-135 | in every run the tailed files are exactly the log paths each running workload asked for, and that could be opened, when it was last found to have started running |
| `RegistryRuns.UpToDateExactlyWhen` | src/edge_ai_monitor/main.py:130-135 | the tailed files are what running workloads ask for now if and only if each asks for just the paths that were opened when it started running |
| `RegistryRuns.LateOptInIsNotTailed` | src/edge_ai_monitor/workload_registry.py:465-479 | the failing input: a workload that opts in while running is monitorable and not tailed |
| `RegistryRuns.UnreadablePathIsNeverRetried` | src/edge_ai_monitor/main.py:206-210 | another: a log file that could not be opened when its workload started is not tailed, though nothing about the opt-in changes and whatever can be opened later |
| `Registry.WorkloadRegistry.PollOnce` | src/edge_ai_monitor/workload_registry.py:277-310 | the loops over merged entries and tracked workloads, with their callbacks into the log monitor, have exactly the effect of one poll, in any order of visits |
| `Registry.WorkloadRegistry.MergeSources` | src/edge_ai_monitor/workload_registry.py:315-397 | the three loops compute the merge the rows above characterise |
| `Registry.WorkloadRegistry.IndexAgreements` | src/edge_ai_monitor/workload_registry.py:400-418 | every active agreement is listed under its workload, in order |
| `Registry.WorkloadRegistry.Upsert` | src/edge_ai_monitor/workload_registry.py:421-480 | one entry is recorded under the identity its own fields give, and only that workload's watches move |
| `Registry.WorkloadRegistry.Transition` | src/edge_ai_monitor/workload_registry.py:482-493 | the state changes and the watches follow it |
| `Registry.WorkloadRegistry.Start` | src/edge_ai_monitor/main.py:206-210 | the first poll, then a second try at tailing whatever is monitorable |
| `Registry.LogMonitor.WatchWorkload` | src/edge_ai_monitor/log_monitor.py:199-229 | adds exactly the readable log paths of an opted-in workload, and returns those tailed, in the order asked for |

## Left out

- Crashes in the middle of an operation and failed ledger writes: the service restarts between operations, while `_save` swallows errors (lifecycle.py:82-83) and `fail` rewrites its file in place (spool.py:201). A crash between a `send` and the bookkeeping after it is covered as a send that arrives and raises, followed by a restart.
- Unreadable spool entries (spool.py:124-131): every entry read back is the document that was written.
- ExportService.Exporter.Handle: each tracker is held as the value its lifecycle maintains rather than as an object, so sharing between lifecycle objects is not modelled; the object itself is `Lifecycle.IssueLifecycle`.
- Registry.WorkloadRegistry.PollOnce: workloads are values in the registry's map, so callers that hold on to a returned workload object are not modelled, nor are names and first and last sightings.
- ContextWindows.WindowedFile.ProcessFile: events are values, and which lines overflow the shared buffer is left open rather than computed from the approximate byte counter (log_monitor.py:305-337).
- LogTail.TailedFile.ReadNewLines: UTF-8 decoding with replacement and other line separators are left out, and so is a file replaced between the two system calls of one read; a replacement that keeps its inode and does not shrink the file cannot be detected by the code and is excluded by a hypothesis of `TailFollowsTheFile`.
- Analyzer.Backlog.Add: `heapq` is represented by the order in which it yields items; arrival numbers are distinct, so that order is determined.
- Accounting.ProposalTotalIsExactExactlyWhen: needs the error's submissions within one recurrence window and within the life of its own cached results, and successful writes; outside these the code's tally is a count over a window and not a total.
- RemediationModel.DocumentIsTheDigest: the generated steps, confidence, file paths and directory names are left out, and the findings of an analysis are one text.
- Records.PayloadIsShaped: severities, timestamps and the disclaimer are represented by what they mean; a tally that is not a number, which the generator never produces, is read as zero.
- Delivery notifications, the offline clock and the status pages: they read state and feed nothing back into these protocols, except `record_delivery`, which is modelled on its own.
- Sink and service protocols (HTTP, MQTT, syslog, tracker bodies, Ollama, the agent's API), configuration parsing, credentials, health endpoint and thread control: input and output, represented by the answers they give.
- `MonitoringConfig.from_deployment` and `from_env`: a deployment is represented by the opt-in found in it.
- Confidence thresholds, diagnostic steps, prompt building and the context-size budget: single-branch or text-only members.
