# Verified model of the media generator

The service accepts prompts for images, speech and video, queues them in a bounded channel, drives them with four
workers, stores the media in a private blob container, lists them in a history and an archive, deletes them after a
retention period, and signs users in through Entra ID. This project models that behaviour in Dafny and proves the
guarantees its comments and tests promise. `dafny verify dfyconfig.toml` checks everything.

## How the model is organised

**The job protocol.** `Tables` states every SQL statement as a function on the two tables and has a `Database` class
whose methods apply them in place. `Protocol` makes one SQL statement, channel operation, blob call or broadcast one
step, and lets handlers, workers, deletions, hiding, the sweep, the clock and crash/restart interleave freely, including
statements that fail and blob calls that fail after taking effect. One more step is the environment's: it puts any known
id back into the channel, which the program never does; what needs its absence says so (`Steady`).
`ProtocolSafety`, `ProtocolMedia` and `ProtocolEvents` hold the inductive invariants and `Coverage` who holds which job;
`JobGuarantees`, `Draining`, `SweepAccounting`, `DeletionAccounting`, `EventStream` and `EventDelivery` draw the
conclusions over all runs, `SampleRuns` and `OrphanRuns` show that the situations they speak of occur, `Submission` the
queue's order and why a job may never run, `Story` where every column of a row comes from, and `Survival` what can make a
job or its media disappear. `Processing` and `Retention` are the sequential code of one job and of one sweep, proved
against the same statement functions. `RateLimit` is the hourly limit over any schedule of one user's submissions, and
`LimitedProtocol` shows that the protocol behind the check is such a schedule and `LimitBurst` that its bound is reached.

**Listing and links.** `Listing` builds the `where` clause and evaluates it on the join, `Paging` cuts pages out of an
order that may have ties, `ArchiveLinks` builds and parses the filter links, `ArchivePages` renders a page and follows
its links. `Percent`, `Splitting` and `QueryStrings` are the encoders and parsers they share with the signed URLs.

**Text.** `Texts` is UTF-8, character boundaries and trimming; `Truncation`, `Prompt`, `DownloadNames`, `SignedUrls`
and `ReturnPaths` build on it. In these modules text is a sequence of Unicode scalar values, and bytes are `char`s
below 256.

**Waiting, caches, sessions.** `Retry` is the provider retry loop, `Caches` the double-checked caches as interleaving
tasks, `SignIn` the session methods and whole runs of logins, callbacks and logouts.

Clocks, random jitter, provider answers, network outcomes, UUIDs, the database's choice of order, and the signature
function are parameters or arbitrary choices of the environment.

## Where the code and what is said about it differ

The model follows the code. Each difference has a lemma.

- The event stream is described as ending on a terminal status (`crates/web/src/routes/api.rs:421-458`). It ends only
  when one more event of the job arrives after a terminal *snapshot*: `EventDelivery.ClosesExactly`, with one run of each
  kind in `EventDelivery.StreamDoesClose` and `EventDelivery.StreamMayStayOpen`.
- The hourly limit is checked before the insert. With k submissions in flight the true bound is limit + k - 1, and the
  limit itself holds exactly for k = 1: `LimitBurst.TableLimitHoldsExactlyWhenSerial`.
- `delete_job` is commented as removing the blobs first; it removes the rows first (`crates/web/src/routes/api.rs:640-665`).
  That order is what keeps live media: `JobGuarantees.LiveMediaIsKept`. What it can leave behind is said by
  `DeletionAccounting.DeletionOrphansExactly`.
- `order by j.created_at` has no tie-break, so pages answered by separate queries can skip a row. They show every row
  exactly when no page boundary falls between two equal times: `ArchivePages.FollowingNextShowsEverythingExactly`.
- The offset is a 64-bit product. It is right exactly up to one `side`: `ArchivePages.OffsetIsExactUpTo`. Further out
  requests are refused or show earlier rows: `ArchivePages.BeyondTheRange`.
- A login flow is said to live 15 minutes; the age is compared in whole seconds, so it lives until just before second
  901: `SignIn.TtlInMilliseconds`.
- A signed link can outlive its key: all cached keys outlive their links exactly when links last at most the ten-minute
  skew: `Caches.KeysOutliveLinksExactly`. The default link lifetime is an hour.
- A sweep can orphan blobs: `SweepAccounting.SweepOrphansExactly` says exactly which, and `OrphanRuns` has the runs.

## Model

| member | source | states |
|---|---|---|
| `ProtocolSafety.SoundKept` | crates/storage/src/jobs.rs:161-210 | every step of every actor, also when ids are delivered twice, keeps: rows legal, a worker past its claim holds a claimed job, and no two such workers hold the same one |
| `ProtocolSafety.SafeKept` | crates/web/src/jobs.rs:85-185 | every step but a duplicate delivery also keeps: at most one holder per job, each at its row's stage, and no unheld unfinished job except the recorded losses |
| `Coverage.CoverKept` | crates/web/src/jobs.rs:85-185 | every step, duplicate deliveries included, keeps every unfinished job that is not lost with someone at the stage its status needs |
| `ProtocolMedia.MediaKept` | crates/web/src/jobs.rs:259-301 | every step, duplicate deliveries included, keeps: one asset per job, its path names the job, succeeded jobs have one, deletions and the sweep touch only blobs of jobs gone or expired, live assets have their blob |
| `ProtocolEvents.EventsKept` | crates/web/src/jobs.rs:155-178 | every step, duplicate deliveries included, keeps: what was broadcast agrees with what was committed, in commit order per job, at most once each |
| `JobGuarantees.NoJobIsStranded` | crates/web/src/jobs.rs:85-185 | in every reachable state, duplicate deliveries included, an unfinished job is held by a handler, channel slot or worker at the stage its status needs, unless its holder was lost |
| `JobGuarantees.JobsHaveOneHolder` | crates/web/src/jobs.rs:85-185 | in runs without duplicate deliveries that holder is the only one |
| `JobGuarantees.HeldExactlyUnlessLost` | crates/web/src/jobs.rs:85-185 | in those runs an unfinished job has a holder if and only if its holder is not among the recorded losses |
| `SampleRuns.CancelledJobIsHeldByNobody` | crates/web/src/routes/api.rs:262-301 | a run in which an abandoned request leaves a queued row that nobody holds |
| `JobGuarantees.OnlyFailuresLose` | crates/web/src/routes/api.rs:223-301 | a run without cancelled handlers and failed database calls loses no holder |
| `JobGuarantees.NoFailureNoStranding` | crates/web/src/jobs.rs:144-184 | in every run without such failures every unfinished job has its holder, the only one when nothing is delivered twice |
| `JobGuarantees.RestartBeginsClean` | crates/web/src/main.rs:53-74 | after any crash no unfinished row exists when the workers start, and each row found unfinished reads as interrupted |
| `JobGuarantees.RunningIsBounded` | crates/web/src/jobs.rs:27-30 | running rows whose holder is not lost are no more than the four workers |
| `JobGuarantees.InFlightIsBounded` | crates/web/src/jobs.rs:127-132 | at most 64 ids wait; leaving out jobs whose holder was lost, at most 4 run and at most 64 + 4 + handlers are unfinished; counting them, at most that plus the lost ones |
| `Submission.NeverRanForAReason` | crates/web/src/routes/api.rs:272-301 | in every reachable state a job that failed without having run was refused by a full queue or cut off by a restart, and its row reads back as which |
| `JobGuarantees.ClaimedAtMostOnce` | crates/storage/src/jobs.rs:161-184 | over any run, with any known id put back into the channel at any time, a job is claimed at most once |
| `JobGuarantees.DuplicateIsRefused` | crates/storage/src/jobs.rs:161-184 | a worker that claims a job another worker is on lets go of it, and nothing else changes |
| `SampleRuns.DuplicateReachesWorker` | crates/web/src/jobs.rs:144-153 | a run in which the same id reaches a second worker, whose claim leaves the state as it was |
| `JobGuarantees.OneAssetPerJob` | crates/storage/src/assets.rs:36-57 | over the same runs a job has at most one asset row, and exactly one when succeeded |
| `JobGuarantees.LiveMediaIsKept` | crates/web/src/retention.rs:39-89 | in every reachable state, mid-sweep and mid-delete too, an asset row without its blob belongs to a job created more than the retention window ago; with retention switched off there is none |
| `JobGuarantees.RowsFollowTheLifecycle` | migrations/0001_initial.sql:37-42 | every reachable row meets the check constraints, has ordered timestamps and a legal history, and reads back as its stored status |
| `JobGuarantees.HistoryOnlyGrows` | crates/storage/src/jobs.rs:169-210 | the statuses ever written for a job only grow, over any run |
| `JobGuarantees.TerminalIsFinal` | crates/domain/src/job.rs:45-54 | over any run a terminal row that still exists has the same status, error columns, timestamps, owner and type; `hidden` is the only thing that may differ |
| `JobGuarantees.GoneIsGone` | crates/storage/src/jobs.rs:467-499 | a deleted job never reappears |
| `Story.StepMovesRow` | crates/storage/src/jobs.rs:48-210 | a step leaves a row as it was, or makes it as asked for, hides it for its owner, starts it by a claim, or ends it with the status it writes; nothing else |
| `Story.MomentsTakeEffect` | crates/storage/src/jobs.rs:48-210 | and each of these has its effect on the row it is about |
| `Story.EveryColumnHasItsStep` | crates/storage/src/jobs.rs:161-210 | in every reachable state, owner, type and creation time of a row are those of its request, a hidden one was hidden by its owner, its start is the time of a claim, and its end and status are those of the write that finished it |
| `Story.EveryOutcomeHasItsCause` | crates/web/src/jobs.rs:144-287 | a finished row says that the queue was full, that a restart cut it off, or exactly what its worker met with: the provider's error, a failed upload or insert, or a stored asset |
| `Story.EveryAssetHasItsMedia` | crates/web/src/jobs.rs:259-301 | in every reachable state, an asset row has the very path under which the provider's media for its job was filed |
| `Survival.UndeletedJobsStay` | crates/storage/src/jobs.rs:273-290 | over any run, crashes, sweeps and duplicate deliveries included, a job its owner does not delete is still there, with its owner and all its assets, as long as the clock is no later than its creation plus the window; without retention for good |
| `Survival.StoredMediaStays` | crates/web/src/retention.rs:39-108 | once an asset row is stored, it and its blob are there in every later state of every run, until its owner deletes the job or, with retention on, the clock passes its creation plus the window |
| `Survival.SecondQueryLeavesExactly` | crates/storage/src/jobs.rs:281-290 | the sweep's second query leaves exactly the jobs whose creation plus the window is not before now, as they were, with all their assets |
| `Draining.AdvancesAreBounded` | crates/web/src/jobs.rs:99-120 | between submissions, handlers and workers can take only so many steps, by a measure each step lowers |
| `Draining.StuckMeansFinished` | crates/web/src/jobs.rs:85-120 | no deadlock: when no handler or worker can move, every unfinished job is one of the recorded losses |
| `SweepAccounting.SweepOrphansExactly` | crates/web/src/retention.rs:67-108 | under every interleaving, a row the sweep removes leaves its blob orphaned if and only if the first query did not return it, or it did, the blob was there and its delete was refused without effect |
| `OrphanRuns.LateExpiryLeavesABlob` | crates/web/src/retention.rs:67-108 | a run in which no delete fails and the sweep leaves a blob behind: the job expires between the two queries |
| `OrphanRuns.RefusedDeleteLeavesABlob` | crates/web/src/retention.rs:75-86 | a run in which it does because the delete is refused |
| `OrphanRuns.SweepLeavesNothing` | crates/web/src/retention.rs:67-108 | a run in which the sweep leaves nothing of an expired job |
| `DeletionAccounting.DeletionOrphansExactly` | crates/web/src/routes/api.rs:645-665 | once a deletion has removed the rows, a blob of the job is orphaned if and only if no asset row had its path when the paths were read and the blob was there or came later, or one had, the blob was there, and no delete of it has taken effect |
| `DeletionAccounting.FinishedDeletionLeavesNothing` | crates/web/src/routes/api.rs:640-665 | a deletion that has removed the rows, has no path left, and whose every delete took effect leaves no blob of any asset row the job had when the paths were read |
| `OrphanRuns.EarlyDeletionLeavesABlob` | crates/web/src/routes/api.rs:645-665 | a run in which a deletion between upload and insert reads no path and leaves the blob behind |
| `OrphanRuns.DeletionLeavesNothing` | crates/web/src/routes/api.rs:640-665 | a run in which a deletion of a finished job leaves neither row, asset nor blob |
| `EventStream.AcceptAllIsAPrefix` | crates/web/src/routes/api.rs:449-458 | the stateful `take_while` emits up to and including the first terminal item, and closes exactly when an item follows one |
| `EventStream.StatusesNeverGoBack` | crates/web/src/routes/api.rs:434-467 | for every interleaving with lag: the stream begins with the snapshot, never goes back, shows at most one terminal status, last, equal to the committed row |
| `EventDelivery.SnapshotIsShownFirst` | crates/web/src/routes/api.rs:421-458 | the first status shown is what the row read as when it was loaded |
| `EventDelivery.TakenUnlessOverrun` | crates/web/src/routes/api.rs:440-448 | of the events a subscriber has read past it took exactly those it reached before 256 newer ones were out |
| `EventDelivery.PollingCatchesUp` | crates/web/src/routes/api.rs:440-448 | a subscriber that keeps polling reads up to the last event, lagging or not, in no more polls than events were left |
| `EventDelivery.TerminalShownExactly` | crates/web/src/routes/api.rs:434-467 | a terminal status is shown, once and last, if and only if the snapshot was terminal or the job's terminal event was published after the subscribe, read past and not overrun |
| `EventDelivery.RecentTerminalIsShown` | crates/web/src/jobs.rs:32-33 | with no more than 256 newer events published it is shown for certain |
| `EventDelivery.EarlierTerminalIsMissed` | crates/web/src/routes/api.rs:434-440 | one published between the loading of the row and the subscribe is never shown |
| `EventDelivery.ClosesExactly` | crates/web/src/routes/api.rs:421-458 | the stream closes if and only if the snapshot was terminal and an event of the job published after the subscribe got through |
| `EventDelivery.StreamDoesClose` | crates/web/src/routes/api.rs:421-458 | a run in which the stream shows the failure and closes |
| `EventDelivery.StreamMayStayOpen` | crates/web/src/routes/api.rs:421-458 | a run in which the failure has been shown, every event read and nothing is left to happen, and the stream is open |
| `RateLimit.AnyHourIsBounded` | crates/web/src/ratelimit.rs:26-52 | with at most k submissions between check and insert, no hour holds more than limit + k - 1 surviving rows, for every schedule |
| `RateLimit.BoundIsReached` | crates/web/src/routes/api.rs:240-271 | for every limit and k some schedule reaches that number |
| `RateLimit.LimitHoldsExactlyWhenSerial` | crates/web/src/ratelimit.rs:26-52 | the configured limit holds in every hour of every schedule if and only if k = 1 |
| `LimitedProtocol.RunSimulated` | crates/web/src/routes/api.rs:238-271 | seen by one user, every run of the protocol whose inserts are guarded by the check is a run of the limit's machine |
| `LimitedProtocol.TableKeepsTheLimit` | crates/web/src/ratelimit.rs:26-52 | in the table, over every such run - workers, deletions, sweeps, hiding, crashes - no hour holds more than limit + k - 1 of a user's rows |
| `LimitBurst.BurstFillsTheTable` | crates/web/src/routes/api.rs:238-271 | with m requests of a user between check and insert, some run of the guarded service fills an hour of the table with limit + m - 1 rows |
| `LimitBurst.TableLimitHoldsExactlyWhenSerial` | crates/web/src/ratelimit.rs:26-52 | the configured limit holds of the table over every run if and only if no two requests of a user are between check and insert at once |
| `RateLimit.AllowedAgainAfterAnHour` | crates/storage/src/jobs.rs:260-266 | a row stops counting the moment it is an hour old |
| `RateLimit.RemainingPredictsCheck` | crates/web/src/ratelimit.rs:62-78 | the number shown is zero exactly when the next submission would be refused |
| `RateLimit.InsertsSeenByTheLimit` | crates/storage/src/jobs.rs:260-271 | only the user's own inserts enter the count, at the insert's time |
| `RateLimit.UpdatesUnseenByTheLimit` | crates/storage/src/jobs.rs:169-210 | claims and outcomes do not move the count |
| `RateLimit.HidingUnseenByTheLimit` | crates/storage/src/jobs.rs:437-453 | hiding does not move the count |
| `RateLimit.RestartUnseenByTheLimit` | crates/storage/src/jobs.rs:240-253 | failing the leftovers at start-up does not move the count |
| `RateLimit.DeletionsSeenByTheLimit` | crates/storage/src/jobs.rs:281-290 | deletions by the user or by retention only take rows out of the count |
| `JobStatuses.StatusReadsBack` | crates/domain/src/job.rs:61-79 | reading the three columns gives back the status written, for every code and message |
| `JobStatuses.CodeReadsBack` | crates/domain/src/error.rs:39-98 | every error code survives its text |
| `JobStatuses.NameReadsBack` | crates/domain/src/job.rs:35-79 | the status name survives whatever the other columns hold |
| `Tables.Database.CreateJob` | crates/storage/src/jobs.rs:48-65 | adds exactly one row, queued, visible, with the given owner, type and creation time; every row keeps its constraints |
| `Tables.Database.ClaimJob` | crates/storage/src/jobs.rs:169-184 | claims exactly a row that reads as queued; it reads as running, started now, is otherwise as it was and cannot be claimed again; nothing else changes |
| `Tables.Database.FinishJob` | crates/storage/src/jobs.rs:192-210 | finishes exactly a row that reads as queued or running; it reads back as the outcome, completed now, is otherwise as it was and cannot be finished again; nothing else changes |
| `Tables.Database.FailOrphanedJobs` | crates/storage/src/jobs.rs:240-253 | every row without an outcome reads as interrupted, completed now; every other is as it was; the count is theirs |
| `Tables.Database.CreateAsset` | crates/storage/src/assets.rs:36-57 | stores the row exactly when its job still exists |
| `Tables.Database.SetHidden` | crates/storage/src/jobs.rs:437-453 | gives the flag of the caller's own job the new value and changes nothing else |
| `Tables.Database.DeleteForUser` | crates/storage/src/jobs.rs:467-499 | exactly for the caller's own job, removes it with its assets and returns exactly the paths of the asset rows it had |
| `Tables.Database.DeleteOlderThan` | crates/storage/src/jobs.rs:281-290 | removes exactly the jobs whose creation plus the window is before now, with their assets, and counts them |
| `BlobPaths.PathNamesItsJob` | crates/web/src/jobs.rs:293-301 | the job id can be read back from the path for every date, type and extension |
| `BlobPaths.PathsAreInjective` | crates/web/src/jobs.rs:289-301 | two jobs never share a path |
| `Retention.PathsOlderThan` | crates/storage/src/assets.rs:117-132 | returns one path per asset of a job whose creation plus the window is before now, and exactly their paths |
| `Retention.Window` | crates/web/src/retention.rs:72-72 | the window in microseconds: days of 86,400,000,000, at most 2^31 - 1 of them |
| `Retention.Sweep` | crates/web/src/retention.rs:67-108 | deleted + failed equals the paths read, those of assets older than the window at the first query; the blobs deleted without refusal are gone; exactly the jobs within the window at the second query stay, with their assets; the count is that of the others |
| `Retention.SweepTwice` | crates/web/src/retention.rs:67-127 | undisturbed at one time, a second sweep reports three zeros |
| `Retention.SweepLeavesExactlyTheLive` | crates/web/src/retention.rs:60-108 | an undisturbed sweep leaves exactly the jobs no more than that many days old with all their assets and blobs, and no blob of a removed asset |
| `Retention.ReachableIsConsistent` | crates/web/src/jobs.rs:289-301 | what the protocol keeps gives the sweep its premise: live jobs, distinct paths |
| `Processing.AwaitMedia` | crates/web/src/jobs.rs:237-255 | at most 90 polls, no cycle begun at or after the deadline, result is the first final answer or the timeout, for every status reported |
| `Processing.WhatEndsTheWait` | crates/providers/src/video.rs:310-320 | no earlier answer would have ended the wait; the last one's clip, after the word for it, or its own error is the result, and if it ends nothing, however new its status, the result is the timeout after the deadline |
| `Processing.AnswersAreTold` | crates/providers/src/error.rs:51-78 | what each HTTP answer and each transport failure makes the job say |
| `Processing.NinetyPollsHappen` | crates/providers/src/video.rs:49-49 | the bound of 90 is reached |
| `Processing.Generate` | crates/web/src/jobs.rs:191-256 | the result for each way a generation can go: unreadable reference, refused submission, immediate media, or the wait above |
| `Processing.Store` | crates/web/src/jobs.rs:259-287 | the row is inserted only after its blob is there; each failure leaves the other table alone |
| `Processing.Work` | crates/web/src/jobs.rs:158-171 | between the two status writes: the failure its generation met with, else success exactly when the media was stored, with exactly that asset row and blob |
| `Processing.Process` | crates/web/src/jobs.rs:144-184 | a queued job ends terminal whatever fails, published exactly when the write was acknowledged; failed claims and failed final writes, applied or not, leave exactly what they leave; any other job is untouched |
| `Listing.ListPredicates` | crates/storage/src/jobs.rs:304-330 | under the bind values the clause holds of exactly the rows the filter describes, and uses every bind position |
| `Listing.ReachableIsListable` | crates/storage/src/jobs.rs:323-327 | in every reachable state, hiding and duplicate deliveries included, the join has one row per job and succeeded jobs have an asset |
| `Listing.OneRowPerMatch` | crates/storage/src/jobs.rs:371-379 | the left join neither repeats nor drops a matching job; `a.id is not null` excludes no succeeded one |
| `Listing.Count` | crates/storage/src/jobs.rs:405-426 | the count is the number of jobs the filter describes |
| `Listing.List` | crates/storage/src/jobs.rs:361-399 | the page is cut from a sorted order of everything the filter selects, no row created on the wrong side of an earlier one, each beside an asset of its own or without any |
| `Listing.OrderBy` | crates/storage/src/jobs.rs:377-377 | any order sorted by creation time, each row once |
| `Listing.PagesShowEachMatchOnce` | crates/web/src/routes/archive.rs:326-336 | the announced pages together show every matching job once, as many as `count` said, in time order within and across pages |
| `Paging.PagesPartition` | crates/web/src/routes/archive.rs:316-336 | the pages of one order, one after another, are that order |
| `Paging.PagesAreAnnounced` | crates/web/src/routes/archive.rs:334-336 | a page is non-empty exactly when announced, only the last is short, an empty listing has one page |
| `Paging.NextExactlyWhenRowsRemain` | crates/web/src/routes/archive.rs:357-361 | the next link is there exactly when rows remain |
| `Paging.OffsetFitsExactly` | crates/web/src/routes/archive.rs:90-92 | the offset fits 64 bits exactly up to one `side` |
| `Paging.OrderingExists` | crates/storage/src/jobs.rs:377-377 | every selection has an order |
| `Paging.CleanCut` | crates/storage/src/jobs.rs:377-379 | where neighbours differ in time, every order has the same rows before the cut |
| `Paging.NothingIsSkippedExactlyOffTies` | crates/storage/src/jobs.rs:371-379 | pages answered from different orders show every row if and only if no boundary falls between equal times |
| `Percent.EncodeText` | crates/web/src/routes/archive.rs:145-156 | the byte loop's output decodes to its input under both decoders |
| `Percent.RoundTrip` | crates/storage/src/blob.rs:457-468 | decoding undoes encoding for every byte string, with and without `+` as a space |
| `Percent.Alphabet` | crates/auth/src/middleware.rs:159-170 | only unreserved characters and `%` are produced |
| `Percent.EncodeIsInjective` | crates/storage/src/blob.rs:453-468 | different texts have different encodings |
| `QueryStrings.PairsReadBack` | crates/web/src/routes/archive.rs:134-142 | parsing a built query string gives the parts back, for any values |
| `ArchiveLinks.With` | crates/web/src/routes/archive.rs:98-142 | the returned string parses to what following the link sees, for any text |
| `ArchiveLinks.SideReadsBack` | crates/web/src/routes/archive.rs:353-361 | a page number printed into a link parses to itself |
| `ArchiveLinks.NumbersReadBack` | crates/web/src/routes/archive.rs:58-60 | signed page numbers parse to themselves exactly within 64 bits |
| `ArchiveLinks.FollowReads` | crates/web/src/routes/archive.rs:47-60 | the exact query record a link parses to |
| `ArchiveLinks.ReadExactly` | crates/web/src/routes/archive.rs:43-60 | a query is refused if and only if a field is given twice or the page is no number; otherwise each field has the value of the pair with its name |
| `ArchiveLinks.LinksUndoParsing` | crates/web/src/routes/archive.rs:62-142 | following any link replaces the named control, keeps the meaning of the others, drops the page unless it is the key, and is refused only for a page that is no number |
| `ArchivePages.Render` | crates/web/src/routes/archive.rs:303-371 | entries are visible jobs beside their own assets, newest first unless the query says otherwise; page count of all visible ones, both links, and when the database refuses the offset |
| `ArchivePages.OffsetIsExactUpTo` | crates/web/src/routes/archive.rs:323-323 | the wrapped product is the true offset if and only if `side` is within one bound |
| `ArchivePages.OffsetByBlock` | crates/web/src/routes/archive.rs:323-323 | past the bound the product wraps: refused exactly in the odd multiples of 2^63, otherwise that many multiples too low |
| `ArchivePages.BeyondTheRange` | crates/web/src/routes/archive.rs:323-323 | a page past the bound has no rows; its request is refused exactly in the odd blocks and answered with other rows exactly when the wrapped offset falls inside the listing |
| `ArchivePages.TwoFarPages` | crates/web/src/routes/archive.rs:323-323 | the first page past the bound is refused; page 2^61 + 1 shows the first page |
| `ArchivePages.PageLinkKeepsTheFilter` | crates/web/src/routes/archive.rs:352-361 | a page link opens that page of the same listing |
| `ArchivePages.ControlsChangeOnePart` | crates/web/src/routes/archive.rs:362-369 | a type or sort link changes that part of the filter, keeps the rest, and leads to the first page |
| `ArchivePages.WhatIsVisible` | crates/web/src/routes/archive.rs:62-88 | which rows a query shows, by its own words: the history all of one's own, the archive one's own successes or on request everybody's that are not hidden, the type word narrowing either |
| `ArchivePages.VisitShowsTheRest` | crates/web/src/routes/archive.rs:352-361 | following each rendered page's own next link shows every later announced page, each cut from its own order |
| `ArchivePages.FollowingNextShowsEverythingExactly` | crates/web/src/routes/archive.rs:352-361 | over rendered pages and their own links, such a visit always shows exactly the visible jobs if and only if no page boundary falls between two equal creation times |
| `Texts.CutIsValidExactlyAtBoundaries` | crates/storage/src/audit.rs:22-29 | a prefix of valid UTF-8 is valid if and only if it ends at a character boundary |
| `Texts.BoundaryIsNear` | crates/providers/src/client.rs:209-212 | one of any four neighbouring positions is a boundary |
| `Texts.TextReadsBack` | crates/providers/src/client.rs:213-213 | UTF-8 decoding undoes encoding |
| `Texts.TrimCuts` | crates/domain/src/media.rs:90-90 | trimming removes exactly the white space at both ends |
| `Texts.CharacterClasses` | crates/domain/src/media.rs:90-107 | which characters count as white space and which as control characters |
| `Truncation.BackingUpIsLongest` | crates/storage/src/audit.rs:22-29 | where the loop stops is the longest valid prefix within the cap, within three bytes of it |
| `Truncation.AuditLog.Record` | crates/storage/src/audit.rs:21-46 | appends one row whose user agent is that prefix for 512 bytes |
| `Truncation.Summarise` | crates/providers/src/client.rs:204-214 | the summary is the trimmed body, or that prefix for 400 bytes, trimmed, with an ellipsis; at most 403 bytes |
| `Prompt.FoldStaysExactly` | crates/domain/src/media.rs:89-89 | folding line ends changes nothing if and only if there is no CR LF |
| `Prompt.FoldUndoesCrLf` | crates/domain/src/media.rs:76-77 | folding undoes Windows line ends, whatever the text |
| `Prompt.FixedPointsAreTheClean` | crates/domain/src/media.rs:88-111 | the prompts left alone are exactly the clean ones: non-empty, within the limit, tight ends, no control but LF and TAB |
| `Prompt.AcceptedIsFinal` | crates/domain/src/media.rs:74-111 | an accepted prompt is the folded text without outer white space, is clean, and validates to itself |
| `Prompt.VerdictExactly` | crates/domain/src/media.rs:88-112 | the verdict on any text, by what stands between its outer white space: exactly when it is empty, too long, or has a control character, and what is stored otherwise |
| `Prompt.PaddingIsCut` | crates/domain/src/media.rs:88-112 | any white space around a clean prompt is cut off and the prompt accepted |
| `Prompt.LineEndsDoNotMatter` | crates/domain/src/media.rs:76-77 | the same verdict and the same stored prompt with Unix and Windows line ends |
| `Prompt.EmptyExactlyWhenBlank` | crates/domain/src/media.rs:92-94 | refused as empty if and only if all of it is white space |
| `DownloadNames.SanitisedIsSafe` | crates/storage/src/blob.rs:516-528 | any name becomes 1 to 100 allowed characters; exactly the safe names are left alone; a second pass changes nothing |
| `DownloadNames.SanitisedExactly` | crates/storage/src/blob.rs:516-528 | the result is the first hundred of the letters, digits, hyphens, underscores and full stops of the name, in their order, or the fixed name when there are none |
| `DownloadNames.DisallowedVanishes` | crates/storage/src/blob.rs:512-528 | a character that is not allowed makes no difference to the name, wherever it stands |
| `DownloadNames.HeaderCarriesTheName` | crates/storage/src/blob.rs:322-324 | the header value stays one line and its quoted part is exactly the sanitised name |
| `SignedUrls.ReadUrl` | crates/storage/src/blob.rs:302-394 | the URL names the key and says what was asked: read, one blob, from the start to the expiry, under the sanitised name or none; the string rebuilt from the URL alone is the one that was signed, and its signature is in the URL |
| `SignedUrls.RebuiltIsSigned` | crates/storage/src/blob.rs:329-358 | rebuilding from the parameters gives the 24 fields in their order |
| `SignedUrls.UrlReadsBack` | crates/storage/src/blob.rs:382-393 | account, resource and every parameter are read back from the URL |
| `SignedUrls.IsoReadsBack` | crates/storage/src/blob.rs:434-451 | the timestamp has the fixed shape Storage expects, and every field is read back from its own position |
| `Splitting.FieldsAreRecoveredExactly` | crates/storage/src/blob.rs:332-358 | splitting joined fields recovers them if and only if none holds the separator |
| `SignedUrls.SignedFieldsAreRecovered` | crates/storage/src/blob.rs:329-358 | each of the 24 signed fields stands in its place, and the signed string stands for them if and only if the key's own fields are newline-free |
| `SignedUrls.MediaPathsAreUrlSafe` | crates/web/src/jobs.rs:293-301 | paths of generated media need no escaping in the URL |
| `Retry.RetryableAnswers` | crates/providers/src/client.rs:175-190 | which answers are retried, both ways |
| `Retry.CeilingExact` | crates/providers/src/client.rs:158-163 | the backoff ceiling is min(500·2^(n-1), 20000) ms, monotone, never a reason to give up |
| `Retry.SendWithRetry` | crates/providers/src/client.rs:62-151 | every request but the last failed transiently and asked for no more than a minute; the last is the fourth, or did not, or asked for more; its result is returned; at most 180 s of sleep and 3.5 s without Retry-After |
| `Retry.BoundsAreReached` | crates/providers/src/client.rs:20-33 | both sleep bounds are reached |
| `Caches.ReturnedIsFreshOrNew` | crates/auth/src/oidc.rs:115-133 | with any interleaving, failure and cancellation, a value returned from the cache was fresh when checked, and any other was fetched at that moment |
| `Caches.DiscoveriesAreSpaced` | crates/auth/src/oidc.rs:115-133 | successful discoveries are at least twelve hours apart |
| `Caches.SomebodyCanGoOn` | crates/auth/src/oidc.rs:115-133 | the lock is never stuck: an unfinished request implies an enabled step |
| `Caches.CachedKeyHasTimeLeft` | crates/storage/src/blob.rs:232-249 | a key from the cache has more than the skew left when checked |
| `Caches.LastCachedReturn` | crates/storage/src/blob.rs:232-249 | a run in which a key is returned from the cache with one second more than the skew left |
| `Caches.KeysOutliveLinksExactly` | crates/storage/src/blob.rs:42-89 | over all runs with keys requested for six hours, every key returned from the cache outlives the link it signs if and only if links last at most the skew |
| `ReturnPaths.SanitisedIsLocal` | crates/web/src/routes/auth.rs:215-234 | the result is always a local path, and exactly the local paths are left alone |
| `ReturnPaths.LoginUrlReadsBack` | crates/auth/src/middleware.rs:149-170 | the login endpoint reads back the target from the login URL, for every text |
| `ReturnPaths.ReturnPathSurvivesExactly` | crates/web/src/routes/auth.rs:52-173 | encoded, decoded and checked twice, the target survives exactly when it is local |
| `ReturnPaths.DestinationIsAlwaysLocal` | crates/web/src/routes/auth.rs:171-172 | for every login URL the destination is local |
| `SignIn.ConstantTimeEqIsEquality` | crates/auth/src/oidc.rs:306-314 | the xor/or fold accepts exactly equal byte strings |
| `SignIn.TtlInMilliseconds` | crates/auth/src/session.rs:179-182 | the age check passes exactly below 901 seconds |
| `SignIn.Session.TakeLoginFlow` | crates/auth/src/session.rs:173-184 | the flow is gone afterwards, and returned exactly when there was one in time |
| `SignIn.Session.Login` | crates/web/src/routes/auth.rs:52-70 | a signed-in user is sent on; otherwise one flow with a local return path replaces any other |
| `SignIn.Session.Callback` | crates/web/src/routes/auth.rs:92-173 | lets the callback through if and only if its flow is there and in time, the provider reports no error, code and the flow's own state came back, and the user is proved and permitted; otherwise names the first reason; the flow is used up either way |
| `SignIn.Session.Logout` | crates/web/src/routes/auth.rs:179-208 | nothing of the session remains |
| `SignIn.FlowsAreRedeemedOnce` | crates/auth/src/session.rs:155-184 | over any run a stored flow is redeemed at most once, in time, by a query that carried exactly its state, for a permitted user |
| `SignIn.AcceptedExactly` | crates/web/src/routes/auth.rs:92-173 | in a run, a callback signs in under exactly those conditions, and changes nothing but the flow otherwise |
| `SignIn.OnlyAcceptedUsersAreSignedIn` | crates/web/src/routes/auth.rs:118-141 | whoever is signed in came through the last accepted callback, permitted, under the session id it issued |
| `SignIn.SignInReturnsToTarget` | crates/web/src/routes/auth.rs:52-173 | an accepted sign-in begun by the redirect from a target ends on it exactly when it is local |
| `SignIn.SignInSucceeds` | crates/web/src/routes/auth.rs:52-208 | a login, any time below 901 seconds, and a fitting callback sign the user in under a new id and lead to the checked target; a second login changes nothing, and a logout leaves nothing |
| `SignIn.ReplayIsRefused` | crates/auth/src/session.rs:166-184 | the same callback again finds no flow |
| `Submission.QueueIsFifo` | crates/web/src/jobs.rs:99-132 | conservation over any run of one process: what waited plus what was put in (while fewer than 64 wait) is what workers were handed plus what still waits, in that order |
| `Retry.EndIsDetermined` | crates/providers/src/client.rs:62-151 | the outcomes determine the last request, and every earlier one failed retryably |
| `Percent.Base64SignsAreEscaped` | crates/storage/src/blob.rs:453-468 | the three Base64 signs become `%2B`, `%2F` and `%3D` wherever they stand, and nothing around them changes |
| `BlobPaths.PathReadsBack` | crates/web/src/jobs.rs:289-301 | splitting a path at its slashes gives year, month, type and file name, in that order |

## Left out

- JobsHaveOneHolder: for runs in which no id is delivered twice; a second delivery is a second holder.
- DeletionOrphansExactly: for deletions during which no sweep takes the same job's blobs and the process does not die.
- FinishedDeletionLeavesNothing: under the same two conditions.
- BurstFillsTheTable: for as many rows as there are decimal ids of 36 digits.
- HTTP, TLS, JSON, multipart, base64, HMAC, tokens, PKCE and ID-token checks: each is an arbitrary outcome or an arbitrary function.
- A panic inside a worker, which ends that worker for good, and a statement that takes effect only after a restart.
- Several processes sharing one database; deleting users; the reference uploads, which nothing deletes.
- `Protocol` has no step for recording a provider's job id, a column no other statement reads.
- Times in `Protocol` are commit times of single statements; the clock never goes back.
- The channel, tables and broadcast buffer of `Protocol` are values in a state machine, because their point is interleaving; `Tables.Database` and `Processing` have them as objects.
- The two caches are values in `Caches` for the same reason; lock fairness is not modelled, only what it may order.
- Count and list run on one state of the tables in `ArchivePages.Render`; between two separate queries rows can come and go.
- The join with `users` in the listing: the foreign key gives every job exactly one user, so it changes no row count.
- The prompt, parameters and display names of rows; they take part in no decision modelled here.
- Norwegian texts are symbolic messages.
- Calendar arithmetic: the start and expiry of a link and the month of a path come in as fields.
- `char::is_alphanumeric` beyond ASCII is an arbitrary function; lower-casing of provider statuses is ASCII, which decides the same five words.
- Lossy UTF-8 repair when a query parameter is not UTF-8; the code's own links never need it.
- Reading the `Retry-After` header text; the model takes the number it parses to.
- Recognising a content filter in an answer's body; the model takes the verdict.
- The XML reader for the delegation key; its fields are arbitrary texts.
- Voices, sizes, clip lengths, headings, templates, cards and elapsed-time formatting: fixed lookups that would only add easy members.
