# vod-tender, verified

A Dafny 4.11 model of the stateful protocols inside the vod-tender backend, with proofs of what they keep over whole
runs. `dafny verify dfyconfig.toml` checks everything.

SQL tables are maps, sequences or sets; instants and durations are integers. Where several processes share tables, a
run is a sequence of steps, one per SQL statement (one per transaction or job pass where the text says so), in any
interleaving, and the theorems hold for every such sequence. Code that loops or updates fields is also written as
methods, and those methods are proved against the functions that the theorems are about.

| file | what it models |
|---|---|
| `RateLimit`, `LimiterProtocol` | the Postgres sliding-window limiter as a protocol between replicas and cleanup jobs |
| `MemoryLimiter`, `LimiterEquivalence` | the in-memory limiter, and both limiters against one unbounded log |
| `Circuit` | the per-channel circuit breaker in the `kv` table |
| `Pipeline`, `Picking`, `PipelineRows`, `PipelineOutcomes`, `PipelinePicks`, `PipelineCaps`, `PipelineStops`, `PipelineExamples`, `Throttle`, `Processor` | the processing cycle: caps, selection, semaphore, download and upload loops, several workers, and workers that are stopped |
| `Retention`, `Storage` | the retention job, the orphan sweeper, and agreement between rows and files |
| `Poller`, `Chat`, `ChatVods`, `ChatAlone` | the recorder's poll loop, and the transaction that moves live messages to the published VOD, with others and alone |
| `Tokens` | token rows at two encryption versions, and their migration under concurrent writers |
| `Helix` | the Twitch API client's retry loop and its token cache |
| `Catalog`, `Duration` | paging through the archive with a saved cursor, and duration texts |
| `MovingAverage` | the moving averages of durations |

Some properties one would expect turned out to be false of the code. Each of these is stated with the exact condition
under which it holds, and with a run or an input that breaks it where the condition fails:

- **Rate limit.** The limit survives concurrent cleanup exactly if the window is at least the two-second database
  timeout. A window of one second is accepted by the configuration, and then a delayed request can outlive the rows it
  should have counted (`LimitHoldsIffWindowCoversTimeout`, `OneSecondWindowFails`).
- **Recorders.** At most one chat recorder runs, and the poll loop knows about it, exactly if no reconciler commits
  while a recorder is active or about to start. Every poll that sees the stream offline starts one more reconciler, so
  with the default settings (a poll every 30 seconds, a first attempt after a minute) several are under way. A commit
  that comes while the next stream is being recorded makes the loop start a second recorder for it; one that comes while
  a poll waits for its INSERT (backend/chat/auto.go:177) leaves the loop stuck, recording all later streams as one and
  reconciling none (`OneRecorderIff`, `SecondReconcilerDoublesRecording`, `CommitDuringInsertSticks`). From the moment a
  stream has been seen offline until a reconciliation commits, nothing is recorded at all
  (`NothingIsRecordedBeforeACommit`).
- **Chat times.** A message recorded after the statement that shifts relative times has taken its rows, and before the
  one that moves the messages does, is moved without being shifted. Over whole runs all relative times are right exactly
  if no reconciliation commits while such a message of its own is still under the placeholder, unless the real VOD
  starts when the stream did (`ChatAlignedIff`, `CommitKeepsAlignmentIff`, `RecordingInTheGapSkews`).
- **Uploads.** A worker that is stopped between an upload and the write of its URL (backend/vod/processing.go:439-477)
  loses the URL: the caps do not count that upload, and the VOD is picked again. A VOD is uploaded at most once exactly
  if no worker uploads it after another was stopped there with it (`SingleUploadIff`). A window holds at most the cap
  and one upload for each such stop, and whatever the configuration, with uploads enabled, there are runs with any
  number of stops that make that many (`WithinIff`, `CapAndCutsAreReached`).
- **Retries.** A pick that is cut short, by a cancelled context, a crash or a yt-dlp that does not start, leaves
  download_retries as it was. So DOWNLOAD_MAX_ATTEMPTS alone does not bound how often a row is picked; with m picks cut
  short the exact bound is DOWNLOAD_MAX_ATTEMPTS + m (`PickedWithinIff`, `PicksWithoutBound`).
- **Retention.** Raising a keep setting never deletes more, except from the default of zero for both, which switches the
  job off: there the first setting, however high, makes it start deleting (`RaisingDeletesLessIff`,
  `FirstPolicyDeletes`).
- **Orphan sweeper.** It asks for one channel's paths and scans the shared directory, so it deletes other channels' old
  files (`SweepKeepsAgreementIff`, `SweepTakesTheOtherChannelsFile`).
- **Catalog.** With a limit per run the cursor never gets past a page as large as the limit. Since the limit is also the
  page size when it is below 100, a limit of at most 100 fetches a full first page forever (`BackfillCompletesIff`,
  `SmallLimitsStick`, `OneAtATimeNeverArrives`). A run that fails after saving the cursor loses the pages before it for
  good (`RunLeavesNoGapIff`, `FailureAfterSavingLosesAPage`).
- **Throttled selection.** The comment at backend/vod/processing.go:280 says that a throttled cycle goes on searching
  for a newer item, but the query stops at 20 rows: it finds nothing exactly if 20 eligible back-catalog rows stand in
  front of every recent one, and with equal priorities all of them do (`ThrottleStarvesIff`, `ThrottledCycleStarves`).
- **Token migration.** Readers see nothing of the migration exactly if it never takes on a row whose tokens a process
  without encryption has changed since they were read; otherwise that write is undone (`MigrationIsInvisibleIff`,
  `RefreshIsUndone`).

The code is followed where the documentation differs: docs/ARCHITECTURE.md:66-71 and 108-111 let every processing
failure count against the circuit breaker and reset it after an upload, while the code counts failed downloads only and
resets it as soon as a download has succeeded.

## Model

| member | source | states |
|---|---|---|
| RateLimit.LoadConfig | backend/server/middleware.go:104-135 | positive overrides are taken, and otherwise the limit is 10 requests and the window a minute; so the limit is at least 1 and the window a positive number of whole seconds |
| LimiterProtocol.CountIsExact | backend/server/middleware.go:294-319 | a request that counts before its deadline sees every row ever committed in its window: cleanup has deleted none of them |
| LimiterProtocol.CommitFits | backend/server/middleware.go:293-346 | although times are read before the lock, every window that contains the new request only holds requests it has counted |
| LimiterProtocol.StepKeepsInv | backend/server/middleware.go:285-349 | every statement of every replica keeps: lock exclusion, room reserved for those past the check, denials justified, the limit itself |
| LimiterProtocol.LimitHoldsWithoutCleanup | backend/server/middleware.go:285-349 | without the cleanup job no interleaving puts more than the limit into any window of any address |
| LimiterProtocol.LimitHoldsIffWindowCoversTimeout | backend/server/middleware.go:273-349 | with cleanup the limit holds on all interleavings if and only if the window is at least the database timeout |
| LimiterProtocol.OneSecondWindowFails | backend/server/middleware.go:273-282 | for a one-second window, whatever the limit, an explicit interleaving commits one request too many |
| LimiterProtocol.AdmitsExactly | backend/server/middleware.go:293-348 | if no request of an address fails and their times lie within one window, every interleaving admits exactly min(N, limit) of them; with cleanup only for windows of at least the timeout |
| LimiterProtocol.SoloRuns | backend/server/middleware.go:285-349 | a request that meets no other counts its window and is recorded exactly if there is room |
| MemoryLimiter.IpRateLimiter.Allow | backend/server/middleware.go:198-236 | the method with its filter loop computes the new table and the answer of the specification |
| MemoryLimiter.IpRateLimiter.Cleanup | backend/server/middleware.go:184-195 | removes exactly the visitors not seen for more than two windows |
| LimiterEquivalence.MemoryAnswers | backend/server/middleware.go:198-236 | a visitor's filtered list is the log's window, so the answer is that of a log which forgets nothing |
| LimiterEquivalence.MemoryFollows | backend/server/middleware.go:184-236 | on every sequence of requests and cleanups under a clock that does not run backwards, the in-memory limiter answers like the log |
| LimiterEquivalence.PostgresFollows | backend/server/middleware.go:273-349 | so does the Postgres limiter when calls do not overlap |
| LimiterEquivalence.LimitersAgree | backend/server/middleware.go:137-141 | the two implementations of the interface give the same answers |
| LimiterEquivalence.VisitorListsStaySmall | backend/server/middleware.go:198-236 | each visitor's list stays sorted, non-empty and no longer than the limit |
| Circuit.CircuitStore.CheckGate | backend/vod/processing.go:99-119 | a cycle goes on unless the circuit is open with an end that is not over yet; an open one whose end is over becomes half-open, and nothing else changes, for no channel |
| Circuit.CircuitStore.UpdateOnFailure | backend/vod/vod.go:326-398 | the counting and opening on the kv entries; no other channel's entries change |
| Circuit.CircuitStore.Reset | backend/vod/vod.go:400-423 | the reset on the kv entries; no other channel's entries change |
| Circuit.BreakerMeaning | backend/vod/vod.go:326-423 | after any run the counter is the number of counted failures since the last success, capped at the threshold; the circuit is closed exactly below it; an open one carries the end of the last failure's cooldown |
| Circuit.OneFailurePerCooldown | backend/vod/processing.go:99-119 | once the threshold is reached no cycle starts before that instant, so counted failures are at least the cooldown, cut to whole seconds, apart |
| Circuit.PollStartsIff | backend/vod/processing.go:99-119 | after any run a poll of an idle channel starts a cycle if and only if the counted failures since its last success are below the threshold or the cooldown of the last one is over |
| Circuit.OneCycleAtATime | backend/vod/processing.go:64-119 | a poll during a cycle changes nothing, and the end of a cycle enters it in the log with its start and outcome |
| Circuit.ChannelsAreIndependent | backend/vod/processing.go:339-374 | over a run a channel ends up as if the others did not exist; that a single call touches no other channel is what the frames of the three methods above say |
| Picking.FirstIsPicked | backend/vod/processing.go:270-286 | the row picked is the first of the batch that the throttle does not hold back; nothing is picked if and only if it holds back all of them |
| Picking.PickIsFirstInOrder | backend/vod/processing.go:254-286 | the row picked is eligible and not held back, and of all such rows of the channel none has a higher priority, or the same one and an older date |
| Picking.NothingIsOverlooked | backend/vod/processing.go:254-294 | an unthrottled cycle picks nothing only if no row is eligible |
| Picking.CapsReopen | backend/vod/processing.go:208-240 | once no uploaded row of a channel has changed for 24 hours, neither cap holds it up |
| Picking.RecentVodsDoNotThrottle | backend/vod/processing.go:222-240 | uploads of VODs not older than the cutoff never throttle the back-catalog |
| PipelineRows.ProgressKeepsRow | backend/vod/processing.go:335-478 | each outcome of a download or upload keeps what is known of its row: processed implies no error, and every pick is paid for by a retry |
| PipelineRows.RowsOnlyMoveForward | backend/vod/processing.go:376-478 | along every run processed and uploaded never revert, and no row disappears but those of live placeholders, which a reconciliation deletes; what takes such a row's place is a new row |
| PipelineRows.WorkersNeverCollide | backend/vod/concurrency.go:34-53 | no row is with two workers, and no VOD but a live placeholder's is; the semaphore counts the workers between acquire and release and stays within its capacity, so a release finds a slot to return; a processed row has no error |
| PipelineRows.RetriesAreBounded | backend/vod/processing.go:254-258 | over every run a row is picked at most DOWNLOAD_MAX_ATTEMPTS times, and once more for each of its picks that was cut short |
| PipelinePicks.PickedWithinIff | backend/vod/processing.go:254-258 | a limit bounds the picks of every row of which at most m have been cut short, over all runs, if and only if it is at least DOWNLOAD_MAX_ATTEMPTS + m |
| PipelinePicks.PicksWithoutBound | backend/vod/processing.go:254-258 | under every configuration, and for every n, a run picks a row with an error more than n times, cut short each time, and its retries stay at 0 |
| PipelineRows.RetriesAreFew | backend/vod/vod.go:163-320 | if no context ends and yt-dlp always starts, no pick is cut short, and DOWNLOAD_MAX_ATTEMPTS picks are all there are |
| PipelineRows.RepicksWait | backend/vod/processing.go:254-258 | no processed row is picked, and one with an error only below the limit and at least a cooldown after the error |
| PipelineOutcomes.FailedRowWaitsIff | backend/vod/processing.go:335-462 | a row whose cycle ended in an error is eligible again if and only if retries are left and the cooldown is over: a failed upload costs one, and a download that needs a login all of them |
| PipelineOutcomes.AttemptsAreBounded | backend/vod/vod.go:163-320 | on every run a pick has at most DOWNLOAD_MAX_ATTEMPTS failed attempts |
| PipelineOutcomes.UploadIffWanted | backend/vod/processing.go:376-424 | a downloaded row is uploaded if and only if it has no URL, is not marked and uploads are enabled; otherwise it is processed at once |
| PipelineOutcomes.UploadsAreWanted | backend/vod/processing.go:376-424 | on every run: no upload while uploads are disabled, and none of a row picked while marked |
| PipelineCaps.QueryCoversUploads | backend/vod/processing.go:209-220 | the cap query counts at least the stored uploads of the last 24 hours, though later writes bump updated_at |
| PipelineCaps.QueryCoversBackfill | backend/vod/processing.go:222-240 | so does the back-catalog query, though its cutoff moves |
| PipelineCaps.RunBalances | backend/vod/processing.go:439-477 | every upload made is stored, lost or in the hands of the channel's worker, whichever uploads are counted |
| PipelineCaps.CapsHoldInEveryWindow | backend/vod/processing.go:208-240 | in every run every 24-hour window has at most UPLOAD_DAILY_LIMIT uploads of a channel, and at most BACKFILL_UPLOAD_DAILY_LIMIT of items that were back-catalog when picked, beyond those whose URL was lost |
| PipelineStops.SingleUploadIff | backend/vod/processing.go:376-478 | over a whole run a VOD is uploaded at most once if and only if no worker uploads it after a worker was stopped between an upload of it and the write of its URL |
| PipelineStops.CapAndCutsAreReached | backend/vod/processing.go:439-477 | under every configuration with uploads enabled, and for every m, a run that stops m workers there makes m uploads more in one window than each cap allows, and m + 1 of one VOD |
| PipelineStops.WithinIff | backend/vod/processing.go:208-240 | on all runs with at most m such stops every window keeps to a limit, for all uploads or for the back-catalog ones, if and only if the limit is at least the cap plus m |
| Throttle.RecentRowComesAfterRowsAhead | backend/vod/processing.go:254-258 | a recent row is in the batch only if all eligible rows in front of it are |
| Throttle.ThrottleStarvesIff | backend/vod/processing.go:254-294 | a throttled cycle finds no recent item although there is one, if and only if 20 or more eligible back-catalog rows stand in front of every recent one |
| Throttle.EqualPrioritiesStarveIff | backend/vod/processing.go:254-294 | while nobody has set a priority, that is if and only if 20 or more back-catalog rows are eligible |
| Throttle.ThrottledCycleStarves | backend/vod/processing.go:222-294 | under every configuration with uploads enabled and a back-catalog limit below the daily one, a run from the empty table whose next cycle is throttled and picks nothing, although a recent VOD is eligible |
| Processor.UploadWithRetries | backend/vod/processing.go:425-470 | the upload is made exactly if the first answer that is not worth a retry is a success, and interrupted exactly if it is a cancellation |
| Processor.Cycle.PickCandidate | backend/vod/processing.go:270-286 | the loop picks the first row that the throttle does not hold back, and none if and only if it holds back all |
| Processor.Cycle.Download | backend/vod/vod.go:163-320 | which of the four outcomes the loop has, decided by the attempts; retries and error afterwards; the slot is kept or, when cancelled, given back |
| Processor.Cycle.Publish | backend/vod/processing.go:376-478 | which of skip, upload, failure and interruption happens, what it leaves in the row, and which upload is made and stored |
| Processor.Cycle.ProcessOnce | backend/vod/processing.go:208-478 | a cycle is a run of the state machine; it ends idle with its slot returned on every path; without a pick nothing changes, and otherwise row and uploads are what the outside answers demand |
| Retention.Job.CollectRetained | backend/vod/retention.go:111-183 | the set built by the three loops is exactly the retained rows |
| Retention.Job.Run | backend/vod/retention.go:186-304 | the pass with its I/O errors and dry run leaves the table and the files of the specification, and its three counters are the numbers of rows with each verdict |
| Retention.Job.Tick | backend/vod/retention.go:64-99 | without a policy the job does nothing |
| Retention.RowsInUseAreKept | backend/vod/retention.go:159-172 | whatever the policy, a pass leaves path and file of a VOD that is not processed, that changed within the hour and has no URL, or that is being downloaded |
| Retention.PathGoesIff | backend/vod/retention.go:111-289 | a row loses its path, and its file, in a real pass if and only if a policy is set and it is none of these, older than keepDays, not among the newest keepCount, and its file can be removed or is gone; what the row then holds |
| Retention.VerdictsMean | backend/vod/retention.go:186-304 | the counted verdicts are what happened: files removed, paths cleared, rows left because of an error, rows kept; and what a dry run counts |
| Retention.PassTouchesOnlyItsOwn | backend/vod/retention.go:64-99 | no row of another channel or without a path changes, and nothing at all in a dry run or without a policy |
| Retention.KeepsExactlyTheRetained | backend/vod/retention.go:111-289 | the same for the whole table and the directory: no other row changes, and no file goes but those of such rows |
| Retention.SecondPassDoesNothing | backend/vod/retention.go:208-289 | an immediate second pass deletes nothing, also after I/O errors |
| Retention.RaisingDeletesLessIff | backend/vod/retention.go:64-71 | raising the keep settings never makes the job delete more, on any channel, if and only if one of them was set before or none is now |
| Retention.FirstPolicyDeletes | backend/vod/retention.go:64-71 | for every first policy there is a channel of which it deletes a file |
| Retention.NewestMeansFewNewer | backend/vod/retention.go:138-157 | a row kept by count has fewer than N newer rows, one left out has at least N others as new |
| Storage.PathsAreDistinct | backend/vod/vod.go:95 | different VODs have different files |
| Storage.RetentionKeepsAgreement | backend/vod/retention.go:229-289 | retention never takes the file of a row that keeps its path |
| Storage.DownloadedThenRemoved | backend/vod/processing.go:494-505 | a download gives a row its path and file, and the removal after the upload takes both away |
| Storage.OtherWritesKeepPaths | backend/vod/processing.go:494-505 | a new VOD has no path and replaces no row, other writes leave paths alone, and the removal of a file that is not there changes nothing |
| Storage.SweepTakesIff | backend/vod/processing.go:153-198 | a sweep takes exactly the files with a video extension, in any case, that are older than the cutoff and that no row of its channel names |
| Storage.SweepKeepsAgreementIff | backend/vod/processing.go:153-198 | a sweep keeps every path's file on disk if and only if no other channel has a file older than the cutoff |
| Storage.SweepTakesTheOtherChannelsFile | backend/vod/processing.go:153-198 | a run of two channels after which a path has no file |
| Storage.FilesAgree | backend/vod/processing.go:494-505 | on one channel, under any order of download, post-upload removal, sweep and retention, every path has its file and no two rows share one |
| Poller.AutoRecorder.Poll | backend/chat/auto.go:72-176 | one poll on the loop's variables, up to its INSERT |
| Poller.AutoRecorder.BeginRecording | backend/chat/auto.go:178-185 | the rest of a poll that found a new stream |
| Poller.AutoRecorder.Committed | backend/chat/auto.go:148-155 | what a committed reconciler does to them |
| Poller.OneRecorderIff | backend/chat/auto.go:82-185 | over a run at most one recorder is active, known to the loop, on the current stream, and the loop is not stuck, if and only if no reconciler commits while a recorder is active or about to start |
| Poller.SecondRecorderIff | backend/chat/auto.go:153-178 | a commit while a recorder is active, and nothing else, makes the next poll start a second one |
| Poller.StuckIff | backend/chat/auto.go:153-178 | a commit in the middle of a poll, and nothing else, leaves the loop stuck when the poll is over |
| Poller.StuckForGood | backend/chat/auto.go:81-173 | while no reconciler commits, so for ever if none is under way, a stuck loop starts and cancels no recorder and starts no reconciler |
| Poller.OfflineReconciles | backend/chat/auto.go:80-90 | the first poll without a stream after a recorded one stops its recorder and starts a reconciler for it |
| Poller.OnePollAtATime | backend/chat/auto.go:174-185 | while a poll waits for its INSERT no other poll does anything, and that one starts the recorder |
| Poller.EndsAndExits | backend/chat/auto.go:88-166 | a reconciler that gives up changes nothing else, and a recorder that gives up stops no other |
| Poller.SingleFileIsOrderly | backend/chat/auto.go:80-90 | with one reconciler at a time there is never a second recorder |
| Poller.SecondReconcilerDoublesRecording | backend/chat/auto.go:82-89 | a run in which the second of two reconcilers gives the next stream two recorders |
| Poller.CommitDuringInsertSticks | backend/chat/auto.go:174-178 | a run in which it leaves the loop stuck with an active recorder and nobody left to commit, whatever comes after |
| Poller.NothingIsRecordedBeforeACommit | backend/chat/auto.go:170-173 | after a stream was seen offline no stream is recorded before a reconciliation commits |
| Chat.MessagesStayAligned | backend/chat/auto.go:119-155 | with any number of reconciliations open, each message names an existing VOD at every statement, in the tables and in what each transaction sees, and a committed message has rel = abs - date of its VOD unless it was moved without being shifted |
| Chat.NoMessageIsWrittenTwice | backend/chat/auto.go:129-142 | no message has been written by two open reconciliations |
| Chat.NoGapNoSkew | backend/chat/auto.go:129-142 | without a recording between the start of a shift and the start of its move no message is ever out of place |
| Chat.CommitMovesOnce | backend/chat/auto.go:129-151 | a commit moves and shifts each of the placeholder's messages once, but for those recorded in the gap, and leaves all others alone; what it moves unshifted was recorded in the gap |
| Chat.CommitKeepsAlignmentIff | backend/chat/auto.go:129-142 | a commit leaves all messages aligned if and only if they were and, unless the dates agree, no message recorded in its gap is still under the placeholder |
| Chat.ChatAlignedIff | backend/chat/auto.go:119-155 | after any run all committed messages satisfy rel = abs - date of their VOD if and only if no step committed a reconciliation whose VOD starts at another time than the stream, with a message recorded in its gap still under its placeholder |
| Chat.DeleteRefusedIff | backend/chat/auto.go:143-147 | the foreign key stops the transaction if and only if another channel's message, or one recorded after the move, names the placeholder |
| Chat.EveryMessageMovesAtMostOnce | backend/chat/auto.go:82-166 | between any two points of any run no message is lost or altered, except that it moves at most once, to a real VOD, and is then shifted once by the difference of the dates, or not at all if it is one of the skewed: repeated and overlapping reconciliations are harmless |
| Chat.RecordingInTheGapSkews | backend/chat/auto.go:132-138 | a run in which a message ends up five seconds off |
| ChatAlone.AloneItReconciles | backend/chat/auto.go:119-155 | after any run, a reconciliation that meets no other and no recording gets to its end: the VOD has a row, all messages of the channel are there and timed from its start, its placeholder is gone, nothing else changes; or all is as it was, if and only if another channel has a message under the placeholder |
| ChatVods.CommitSetsVods | backend/chat/auto.go:119-151 | whatever else is going on, a commit leaves the VOD's row, its own if there was none, takes away only a placeholder of its own channel, and changes no other row |
| ChatVods.VodGoesIff | backend/chat/auto.go:119-151 | no step changes a row of vods, and one goes if and only if it is the placeholder that a committing reconciliation of its own channel has deleted |
| ChatVods.PublishedVodsStay | backend/chat/auto.go:119-151 | between any two points of a run a published VOD's row stays as it is |
| ChatVods.NoVodIsWrittenTwice | backend/chat/auto.go:119-147 | no row of vods has been written, and no placeholder deleted, by two open reconciliations |
| ChatVods.NextWaitsIff | backend/chat/auto.go:119-147 | a statement waits if and only if another open transaction has written the row of vods that it writes, and otherwise runs |
| ChatVods.VisitWaitsIff | backend/chat/auto.go:129-142 | an UPDATE waits at a message if and only if another open transaction has written it |
| ChatVods.InsertTakesEffectIff | backend/chat/auto.go:174-178 | an INSERT into vods by somebody else does nothing if the row is there, and otherwise takes effect unless an open transaction has inserted it |
| ChatVods.RecordTakesEffectIff | backend/chat/chat.go:44-62 | a message is recorded, timed from the start of the stream, if and only if its placeholder is there and no open transaction has deleted it |
| Chat.ChooseCandidate | backend/chat/auto.go:106-118 | which published VOD the loop chooses: none only if none is within ten minutes; the latest, if that is not before the stream; otherwise the first |
| Tokens.EncryptionRoundTrips | backend/crypto/crypto.go:135-168 | decryption gives back what was encrypted, and only the empty string encrypts to the empty string |
| Tokens.UpsertThenGet | backend/db/db.go:245-352 | a stored token reads back as written, in either version, and every other one as before |
| Tokens.UpsertStores | backend/db/db.go:245-296 | a process with encryption writes version 1 and only what the cipher has made of the tokens, and fails if and only if it has no randomness for it; one without writes them as they are, with version 0; no other row changes |
| Tokens.ReadingWithoutKey | backend/db/db.go:299-352 | without a key an encrypted row is an error, and a plaintext one reads as it is |
| Tokens.MigrateTokenIsInvisibleIff | backend/cmd/migrate-tokens/main.go:206-268 | migrating a row leaves what readers get unchanged if and only if it still holds the tokens that were read |
| Tokens.EncryptedRowsStay | backend/cmd/migrate-tokens/main.go:206-268 | a row that is no longer plaintext is never overwritten |
| Tokens.MigrationIsInvisibleIff | backend/cmd/migrate-tokens/main.go:106-268 | at every point of an interleaving with writers of both kinds readers get what a plain map that saw only the writes would give, if and only if the migration never takes on a row whose tokens a process without encryption has changed since they were read |
| Tokens.MigrationIsInvisible | backend/cmd/migrate-tokens/main.go:106-268 | so it is invisible whenever every other writer encrypts |
| Tokens.RefreshIsUndone | backend/cmd/migrate-tokens/main.go:206-268 | a run in which the migration puts an old token back |
| Tokens.EncryptedAtRest | backend/db/db.go:245-296 | after any interleaving of the migration with writers of both kinds, a row last written by an encrypting process, or by its migration, is at version 1, holds only ciphertext and decrypts to what was written |
| Tokens.Tool.MigrateTokens | backend/cmd/migrate-tokens/main.go:106-203 | the tool's loop with its counters; it succeeds exactly if every row could be encrypted, and a dry run changes nothing |
| Tokens.ToolIsIdempotent | backend/cmd/migrate-tokens/main.go:106-203 | after a successful run readers get what they got before, no row of version 0 is left on the chosen channels, a second run changes nothing, and the rows still not encrypted are those whose version was neither 0 nor 1, such as NULL |
| Helix.TokenSource.Get | backend/twitchapi/token.go:29-97 | the cached token if it lives for more than a minute, a new one otherwise |
| Helix.Client.React | backend/twitchapi/helix.go:60-133 | the branches on a reply, with the close of the body, the forced refresh and the rolled-back counter |
| Helix.Client.RequestJSON | backend/twitchapi/helix.go:37-137 | the loop is the specified one, for its result, its requests, its closes and the token cache |
| Helix.CallsAreBounded | backend/twitchapi/helix.go:45-136 | a call ends after at most five requests and one forced refresh, never by the return after the loop, and gives up on passing trouble only after the limit |
| Helix.EveryBodyIsClosedOnce | backend/twitchapi/helix.go:71-129 | each response body is closed exactly once, however the call ends |
| Helix.ResultIsTheLastReply | backend/twitchapi/helix.go:60-133 | only network errors, 429, 5xx and the first 401 are retried, and the result is that of the last reply |
| Helix.NoTokenOutlivesARefusal | backend/twitchapi/helix.go:71-85 | every request after a 401 carries a token asked for after it |
| Helix.RepliesDecide | backend/twitchapi/helix.go:45-136 | the whole call by its replies: which of them are followed by another request, that the token is thrown away exactly after a 401, and for each outcome what it says about the last reply, sleep and token request |
| Helix.RefusalIsRefreshed | backend/twitchapi/helix.go:71-85 | a 401 always leads to one forced refresh, and a call that ends with a 401 had an earlier one |
| Catalog.Catalog.FetchPage | backend/vod/catalog.go:53-79 | one page of a run: it ends the run as specified, or takes it to the next page |
| Catalog.Catalog.FetchAll | backend/vod/catalog.go:28-87 | a successful run returns the first maxCount of the VODs not older than the cutoff, in order, from the start cursor; where the cursor ends; when the run fails |
| Catalog.Catalog.Backfill | backend/vod/catalog.go:90-100 | inserts exactly what a run returned, and nothing after a failure |
| Catalog.RecentMeans | backend/vod/catalog.go:60-66 | an age limit keeps exactly the VODs before the first one that is older than the limit |
| Catalog.PagesPassedAreReturned | backend/vod/catalog.go:53-79 | a run returns every VOD of the pages it moved the cursor past |
| Catalog.RunLeavesNoGapIff | backend/vod/catalog.go:54-79 | a run leaves no VOD missing before the cursor if and only if it did not fail after moving it past something new |
| Catalog.CatalogHasNoGaps | backend/vod/catalog.go:48-79 | over any number of runs without errors everything before the saved cursor has been inserted |
| Catalog.GapsStay | backend/vod/catalog.go:48-57 | what is missing before the cursor is never fetched again |
| Catalog.RunMovesIff | backend/vod/catalog.go:58-75 | a run moves the cursor if and only if its page is not the last, not empty and smaller than the limit |
| Catalog.NothingPastAFullPage | backend/vod/catalog.go:68-75 | no number of runs gets past a page that fills the limit |
| Catalog.SmallLimitsStick | backend/vod/catalog.go:44-75 | with a limit of at most 100 and a full first page, nothing but that page ever arrives |
| Catalog.BackfillCompletesIff | backend/vod/catalog.go:44-79 | the whole listing arrives if and only if no page but the last is as large as the limit |
| Catalog.OneAtATimeNeverArrives | backend/vod/catalog.go:44-79 | two VODs of which the second never arrives |
| Catalog.FailureAfterSavingLosesAPage | backend/vod/catalog.go:54-79 | a failing run after which a VOD is never fetched |
| Duration.ParseTwitchDuration | backend/vod/catalog.go:140-166 | the loop reads what the recursive definition reads |
| Duration.PrintReadsBack | backend/vod/catalog.go:140-166 | groups in any order, some omitted, read back as their total |
| Duration.ClockReadsBack | backend/vod/catalog.go:139-166 | every duration printed as hours, minutes and seconds reads back |
| Duration.OrderAndTrailingDigits | backend/vod/catalog.go:143-164 | the order of whole groups does not matter and trailing digits count for nothing |
| MovingAverage.StepGoesAFifth | backend/vod/processing.go:544-560 | a sample moves the average a fifth of the way, up to rounding |
| MovingAverage.StaysAmongSamples | backend/vod/processing.go:544-560 | the stored average stays between the smallest and the largest sample |
| MovingAverage.StepsCloserIff | backend/vod/processing.go:544-560 | a repeated sample brings the average closer if and only if it is 3 or more away |
| MovingAverage.Settles | backend/vod/processing.go:544-560 | under a constant sample the average ends within 2 and then stays |

## Left out

- HTTP handlers, routing, authentication, telemetry, logging, configuration parsing apart from the limiter's, the
  frontend and the deployment files: plumbing.
- yt-dlp, YouTube, IRC, the Helix transport and ffmpeg are outcomes chosen from outside. AES-256-GCM and base64 are an
  abstract cipher with the property of section 7 of NIST SP 800-38D and section 4 of RFC 4648.
- Rate limiter: all replicas and the cleanup jobs read one clock; a statement still running in the database when its
  deadline passes is taken not to take effect; requests let through because the database failed are not counted, only
  committed rows are; the sequential comparison takes a disabled limiter out.
- Circuit breaker: the threshold does not change during a run, writes succeed, and a crash between the two writes that
  open the circuit is not modelled.
- Pipeline: a write whose error the code ignores is modelled only as the end of the worker's cycle at that point, as a
  cancelled context or a crash has it. COALESCE(updated_at, created_at) is one field, and a VOD's date does not change.
  Back-off delays and the user's own cancellation, which only kills the child process and so is a failed attempt, have
  no step of their own. The only rows deleted are live placeholders (backend/chat/auto.go:143), and yt-dlp fetches
  nothing for their ids. The reprocess handler, which resets rows by hand, is not part of this model.
- Processor.Cycle.ProcessOnce: is about one worker that nobody interferes with, while the theorems about runs cover
  interleaved workers; a cycle that finds no free slot ends by a cancelled context.
- Processor.Cycle.Download: the output of yt-dlp is not modelled, so whether a login is required is an input.
- Retention and storage: one pass of a job is one step, a running download is not interleaved with it, and removal
  after upload is one step. A sweep is stated for the rows of one channel in the shared directory.
- Poller: the variables shared with the reconcilers without a lock are read and written in pieces that wait for
  nothing: a commit's two writes, a poll that sees no stream, and a poll that sees one before and after its INSERT.
  What the Go memory model allows beyond that is not modelled.
- Chat: an INSERT or DELETE is one step, while an UPDATE of messages goes row by row; a reconciliation that a deadlock
  or an error ends is a rollback. Instants are whole seconds, and a VOD's date is a function of its id. The recorder
  always writes under the configured channel, so DeleteRefusedIff covers what happens when that differs from the polled
  one.
- Tokens: rows are not deleted while the migration runs.
- Helix: the delays between requests and the check for a missing client id are left out, and so is a token source used
  by several callers at once.
- Catalog: the listing does not change between runs. A cancelled wait is the failure of the next page, since the
  caller drops the result either way.
- Duration: counts are unbounded integers, so overflow of a 64-bit integer is not modelled.
- MovingAverage: samples are whole milliseconds and the arithmetic is exact, so the rounding of binary floating point
  is not modelled; a stored value that is not a number is not modelled either.
