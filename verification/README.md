# FlowProviderAPI in Dafny

FlowProviderAPI is a durable job queue in front of a paid upstream. This project
models the parts of it where a mistake costs money or loses work, and proves
what they promise over every input, every interleaving and every run.

- **Job store and dispatch.** `JobTable` has one function per SQL statement on
  `provider_jobs`. `Protocol` makes them the steps of a state machine: any number
  of dispatch coroutines (cut at their awaits), polls, clock ticks, crashes,
  lease and age expiry, status reads, enqueues and sweeps, in any order; answers,
  delays and fresh names are inputs. `ProtocolSafety` holds the invariant, and
  `Guarantees`, `Outcomes`, `Fairness` and `Polling` state what follows for whole runs;
  `Outcomes` says what answers and polls do to a row as tables over literal statuses
  and fields, apart from the functions that protocol and worker share.
  `ProjectStore` and `JobWorker` are the classes, with loops and fields updated in
  place; each method is proved against the statement or step it stands for.
- **Source bytes.** `AssetLibrary` specifies the maintenance sweep: references,
  orphan clocks, rotating cursors. `ProjectStore.Prune` runs it, and its contract says
  what becomes of every asset, mapping and cursor in terms of the old tables alone.
- **Slots, credits, admission.** `Runtime` (the four counter maps and their ledger),
  `Credits` (a balance that is read, shown and spent), `Admission` (the backlog bound and
  the body buffer of the request middleware).
- **Media and routing.** `MediaCache` (double-checked uploads), `MediaTransfer`
  (connection, project and media ids a job is sent with), `ManagedProject` (the paged
  project lookup), `VideoResult` (JSON trees of a video poll), `RoutingScope` (the signed
  header).
- **Connections and sign-in.** `Bridge` (lookup tables and pending calls),
  `AccountRefresh` (the backend's sign-in generations), `BearerCache` (the extension's
  sequence counters).

Most operations are specified twice: by the function their method equals, which the proofs
about runs use, and by a plain statement over fields, literal limits, statuses and codes that
names none of those functions. The second is part of the method's contract or a lemma beside it
(`...Exactly`, `...IsAStep`), so a slip made in a shared function does not carry over to what is
claimed about it.

Conventions: identifiers that the source only compares are naturals; times are whole
seconds, as `CURRENT_TIMESTAMP` has them; a digest stands for the bytes it addresses;
upstream answers are arbitrary. An event that is not enabled changes nothing, so a run
is any sequence of events.

## Where the code does less than it promises

For each point one lemma gives an input or run at which the promise fails, and another says
exactly when it is kept.

- **Duplicate Idempotency-Key headers.** The middleware admits a request by the last such
  header and the routes enqueue under the first. A request with a new key first and a known key
  last passes without a slot and adds a job to a full queue
  (`Admission.DisagreeingKeysOverfill`). The backlog bound holds beside a header list in every
  run if and only if its keys agree (`Admission.HarmlessExactly`).
- **Sent images.** An image whose call raises ends as failed with `outcome_unknown = 0`
  (`Guarantees.ImageGapHappens`); the worker sets `paid_attempted` for videos only. Exactly
  when: `Guarantees.ImageFlagExactly`.
- **Two-step credit refresh.** A balance read before a paid attempt settles and stored after it
  is too high, and the next reservation can overspend (`Credits.LateStoreOverspends`). Exactly
  when a shown balance is harmful: `Credits.OverspendExactly` for any cost,
  `Credits.JobOverspendsExactly` for the worker's prices. No run without such a late store
  overspends (`Credits.NeverOverspent`).
- **Queue order within a second.** In the second of its own key a waiting video is overtaken by
  a new image (`Fairness.SameSecondCanOvertake`). Exactly who gets ahead of a waiting job:
  `Fairness.NewcomerOvertakesExactly` and `Fairness.ReleasedOvertakesExactly`.
- **Locked projects.** A routing-locked job whose project owner is recorded under the bare
  installation id is moved to the managed project once that account's e-mail is known
  (`MediaTransfer.LockedProjectCanMove`). Exactly when: `MediaTransfer.LockedProjectKeptExactly`.
- **Empty errors.** An operation with `"error": null` is reported as failed
  (`VideoResult.NullErrorIsReported`). Exactly what is reported, and that only such empty errors
  make the difference: `VideoResult.ReportedExactly`.
- **Non-ASCII scopes.** A routing scope with a non-ASCII payload or signature raises instead of
  being answered as invalid; exactly then: `RoutingScope.RaisesExactly`.

## Model

| member | source | states |
|---|---|---|
| Guarantees.SentAtMostOnce | app/workers/job_worker.py:222-840 | in every reachable state a job's generation request has been sent at most once, so has the one behind an idempotency key, and a queued job has never been sent |
| Guarantees.SendIsBooked | app/workers/job_worker.py:669-708 | a coroutine about to send still has its row, has not sent before, and its send counts for that row and its key |
| Guarantees.RowsAreWellFormed | app/projects.py:1276-1458 | in every reachable state claimed_at is set exactly while dispatching, queued rows hold no token, routes and outcome flags fit the status, and no two rows share rowid, live token or key |
| Guarantees.LostLeaseIsFinal | app/projects.py:1183-1218 | a worker whose claim lapsed cannot change the store by any answer, rejection or release, and its row is failed with an unknown outcome |
| Guarantees.KnownFailuresAreTrue | app/workers/job_worker.py:709-829 | a failed video that claims a known outcome was never sent, or was definitely rejected, or a later poll reported its failure |
| Guarantees.UnclearFailuresAreFlagged | app/workers/job_worker.py:776-829 | a failed video that was sent, without definite rejection or reported failure, is flagged as unknown, also after crash, exception, missing poll id, lease or poll timeout |
| Guarantees.ImageGapIsAnException | app/workers/job_worker.py:587-642 | the only sent image without a definite rejection that claims a known outcome is one whose call raised |
| Guarantees.ImageFlagExactly | app/workers/job_worker.py:593-642 | while it owns its row, an image answer ends as a failure with known outcome if and only if it was a definite rejection or an exception |
| Guarantees.ImageGapHappens | app/workers/job_worker.py:811-829 | a run of five steps that sends an image and ends with a failure claiming a known outcome |
| Outcomes.AnswersFollowTheTable | app/workers/job_worker.py:587-829 | in every reachable state an answer changes no row but its own job's, and that one only under its own claim: by status, error, quota text, poll name and later exception into running, completed or failed, with code, flag, account and project each given |
| Outcomes.AcceptedVideoRuns | app/workers/job_worker.py:789-810 | an accepted video runs from now under the account, project and poll name it was answered with, counters at zero, first poll after the delay, claim cleared and token kept |
| Outcomes.AcceptedImageCompletes | app/workers/job_worker.py:617-642 | a valid image answer completes its row now, with the account and project it was sent with |
| Outcomes.VideoFlagExactly | app/workers/job_worker.py:715-829 | while its claim holds, a video answer ends as a failure with known outcome if and only if it was a definite no, and runs if and only if accepted, named and recorded |
| Outcomes.HistoryIsExact | app/workers/job_worker.py:669-708 | the records the guarantees speak of are exact: a send counts once for its own job, an answer is the one that came, a poll verdict is a reported failure that a routed poll with errors to spare heard |
| Outcomes.VideoRunsToCompletion | app/workers/job_worker.py:211-1031 | an eight-step run from a fresh installation in which a video is enqueued, claimed, sent once, accepted, polled and completed with its route |
| Guarantees.StepMoves | app/projects.py:1276-1612 | one step of anything leaves a row alone or follows an edge of the status graph, and only rows that are terminal, keyless and certain can disappear |
| Guarantees.TerminalRowsAreFinal | app/projects.py:1391-1458 | a completed or failed row never changes in any field over any run; if it is gone it was forgettable |
| Guarantees.KeyedRowsStay | app/projects.py:889-900 | a row with an idempotency key outlives every run with its submission unchanged |
| Guarantees.ReplayInsertsNothing | app/projects.py:919-959 | an enqueue under a key that was ever used changes nothing, however much later |
| Guarantees.BytesOutliveJob | app/projects.py:836-886 | bytes present while an active job lists them are still there whenever that job is still active |
| Guarantees.EnqueuedBytesStay | app/projects.py:786-903 | bytes on disk when a job listing them is enqueued stay until the job is terminal, under any number of sweeps |
| Guarantees.RunHonoursGrace | app/projects.py:867-886 | bytes registered or re-registered stay on disk for the whole retention period |
| Guarantees.PersistedBytesReachTheirJob | app/projects.py:996-1025 | bytes from persist_asset survive to an enqueue within the retention period, and from there to the end of the job, even if they had been orphaned long before |
| Guarantees.NamedBytesStay | app/projects.py:811-872 | bytes outlive any run in which something names them in every state: a live Character, an unfinished job, or a mapping to a media id of one |
| Guarantees.CharacterBytesStay | app/projects.py:813-821 | bytes a Character lists are there as long as it stays undeleted, over any run with all its sweeps |
| Guarantees.TiedBytesStay | app/projects.py:833-842 | so are bytes behind a mapping whose media id an unfinished job names |
| ProtocolSafety.StepKeeps | app/projects.py:905-1688 | every step of the protocol keeps the invariant: rows, tokens, keys, sends, honest failures, poll snapshots, poll slots |
| ProtocolSafety.RunKeeps | app/workers/job_worker.py:211-1031 | so does every run |
| ProtocolSafety.ChangeKeeps | app/projects.py:1183-1570 | any table change that keeps submissions, follows the status rules and justifies its known failures keeps the invariant |
| ProtocolSafety.OwnWriteKeeps | app/projects.py:1321-1458 | a coroutine that writes only its own row under its own token, and ends, keeps the invariant |
| ProtocolSafety.SendKeepsTruth | app/workers/job_worker.py:669-708 | sending makes no earlier failure dishonest |
| ProtocolSafety.RespondKeeps | app/workers/job_worker.py:587-829 | recording any answer keeps the invariant, whoever owns the row by then |
| ProtocolSafety.SweepKeeps | app/projects.py:786-903 | a sweep keeps the invariant although coroutines and polls of forgotten rows may be alive |
| Fairness.ClaimedWithinAhead | app/projects.py:1286-1313 | a job past its queue key with k rows ahead sees at most k successful claims while it waits |
| Fairness.NoJobStarves | app/projects.py:1276-1335 | the same from every reachable state: no schedule makes a due job wait for more claims than there were rows ahead of it |
| Fairness.AheadNeverGrows | app/projects.py:1321-1335 | past its key, no step puts another row ahead of a queued job |
| Fairness.ClaimShrinks | app/projects.py:1286-1313 | every claim that passes a waiting job over takes one row from ahead of it |
| Fairness.NewcomerOvertakesExactly | app/projects.py:1286-1293 | a new job goes ahead of a waiting one if and only if the waiting one's key is in the future, or is this second and an image meets a video |
| Fairness.ReleasedOvertakesExactly | app/projects.py:1321-1335 | a released job goes ahead if and only if its new key is earlier, or equal and it wins by medium or by rowid |
| Polling.PollsAreBounded | app/workers/job_worker.py:842-865 | in every reachable state at most worker_poll_concurrency polls run; a start adds only jobs not being polled and never more than asked for |
| Polling.FailingPollsCount | app/projects.py:1572-1612 | while a job keeps running on unanswered polls, each adds exactly one error, and there are at most ten |
| Polling.EleventhPollGivesUp | app/workers/job_worker.py:876-884 | the poll after ten consecutive errors fails the job with an unknown outcome, whatever it would have heard |
| Polling.AnswerClearsErrors | app/workers/job_worker.py:1009-1014 | a poll that hears the video is still being made resets the consecutive count |
| Polling.BackoffIsMonotoneAndCapped | app/workers/job_worker.py:70-75 | more errors never mean a shorter delay, and no delay exceeds the maximum |
| Polling.BackoffDoublesEightTimes | app/workers/job_worker.py:70-75 | below the maximum each of the first eight errors doubles the delay, later ones leave it at 256 times the base |
| Polling.PollDelayExactly | app/workers/job_worker.py:70-75 | nothing without a base; else the base times 1, 2, 4 up to 256 by the error count, or the maximum if that is less |
| AssetLibrary.BatchIsPrefix | app/projects.py:801-810 | a candidate batch is sorted, drawn from the candidates past the cursor, leaves no gap and is short only at the end |
| AssetLibrary.BatchIsWindow | app/projects.py:801-805 | ORDER BY key LIMIT n by counting: a candidate is taken if and only if it lies behind the cursor with fewer than n candidates between |
| AssetLibrary.SweepSparesReferenced | app/projects.py:811-872 | bytes that a Character not deleted, an unfinished job, or a mapping to one's media id names are not deleted, and an examined such asset loses its orphan mark |
| AssetLibrary.ReferencedExactly | app/projects.py:811-844 | the set the sweep collects is exactly what a Character not deleted, an unfinished job, or a mapping to a media id of one names |
| AssetLibrary.SweepsAsset | app/projects.py:801-886 | everything one sweep does to one asset: untouched outside the window behind the cursor, else cleared when named, marked when new to it, retired with its bytes once marked for the retention period, or left waiting |
| AssetLibrary.SweepsMapping | app/projects.py:845-857 | a mapping is deleted if and only if it is stale, in the window behind the cursor, and named by no unfinished job; all others stay as they were |
| AssetLibrary.SweepDeletesExactly | app/projects.py:858-888 | a sweep deletes exactly the examined, unreferenced assets whose grace period had already run out |
| AssetLibrary.SweepKeepsLiveMappings | app/projects.py:845-857 | a media mapping named by a live job survives unchanged, however stale |
| AssetLibrary.SweepIsBounded | app/projects.py:789-902 | a sweep changes at most one batch of operations, mappings and assets |
| AssetLibrary.EveryAssetIsExamined | app/projects.py:801-810 | from any cursor, n assets in batches of b are all examined within n / b + 2 consecutive batches |
| AssetLibrary.EveryMappingIsExamined | app/projects.py:845-852 | the same for stale mappings, whose cursor starts over at 0 |
| Guarantees.SweepsRotate | app/projects.py:797-902 | the sweeps of any run over a fixed catalogue hand the cursor on, whatever happens between them |
| Guarantees.SweepsReachEveryAsset | app/projects.py:797-902 | in any run with a fixed catalogue of n active assets, each is examined by one of the first n / b + 2 sweeps |
| ProjectStore.OldestFew | app/projects.py:1644-1688 | ORDER BY key LIMIT n: distinct rows in order, and nothing left out is older than anything taken |
| ProjectStore.ProjectStore.EnqueueJob | app/projects.py:905-959 | inserts a queued row with the submission, its route, this second and a rowid above all others, and reads it back; or replays the row under the key, or refuses; created exactly when id and key are new, and apart from lapsed claims nothing else changes |
| ProjectStore.ProjectStore.GetJob | app/projects.py:1220-1241 | a status read fails every claim older than the lease as unknown and, for this job alone, an image queued past the image limit, a video queued past the video limit, or a video running past the running limit, each with its code and flag; every other row and field stays, and the row returned is the one stored |
| ProjectStore.ProjectStore.FailAbandonedDispatches | app/projects.py:1183-1218 | a row changes if and only if it is dispatching and was claimed at or before now minus the lease; then it fails as unknown with its medium's code, without claim or token; changed rows are counted |
| ProjectStore.ProjectStore.FailExpiredJobs | app/projects.py:1484-1570 | in scope, a queued image fails if and only if it is as old as the image limit, a queued video as the video queue limit, a running video as the running limit since it began; the first two with known outcome, the last without, each with its code; every other row is untouched and changed rows are counted |
| ProjectStore.ProjectStore.ClaimNextQueuedJob | app/projects.py:1276-1319 | takes the queued row whose retry time has come and that is first by retry or creation time, images before videos, then rowid, and changes nothing but its status, claim time and token; none only if no such row exists |
| ProjectStore.ProjectStore.ReleaseJobClaim | app/projects.py:1321-1335 | succeeds exactly for the owner of a dispatching row; that row alone goes back to the queue, due exactly the delay from now, with route, outcome and counters kept |
| ProjectStore.ProjectStore.UpdateJobRunning | app/projects.py:1337-1389 | succeeds exactly for a dispatching row under the given token; that row alone gets route, poll name and zeroed counters, and keeps its token and identity |
| ProjectStore.ProjectStore.UpdateJobCompleted | app/projects.py:1391-1420 | succeeds exactly for a dispatching or running row under the given token; that row alone loses claim and token, takes the route if one is given, and gets its result |
| ProjectStore.ProjectStore.UpdateJobFailed | app/projects.py:1422-1458 | succeeds exactly for a row not yet finished under the given token; that row alone gets code and outcome flag and loses its claim, route and counters kept |
| ProjectStore.ProjectStore.ScheduleJobPoll | app/projects.py:1572-1612 | succeeds exactly for a running row; that row alone gets its next poll exactly the delay from now, and its error count one higher or cleared |
| ProjectStore.ProjectStore.ClaimDueRunningJobs | app/projects.py:1644-1688 | takes due running videos outside the excluded set, oldest poll time first, none left out while there is room, and moves their next poll exactly one lease from now, changing no other row or field |
| ProjectStore.ProjectStore.TouchAssets | app/projects.py:1027-1036 | the loop makes every listed digest on record active and unorphaned; unlisted and unknown ones stay as they were |
| ProjectStore.ProjectStore.PruneOperations | app/projects.py:792-800 | deletes only operations that are inactive or unused for the retention period, at most a batch, and leaves such a one only when the batch is full |
| ProjectStore.ProjectStore.PruneMedia | app/projects.py:853-857 | deletes exactly the candidates no live job names |
| ProjectStore.ProjectStore.MarkAssets | app/projects.py:858-869 | clears or starts the orphan clock of every examined asset and of no other |
| ProjectStore.ProjectStore.SweepAssets | app/projects.py:870-886 | deletes the bytes of exactly the examined assets past their grace period and retires their rows |
| ProjectStore.ProjectStore.PruneJobs | app/projects.py:887-899 | deletes only finished, keyless, certain jobs past their retention, at most a batch, oldest first, leaves such a one only when the batch is full, and deletes none while retention is off |
| ProjectStore.ProjectStore.Prune | app/projects.py:786-903 | bytes that a Character not deleted, an unfinished job or a mapping to one's media id names stay; what becomes of every asset, byte, mapping and cursor follows from the old tables: bytes go if and only if examined, unnamed and marked for the retention period; counts are within the batch size |
| JobWorker.JobWorker.ProcessQueuedJobs | app/workers/job_worker.py:211-220 | with the clock read at each claim: distinct jobs under their own tokens, none taken while a due job that stays was ahead of it, fewer than asked only when nothing is due |
| JobWorker.JobWorker.Choose | app/workers/job_worker.py:272-355 | the search takes the best connection that can serve the job, a matching one if there is one and only then, unless the job is locked, another; a lock flag decides, without one an account or project locks; otherwise it waits or gives up for no accounts, too few credits, or 300 seconds, in that order |
| JobWorker.ChoiceIsRight | app/workers/job_worker.py:231-355 | any decision that follows the search's rules is right in plain terms of keys, installations, owners, slots, balances and age |
| JobWorker.LockedChoiceServes | app/workers/job_worker.py:272-312 | with a true lock flag, or none and an account or project, the connection chosen has the job's account and its project's owner as key or installation |
| JobWorker.JobWorker.DispatchJob | app/workers/job_worker.py:222-840 | one dispatch chooses by those rules, is never refused the reservation its search found, leaves the counters as it found them, sends at most once, refreshes credits exactly after a paid send, and changes only its own row under its own claim: back to the queue for a second, failed with its code, or by the answer, with the chosen connection's account key and the project it was sent with |
| JobWorker.JobWorker.RecordVideo | app/workers/job_worker.py:709-829 | the branches after a video answer write the row that the answer table gives, and complete nothing |
| JobWorker.JobWorker.RecordImage | app/workers/job_worker.py:587-642 | the branches after an image answer write the row that the answer table gives, and store a result exactly with a completion |
| JobWorker.JobWorker.PollRunningJobs | app/workers/job_worker.py:842-865 | starts polls only in free slots and only of due jobs not being polled, leaves a due one out only when slots or limit are used up, and moves exactly their next poll by the lease |
| JobWorker.JobWorker.PollJob | app/workers/job_worker.py:867-1031 | the call is made through the first ready connection of the account if it has a slot, which is given back; a failed node or operation error fails the job with known outcome, a finished video without a URL costs one error, nothing finished clears them, all finished with URLs completes it with the tree that carries them; every other end costs one error and waits out the backoff |
| JobWorker.DispatchIsARun | app/workers/job_worker.py:222-840 | an uninterrupted dispatch is a run of the protocol with the same table, one coroutine less and at most one send |
| JobWorker.EnqueueIsARun | app/projects.py:905-959 | an enqueue with its status read is three steps of the protocol |
| JobWorker.ClaimIsAStep | app/projects.py:1276-1319 | a claim as the store makes it is a step that starts a coroutine for the row's medium and sends nothing |
| JobWorker.PollStartIsAStep | app/workers/job_worker.py:842-865 | filling the free slots is a step; each poll starts from the route, name and error count of the row it leased |
| JobWorker.PollIsAStep | app/workers/job_worker.py:867-1031 | the end of a poll is a step that frees its slot |
| JobWorker.MaintenanceIsSteps | app/projects.py:786-1036 | sweep, lease and age expiry, and both ways of registering bytes are steps as the store's methods do them |
| JobWorker.PollEndsExactly | app/workers/job_worker.py:867-1031 | the protocol's poll step changes the polled row alone, by a table over what was heard: nodes by position, operation errors, finished videos and their URLs |
| JobWorker.ReserveThenRelease | app/runtime.py:74-113 | reserving and releasing leaves balanced counters exactly as they were |
| JobWorker.OnlyCompleteResultsAreStored | app/workers/job_worker.py:964-997 | a poll turns a row completed only on an answer without reported failure, whose tree with its URLs has a finished video and an https URL for every finished node |
| Guarantees.OnlyPollsCompleteVideos | app/workers/job_worker.py:972-997 | no step but a poll that found it finished makes a video completed |
| Runtime.LedgerBalances | app/runtime.py:74-113 | after any sequence of reserves and paired releases the four maps equal the outstanding counts and credit sums per connection, with no zero entries |
| Runtime.CapacityHolds | app/runtime.py:54-86 | no connection ever holds more images or videos than its own capacity |
| Runtime.AllReleasedMeansEmpty | app/runtime.py:88-113 | when nothing is outstanding all four maps are empty |
| Runtime.ReleaseBalances | app/runtime.py:88-113 | releasing any one outstanding reservation keeps maps and ledger equal |
| Runtime.Runtime.ReserveConnection | app/runtime.py:54-86 | succeeds if and only if the kind's slot count is under its capacity (without kind or cost: jobs and pending calls under the slots) and a cost is covered by the known balance less reserved credits; then one job, one image or video, and the cost are booked, nothing otherwise |
| Runtime.Runtime.ReleaseConnection | app/runtime.py:88-113 | undoes one booking with the pop-at-zero rule and keeps every balanced ledger balanced |
| Runtime.Runtime.SelectConnection | app/runtime.py:121-134 | returns a candidate that no other one beats in credits for a video, load, balance, age and name, in that order |
| Runtime.KeyOrderExactly | app/runtime.py:121-134 | the five-part key puts those with 20 credits or an unknown balance first, then the lighter load, the higher balance, the older connection, the name |
| Credits.NeverOverspent | app/runtime.py:49-86 | in every run without a late store the true balance covers everything reserved and not yet charged |
| Credits.AtomicRefreshNeverOverspends | app/workers/job_worker.py:830-840 | in particular in every run whose refreshes read and store in one step: a paid attempt clears the shown balance before its reservation goes |
| Credits.OverspendExactly | app/runtime.py:69-72 | an accepted reservation can overspend if and only if the shown balance exceeds the true one plus the charges still held, and exceeds what is promised |
| Credits.JobOverspendsExactly | app/workers/job_worker.py:31-36 | with the worker's prices: exactly when the dearest job that still seems to fit costs more than is really free |
| Credits.LateStoreOverspends | app/providers/google_flow/browser_bridge.py:52-94 | nine steps with a two-step refresh that end overspent |
| Credits.OnlyVideosNeedBalance | app/workers/job_worker.py:31-36 | videos cost 15 to 30 and are refused while the balance is unknown or under 15, images cost nothing and never are |
| Credits.JobCostExactly | app/workers/job_worker.py:31-36 | images cost nothing, image-to-video 20, other videos 15, 20, 25 or 30 for 4, 6, 8 or 10 seconds and 20 for any other length |
| Admission.BacklogIsBounded | app/runtime.py:149-175 | active jobs plus admitted requests not yet enqueued never exceed job_queue_max_active, if the stored jobs start within it and no request carries disagreeing Idempotency-Key headers |
| Admission.AdmissionsAreCounted | app/main.py:150-205 | the pending counter always equals the slots held by requests in flight |
| Admission.SlotlessAddsNothing | app/runtime.py:153-170 | the enqueue of a request let through without a slot changes nothing if and only if the key it enqueues under is taken, and otherwise grows the backlog by one; with agreeing keys it is always taken, however late it enqueues |
| Admission.DisagreeingKeysOverfill | app/main.py:48-50 | every header list whose last key may pass as a replay and whose first differs brings a queue of one to two |
| Admission.HarmlessExactly | app/main.py:156-157 | the bound holds in every run beside requests with a given header list if and only if its first and last keys are equal, or one of them is blank, or there is none |
| Admission.OnlyEnqueueAddsWork | app/projects.py:1276-1612 | no step but an enqueue makes a job active |
| Admission.Gate.TryReserveJobAdmission | app/runtime.py:153-170 | passes without a slot if and only if a job holds the key, refuses if and only if none does and unfinished plus pending reach the limit, and otherwise counts one slot, staying within it |
| Admission.Gate.ReleaseJobAdmission | app/runtime.py:172-175 | gives one slot back, never below zero |
| Admission.ReceiveBody | app/main.py:169-199 | the application gets exactly the joined body up to the final chunk, and never one over the limit |
| Admission.JoinedInOrder | app/main.py:169-191 | joining chunks respects order: nothing dropped, doubled or moved |
| MediaCache.UploadedAtMostOnce | app/services/flow.py:407-477 | in any interleaving a key is uploaded at most once between invalidations, and never while it is cached |
| MediaCache.TwoCallsShareAnUpload | app/services/flow.py:417-476 | a run of two calls that both miss the same image: one waits for the lock and takes the other's upload |
| MediaCache.IdsFollowImages | app/services/flow.py:417-476 | a call's ids follow its images in order, equal images share an id, and each id was stored for its image |
| MediaCache.IdsAreTheStoredOnes | app/api/generations.py:294-338 | without invalidation each collected id is the one the cache holds for that image |
| MediaCache.CachedStays | app/projects.py:664-727 | a cached key is neither uploaded again nor overwritten until it is invalidated |
| MediaCache.StepKeepsLocks | app/runtime.py:189-195 | every lock has one holder, which is at the image it locked |
| MediaCache.Cache.UploadInlineImages | app/services/flow.py:407-477 | one call alone: ids per image from the cache, one upload per missing digest, hits reported once each, nothing overwritten, and what was stored before a failure stays |
| MediaTransfer.FailoverExactly | app/workers/job_worker.py:299-312 | an unlocked job may use an unsuitable connection if and only if no ready connection that fits is suitable |
| MediaTransfer.LockedProjectKeptExactly | app/workers/job_worker.py:376-386 | a locked job with an owned project keeps it if and only if the connection's account key is the owner |
| MediaTransfer.LockedProjectCanMove | app/workers/job_worker.py:281-297 | a locked job matched by its bare installation id is sent with the managed project |
| MediaTransfer.Transfer.Copy | app/services/flow.py:199-300 | every way a copy can end: the cached id, the id cached for the downloaded bytes, a new upload stored under both digests, or a refusal for missing source, download or upload that changes nothing |
| MediaTransfer.Transfer.Rehydrate | app/services/flow.py:303-363 | length and order kept, unknown and local ids untouched, foreign ids replaced by recorded ones, equal ids alike; refused before any copy exactly when some source is out of reach; done whenever every foreign id has a source and an upload |
| MediaTransfer.Transfer.PrepareReferences | app/workers/job_worker.py:488-552 | start, end and both reference lists are rewritten so that no id known to belong elsewhere is sent; nothing is done when none does, and it succeeds whenever every foreign id has a source and an upload |
| ManagedProject.ReadPages | app/services/flow.py:868-904 | at most 20 pages, each cursor named by the page before and none followed twice; the items are those of all pages read |
| ManagedProject.ListedInOrder | app/services/flow.py:884-886 | the listing starts with the first item of the first page that has one, and holds every item of every page read |
| ManagedProject.FindOrCreate | app/services/flow.py:857-937 | the newest listed project wins; one is created if and only if the listing ended, with no cursor or a repeated one, and held none |
| ManagedProject.LookedUpAtMostOnce | app/services/flow.py:857-867 | however the callers of one session interleave around the project lock, at most one lookup succeeds and every caller returns the stored project |
| ManagedProject.TwoCallersShareALookup | app/services/flow.py:857-913 | a run of two callers that both find nothing stored: one looks the project up, the other takes it from the store |
| ManagedProject.LatestProject | app/services/flow.py:511-522 | the first of the newest when all are dated, else the first |
| VideoResult.CompletedExactly | app/workers/job_worker.py:964-997 | a poll completes if and only if no node reports failure, something is finished, and every finished node has a URL |
| VideoResult.VerdictExactly | app/workers/job_worker.py:964-1014 | the whole decision by position in the tree: a failed status anywhere or an operation with an error key fails, a finished video without a URL waits, all finished with URLs completes, nothing finished keeps running, and a scalar in place of the operations raises |
| VideoResult.StoredIsComplete | app/services/flow.py:788-841 | the stored tree reports no failure, has a finished video, and every finished node in it, also under a done ancestor, carries an https downloadUrl |
| VideoResult.StoredIsCompleteEverywhere | app/services/flow.py:767-841 | by position in the stored tree: no node anywhere has failed, and a video that is done itself or below any done ancestor has its https URL |
| VideoResult.CountsAgree | app/services/flow.py:767-841 | available URLs never outnumber finished nodes, and are as many exactly when each finished node has one |
| VideoResult.AttachedKeepsVerdict | app/services/flow.py:788-841 | attaching URLs changes no node's being done, finished or failed |
| VideoResult.AttachedFields | app/services/flow.py:788-841 | attaching writes downloadUrl and thumbnailUrl of finished nodes only, each from its own https field or else its own resolved answer; every other field keeps its attached value |
| VideoResult.SuccessIsNotFailure | app/services/flow.py:602-635 | no status reads as success and failure at once |
| VideoResult.TerminalExactly | app/services/flow.py:602-635 | a status is read by what follows its last underscore, in upper case |
| VideoResult.ReportedExactly | app/services/flow.py:700-764 | a failure is reported if and only if a media status failed, an operation error says something, or an error key holds nothing; without the last, exactly the first two |
| VideoResult.ExplicitErrorIsDead | app/workers/job_worker.py:999-1007 | the worker's later scan for operation errors only finds what was already reported |
| Bridge.TablesAgree | app/providers/google_flow/client.py:173-213 | in every run the connection, installation and socket tables are mutually inverse |
| Bridge.CallsAreAccountedFor | app/providers/google_flow/client.py:440-480 | each pending entry belongs to a live connection and an unfinished call, no future is set twice, an ended call has no entry, a waiting call has one |
| Bridge.LossSettlesItsCalls | app/providers/google_flow/client.py:196-213 | clearing a connection breaks exactly the waiting calls sent to it |
| Bridge.SupersededCleanupIsIdle | app/extension/gateway.py:245-251 | the cleanup of a superseded socket changes nothing, whenever it runs |
| Bridge.EvictsExactly | app/providers/google_flow/client.py:147-183 | registering drops another installation's connection if and only if the first 120 characters agree |
| Bridge.FlowBridge.Register | app/providers/google_flow/client.py:173-194 | refuses an empty installation, else stores the connection under its first 120 characters and drops the earlier one of that id from all three tables, keeping them inverse |
| Bridge.FlowBridge.Clear | app/providers/google_flow/client.py:196-213 | removes a connection and its socket and installation, keeps exactly the other connections' pending calls, and breaks exactly its own that still wait |
| Bridge.FlowBridge.BreakPending | app/providers/google_flow/client.py:205-213 | the loop removes exactly this connection's calls and breaks those not yet done |
| Bridge.FlowBridge.Deliver | app/providers/google_flow/client.py:349-361 | a reply removes its entry and sets the future unless it is done |
| Bridge.FlowBridge.StartCall | app/providers/google_flow/client.py:440-456 | a call is listed and waiting exactly if its connection is there |
| Bridge.FlowBridge.AbandonCall | app/providers/google_flow/client.py:460-480 | a call given up leaves no entry and a future nobody sets |
| AccountRefresh.StoredIsCurrent | app/providers/google_flow/browser_bridge.py:26-94 | stored credits and tier come from a request issued in the connection's current sign-in generation |
| AccountRefresh.LateAnswerIsIgnored | app/providers/google_flow/browser_bridge.py:68-93 | an answer or refusal to a request from before a sign-in switch changes nothing after it |
| AccountRefresh.GenerationsGrow | app/providers/google_flow/browser_bridge.py:29-44 | a generation is never entered twice |
| AccountRefresh.Connection.HandleAuthAvailable | app/providers/google_flow/browser_bridge.py:29-44 | a sign-in forgets e-mail, credits and tier and outdates every request in flight |
| AccountRefresh.Connection.BeginRefresh | app/providers/google_flow/browser_bridge.py:46-68 | a refresh hides the balance and is stamped with the current generation |
| AccountRefresh.Connection.EndRefresh | app/providers/google_flow/browser_bridge.py:68-93 | stores balance and tier exactly when the request's generation is the current one, and otherwise changes neither |
| AccountRefresh.Connection.RefuseRefresh | app/providers/google_flow/browser_bridge.py:73-85 | an unusable answer signs out exactly if it is unauthorized and of the current generation, and otherwise changes nothing |
| BearerCache.EarlierNeverReplacesLater | extension/background/background.js:338-361 | tokens are stored in the order their fetches and publications began, in every completion order |
| BearerCache.TokensAreCurrent | extension/providers/flow/browser-transport.js:112-121 | a cached token and a token put on a request belong to the sign-in current at that moment |
| BearerCache.PublishedTokenIsSent | extension/providers/flow/browser-transport.js:112-121 | a run in which a published token is cached and put on the next request |
| BearerCache.FetchedTokenIsSent | extension/background/background.js:338-361 | a run in which a request fetches its own token and sends it |
| BearerCache.StoredExactly | extension/background/background.js:349-352 | a completion is stored if and only if nothing began after its fetch and the expected sign-in is still there |
| BearerCache.FailureClearsNothingNewer | extension/providers/flow/browser-transport.js:168-174 | a failing sync clears only a token no newer than itself, and only while nothing newer has begun |
| BearerCache.Background.FetchLabsSession | extension/background/background.js:338-341 | starting a fetch outdates every other one in flight |
| BearerCache.Background.SessionArrived | extension/background/background.js:341-353 | stores and returns the session's token exactly if no fetch or publication began since and the expected sign-in is the current one, else returns null and leaves the cache |
| BearerCache.Background.SyncFailed | extension/providers/flow/browser-transport.js:168-174 | clears the cache only for the newest fetch of the current sign-in |
| BearerCache.Background.PublishCapturedSession | extension/providers/flow/browser-transport.js:184-203 | a captured session starts a new generation, is cached under it, and outdates every fetch in flight |
| RoutingScope.ScopeRoundTrip | app/services/flow.py:42-65 | opening a scope with its own secret gives back every non-empty account key |
| RoutingScope.OpensExactly | app/services/flow.py:48-65 | a scope opens an account if and only if it is v2, a dot-free payload and that payload's own signature, all ASCII, and the payload decodes to the non-empty key in valid UTF-8 |
| RoutingScope.DecodesEncoded | app/services/flow.py:42-65 | base64url decodes what it encoded, for every byte length |
| RoutingScope.EncodedIsCanonical | app/services/flow.py:43 | four characters for every three bytes begun, padded to the group, zero bits behind the last byte |
| RoutingScope.SkipsForeign | app/services/flow.py:59-60 | a character outside both alphabets is skipped wherever it stands |
| RoutingScope.PaddingComesBack | app/services/flow.py:43-59 | stripping the padding and restoring it is lossless for all lengths modulo 3 and 4 |
| RoutingScope.SplitsWhereJoined | app/services/flow.py:48-53 | the split at the first two dots recovers the three joined parts |
| RoutingScope.ScopesAreDistinct | app/services/flow.py:42-45 | different accounts have different scopes |
| RoutingScope.WrongSignatureIsRefused | app/services/flow.py:54-56 | a scope with any other signature opens no account |
| RoutingScope.EmptyKeyIsRefused | app/services/flow.py:52-64 | the scope of the empty key is invalid |
| RoutingScope.RaisesExactly | app/services/flow.py:52-57 | opening raises if and only if both parts are there and one is not ASCII |

## Left out

- SQLite itself, schema creation and column migrations: tables are maps and each store method is one atomic step; a failing statement part way through a sweep is not modelled.
- Several processes on one store: the process lease file is taken as given.
- HTTP routing, schemas, error envelopes and message texts; error codes are kept only where a branch depends on them.
- Building of image and video request bodies, model tables, aspect ratios and log sanitising: no invariant worth proving.
- The interior of HMAC, SHA-256, UUIDs and UTF-8: parameters or fresh names.
- The asset store's file suffixes and the MIME sniffing: bytes are their digest.
- touch_assets racing a sweep when a Character is created: the bytes claim is for jobs, and for Characters as they stand when the sweep reads them.
- JobWorker.JobWorker.DispatchJob: uploads, transfers, project lookup and captcha between reservation and request are one input that gets ready, rejects or raises; MediaCache, MediaTransfer and ManagedProject cover its inside.
- JobWorker.JobWorker.PollJob: the status call, with its second try by media name, is one input; the poll's clock is read once.
- Admission.HarmlessExactly: that a route finds the first of several equal headers is a property of the web framework, which is not part of this model; a key is one value after stripping.
- Credits.NeverOverspent: one account on one connection without reconnects, each charge lands before its reservation is released, and nobody else spends from the account.
- MediaCache.UploadedAtMostOnce: does not cover the download branch of the media copy, which stores under a digest whose lock it does not hold.
- MediaTransfer.Transfer.Rehydrate: runs alone; interleaving with other transfers is covered only through MediaCache.
- VideoResult.StoredIsComplete: the source mutates the parsed tree in place and the model returns a new tree; upper-casing covers ASCII only.
- AccountRefresh.StoredIsCurrent: a reply already delivered when the extension reconnects can reach the new connection object, whose generations start over; the claim is for one connection's lifetime.
- BearerCache.EarlierNeverReplacesLater: a fetch completion and the sync store after it are one step; between them the source yields once.
- Bridge.CallsAreAccountedFor: sockets are fresh objects; request counters and health fields of a connection are not modelled.
- Fairness.ClaimedWithinAhead: starts once the clock is strictly past the job's key; NewcomerOvertakesExactly says what can still pass before that.
- ManagedProject.LookedUpAtMostOnce: for callers of one session and without invalidation; a caller left over from an earlier connection can mark its own session and force another lookup.
- The retry loop around a credit refresh (its delays, one refresher per connection): AccountRefresh allows any number of overlapping requests and Credits one refresh at a time.
- The comparison of a replayed request with the stored payload (the 409 answer) and the shaping of job responses: one-branch facts.
- The ChatGPT provider, popup, offscreen page and tab handling of the extension, the MCP server, the Python SDK and the deployment files.
