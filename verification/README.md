# A verified model of the review agent

The agent listens to GitHub webhooks, queues a review job per pull request head, lets any number of
worker processes claim jobs under a lease, and posts each review to GitHub at most once. This project
models that behaviour in Dafny and proves what it guarantees, and what it does not.

## What is modelled

**The system** (`Domain`, `Statements`, `Worker`, `Enqueuer`, `System`). The database tables are maps of
rows; every SQL statement is one atomic function on them (`Statements`). A process that has claimed a job
is a program with an explicit counter (`Worker`): at each counter it has exactly one request outstanding,
and the answer alone decides where it goes. A webhook handler has the same form (`Enqueuer`). The system
(`System`) puts these together: a clock that never runs backwards, any number of processes (several may
share a worker id), one handler at a time. Its actions are the passing of time, claims, single steps and
heartbeats of processes, shutdowns, crashes at any point, webhook deliveries and single steps of the
handler. Any call can be lost, before or after it took effect, with any error. An action that is not
enabled changes nothing, so every sequence of actions is a run, and a statement about all reachable states
is one about all interleavings. A log, which no step reads, remembers every claim, lease, post, completion
and insert of a publication row.

**The code** (`StoreObject`, `SystemOnStore`, `WorkerCode`, `EnqueuerCode`, `TokenResolution`). The store is
a class whose methods are proved to be the statements; an object driven by any run has exactly the tables
of the system's states. The worker, the pipeline, the publisher and the webhook handlers are methods with
the branches of the original. Each of their calls must be the very request at which the program of `Worker`
or `Enqueuer` stands, for all answers so far: code and program are thereby shown to hold the same
conversation with the outside.

**The invariants** (`Effects`, `QueueInvariants`, `PublicationInvariants`, `ResultInvariants`,
`EnqueuerInvariants`, `Reachability`). `Effects` reduces an action to what it does to the rows, to the
processes and to the publications; the invariants are proved against these three views.

**The theorems** (`QueueTheorems`, `Conduct`, `PublicationTheorems`, `EnqueuerTheorems`, `Routing`, `Completion`,
`Guarantees`, `Counterexamples`; the runs they need are built in `Progress` and `SampleRuns`).

- Leases of a job never overlap, the generation counts the claims, a finished row never changes again, a
  process of an older generation writes nothing even if it shares the worker id of the new owner, and a
  completed row holds exactly what the last claimant computed. A process whose beats are never more than
  a lease apart keeps its job; an abandoned job can always be taken over.
- A stage is entered only by a process that has just found its context alive and its row still its own; a
  process that has lost its job can post only if it was already past the check before `Publish`, and the same
  goes for every review that is posted after a job was cancelled. A process whose pipeline fails, not by
  cancellation, fails the job if and only if it still holds it, and changes nothing otherwise.
- A review is posted at most once per job, by the process that won the insert. A publication moves at most
  once, although the updates that finish it do not look at its state. Published and failed rows mean what
  they say.
- For every webhook, in every state, it is settled which decision it gets and what it changes in the tables:
  which pull request events are cancelled, ignored, skipped or enqueued, and the new row in full.
- A pull request never has two live jobs; a second delivery of a handled webhook is invisible; a
  closing event is final for the jobs it finds; an installation is suspended exactly when the last
  installation event said so.
- If every further claim is for real, a live job can still be completed if and only if its repository name
  is well formed and its publication has not failed, or a process that holds the job now is already past
  Publish or is a dry run on its way. If dry runs may claim it as well, the name alone decides, because a
  dry run takes any publication row for done.
- For every publication row that can occur it is settled whether it guarantees a review on GitHub.

**The sequential algorithms** (`Truncate`, `Findings`, `RateLimit`, `Prompt`; `Selection` says what it means to
pick elements in order). Each loop is proved against a specification that looks at every element on its own,
and the accounting across functions is proved about that specification. Every finding in a review request is
traced back to its index in the model's report, with what was kept of it and what was normalised, and every
dropped one is counted under its own condition. The limiter forgets exactly what is older than a minute: it
allows a call if and only if fewer than the limit were accepted in the minute that ends with the call.

## What turned out false

- "A completed job has had its review posted" does not hold: a process can win the insert and stall or die
  before it posts, and the next claimant takes the pending row for a review in flight and completes the job
  (`Counterexamples.CompletedWithoutReview`). Of the jobs completed for real with a given publication row it
  holds if and only if the row is published with a review id (`Guarantees.PostGuaranteedExactly`); pending
  and failed rows and those of dry runs occur without any review, and `RowsOfCompletedExactly` says which
  rows there are. The same condition decides whether a nil return of Publish that has read the row vouches
  for a review (`Guarantees.NilGuaranteedExactly`); one that has recorded its own review always does.
- "The stored result is what was posted" does not hold, not even if the row is published with a review id:
  one process can post and die, and another store what it computed itself. It is guaranteed if and only if
  the completing process found no publication row (`Guarantees.StoredGuaranteedExactly`); otherwise it
  holds only where the winner's review is on GitHub and the winner happens to have computed the same result
  (`PublicationTheorems.CompletedIsPostedExactly`).
- "A job that is tried again gets done in the end" does not hold for processes that publish for real: once
  its publication has failed, every further claimant is turned away at the fence
  (`Counterexamples.RetriedInVain`; the exact condition is `Completion.CompletableForRealExactly`).
- "After a successful delivery the pull request has a live job for its head" does not hold: a pull request
  that is opened, closed and reopened with the same head ends in `enqueued_noop` with nothing to run
  (`Counterexamples.ReopenedWithoutJob`). It holds if and only if no finished row occupies the key
  (`EnqueuerTheorems.ScheduledExactly`).
- The branch of `Publish` that fails the publication because of a malformed repository name is
  never entered: the first stage has already refused such a job (`PublicationTheorems.SplittingNeverFails`).
- An `app_bot` publication can name a personal account: exactly when that account's token decrypts to the
  empty string (`TokenResolution.Resolve`).
- README.md:216-219 lists three installation actions that lift a suspension; in the code every action other
  than `suspend` and `deleted` does, and closing events cancel jobs even of a suspended installation. The
  model follows the code.

## Model

| member | source | states |
|---|---|---|
| QueueTheorems.LeasesNeverOverlap | internal/store/postgres/store.go:408-428 | of two leases of one job, an earlier generation's deadline lies strictly before the start of a later one; within one generation they renew each other for the same worker, so no beat of an old generation follows a new claim |
| QueueTheorems.OneLeaseAtATime | internal/store/postgres/store.go:408-482 | at any instant at most one (worker, generation) has an unexpired lease on a job |
| QueueTheorems.RunningRowHasLastLease | internal/store/postgres/store.go:409-428 | a running row carries owner, generation and deadline of the last lease handed out |
| QueueTheorems.GenerationCountsClaims | internal/store/postgres/store.go:408-551 | generation = attempt = number of claims; completed and failed rows were closed by exactly one CompleteJob or FailJob and carry no lock, all others by none; retry_wait and needs_reconcile never appear |
| QueueTheorems.FinishedIsFrozen | internal/store/postgres/store.go:361-551 | completed, failed and cancelled rows never change again in any column, along every run |
| QueueTheorems.StaleNeverWrites | internal/store/postgres/store.go:498-600 | a process whose generation is not the row's changes no row, whatever its worker id, and no process changes another job's row |
| QueueTheorems.CompletedIsLastClaimants | internal/worker/worker.go:150-178 | result and context of a completed row were computed by the one process that made the last claim and completed the job, after its Publish returned nil; its prompt version is critic-v1 |
| QueueTheorems.ClaimableExactly | internal/store/postgres/store.go:410-424 | a live row is claimable if and only if it is pending or its deadline has passed; a running row has an owner and a deadline |
| QueueTheorems.ClaimTakesOver | internal/store/postgres/store.go:408-428 | an allowed claim makes its process the only holder of the job, one generation up, with its worker, lease, repository and mode, a beating heartbeat and a lock until a lease from now |
| QueueTheorems.AbandonedIsReclaimed | internal/store/postgres/store.go:410-424 | every live job can be claimed by anybody after some wait, and the old owners have lost it |
| QueueTheorems.BeatingKeepsTheJob | internal/worker/worker.go:126-148 | while a process's beats are no more than a lease apart, no claim on its job is enabled and the generation stands still |
| QueueTheorems.NoBeatDuringFinalisation | internal/worker/worker.go:150-172 | once the heartbeat has been waited for, no beat happens any more |
| Conduct.EnteredExactly | internal/worker/pipeline.go:20-22 | the check of the row lets a process into the stage if and only if the row was read and is running under its worker and generation; else the pipeline ends with the error "job cancelled in database" |
| Conduct.ContextCheckedExactly | internal/worker/pipeline.go:17-19 | the check before it lets it pass if and only if its context is not cancelled |
| Conduct.ChecksComeFirst | internal/worker/pipeline.go:15-103 | there is no other way into a stage or to success, and no stage is skipped |
| Conduct.LostNeverPosts | internal/worker/pipeline.go:81-90 | along every run: a process that has lost its job never holds it again, and posts no review unless it was already past the check before Publish |
| Conduct.FinishedPostsOnlyFromBeyond | internal/worker/pipeline.go:81-90 | along every run: a review posted after its job was cancelled or finished comes from a process that was already past that check |
| Conduct.ErrorsAreReported | internal/diplomat/publish.go:54-191 | the error of every call ends the pipeline with that error, a refused post once it has been recorded; a save without ownership ends it too |
| Conduct.TokenIsNeeded | internal/diplomat/publish.go:85-146 | a publication is begun for real if and only if a token was resolved, and with the identity it came with |
| Conduct.HeartbeatExactly | internal/worker/worker.go:126-148 | a beat moves the deadline of a held row, and nothing else, to a lease from now; the process goes on if and only if it learns so, else its context is cancelled and it beats no more |
| Conduct.FailsExactly | internal/worker/worker.go:153-163 | after a failed pipeline the job is going to be failed, with the pipeline's error, if and only if the row was read and is still held |
| Conduct.FailsTheJob | internal/worker/worker.go:153-168 | a holder whose pipeline failed, not by cancellation, makes the row failed in three delivered calls: with its error, without a lock, closed by it alone, no other row touched |
| Conduct.WalksAway | internal/worker/worker.go:153-159 | a cancelled process stops without touching anything |
| Conduct.LostChangesNoRow | internal/store/postgres/store.go:498-551 | a process that no longer holds its job changes no row at any step |
| Conduct.SomeJobFails | internal/worker/worker.go:153-168 | a reachable failed job, with GitHub's error and its one closer |
| QueueInvariants.QueueInvStep | internal/store/postgres/store.go:408-495 | every action keeps the invariants of rows, claims, leases and holders |
| QueueInvariants.OneHolder | internal/store/postgres/store.go:498-507 | two processes with the same job and generation are the same process |
| QueueInvariants.LeasesStep | internal/store/postgres/store.go:477-495 | claims, beats and everything else keep the leases of every job in turn |
| PublicationTheorems.PostedAtMostOnce | internal/diplomat/publish.go:145-182 | CreatePullReview is attempted at most once per job over the whole run, for real, by the winner of the insert, with its own result |
| PublicationTheorems.PublishedMeans | internal/diplomat/publish.go:60-191 | published with an id: exactly one post, successful, with that id; published without: a dry-run winner and no post at all |
| PublicationTheorems.FailedMeansRefused | internal/diplomat/publish.go:178-182 | a failed row stands for one post that was reported as an error |
| PublicationTheorems.SplittingNeverFails | internal/detective/detective.go:62-67 | a process about to split the repository name has a well-formed one, and no action takes it from there to failing the publication |
| PublicationTheorems.RowsArePossible | internal/diplomat/publish.go:65-77 | a row without account and bot is a dry run's, never failed and without review id; any other row is not a dry run's and has a review id exactly when it is published |
| PublicationTheorems.PublicationMovesOnce | internal/store/postgres/store.go:636-672 | along every run a publication leaves pending at most once and then never changes; winner, account and kind are settled by the insert |
| PublicationTheorems.CompletedHasPublication | internal/worker/pipeline.go:89-103 | a completed job has a publication row, whoever completed it and whatever modes its claimants ran in |
| PublicationTheorems.CompletedIsPostedExactly | internal/diplomat/publish.go:145-192 | of a job completed for real: the stored result is what is posted if and only if the completing process won the insert, or the winner's review landed and the winner computed the same result |
| PublicationTheorems.CompletedDryIsNotPosted | internal/diplomat/publish.go:60-83 | if a dry run completes a job whose insert it won, the row is published and nothing is ever posted |
| Guarantees.RowsOfCompletedExactly | internal/diplomat/publish.go:54-192 | which publication rows a job completed for real can carry: exactly the possible ones |
| Guarantees.PostGuaranteedExactly | internal/diplomat/publish.go:145-192 | of all states with a given row, a job completed for real has a review on GitHub if and only if the row is published with an id |
| Guarantees.StoredGuaranteedExactly | internal/worker/worker.go:150-172 | even with a row published with an id, stored = posted is guaranteed if and only if the completing process found no publication row |
| Guarantees.NilReturnsExactly | internal/diplomat/publish.go:147-191 | a real run's Publish returns nil exactly by recording its own review or by reading a row that has not failed |
| Guarantees.FinalizingVouches | internal/diplomat/publish.go:177-191 | recording one's own review: it is on GitHub, it is the only one, and it is made from this process's result |
| Guarantees.NilGuaranteedExactly | internal/diplomat/publish.go:147-162 | reading a row: the nil return vouches for a review on GitHub if and only if the row is published with an id |
| PublicationInvariants.PublicationInvStep | internal/diplomat/publish.go:54-192 | every action keeps: the publication row and the posts of a job are as the counter of the insert's winner says |
| PublicationInvariants.LevelAfter | internal/worker/pipeline.go:15-104 | a process only moves forward through the stages, and only a nil Publish lets it reach the final check |
| ResultInvariants.ResultInvStep | internal/worker/pipeline.go:36-79 | every action keeps: what a holder has saved is in its row, and what a closed row holds is its closer's |
| Counterexamples.CompletedWithoutReview | internal/diplomat/publish.go:147-162 | a run that ends with a job completed for real, a pending publication, and nothing ever posted |
| Counterexamples.ReopenedWithoutJob | internal/queue/enqueue.go:191-196 | a run that ends in enqueued_noop with every job cancelled |
| Counterexamples.RetriedInVain | internal/diplomat/publish.go:178-182 | a live, well-named job that no run with real claims only ever completes |
| Completion.CompletableForRealExactly | internal/diplomat/publish.go:145-165 | if every further claim is for real, some run completes a live job if and only if its name is well formed and its publication has not failed, or a present holder is past Publish or a dry run on its way |
| Completion.StuckAlong | internal/diplomat/publish.go:148-164 | once the publication has failed and no holder is within reach of the end, no run with real claims only changes that or completes the job |
| Completion.CompletableExactly | internal/worker/worker.go:104-178 | if dry runs may claim it too, some run completes a live job if and only if its repository name has exactly one slash |
| Completion.CompletedIsWellNamed | internal/diplomat/publish.go:168-173 | no job with a malformed repository name is ever completed |
| Completion.WellNamedExactly | internal/detective/detective.go:62-67 | a name is well formed if and only if it is an owner and a name around a single slash |
| Completion.CanStillComplete | internal/diplomat/publish.go:60-83 | a dry run completes any live job with a well-formed name, whatever its publication says |
| Completion.CompletesForReal | internal/diplomat/publish.go:145-191 | the completing run of the for-real theorem, from every state that meets its condition |
| Progress.RunCompletes | internal/worker/pipeline.go:15-104 | a process that starts and is left in peace completes its job, in either mode, unless it runs for real and the publication has failed |
| Progress.Finishes | internal/worker/worker.go:150-178 | a holder within reach of the end completes the job from wherever it stands, without any claim |
| EnqueuerTheorems.OneLiveJob | internal/queue/enqueue.go:156-203 | no pull request ever has two live jobs |
| EnqueuerTheorems.CreatedForActiveInstallation | internal/queue/enqueue.go:110-127 | a job is only created for an installation that is not suspended, pending, and as the pull request's only live job |
| EnqueuerTheorems.DecisionMeans | internal/queue/enqueue.go:96-204 | after enqueued or enqueued_noop there is a row for the head and any live job is for it; after cancelled there is no live job; whatever the workers do |
| EnqueuerTheorems.RedeliveryIsInvisible | internal/queue/enqueue.go:96-204 | a second delivery leaves tables, processes and log as the workers alone would have, and decides enqueued_noop or cancelled unless it fails |
| EnqueuerTheorems.ClosingIsFinal | internal/queue/enqueue.go:110-121 | after a cancelled decision no row the pull request had is ever live or changed again, along every run |
| EnqueuerTheorems.ScheduledExactly | internal/queue/enqueue.go:191-203 | after the insert the head has a live job if and only if no finished row occupies its key, and the decision tells which of the two inserts happened |
| EnqueuerTheorems.SuspendedExactly | internal/queue/enqueue.go:64-93 | over every history, an installation is suspended if and only if the last installation event applied to it was suspend or deleted |
| Routing.DecidedExactly | internal/queue/enqueue.go:110-154 | from every reachable idle state, with every statement delivered: a complete pull_request event is cancelled, skipped_suspended, ignored, skipped, or enqueued or enqueued_noop exactly under the conditions on state, action, draft, suspension and reviewer, written out |
| Routing.ChangedExactly | internal/queue/enqueue.go:110-204 | what each of these decisions has changed in the tables: the stub installation, the cancelled rows, and the new row in every column, inserted if and only if no row had the key |
| Routing.CancelExactly | internal/store/postgres/store.go:359-404 | cancelling sets the status of the pull request's live rows, except the spared head's, and keeps every other column and row |
| Routing.CommentDecided | internal/queue/enqueue.go:207-245 | ignored, skipped_suspended, skipped or skipped_no_sha, by the comment, the installation and the mention; no job changes |
| Routing.InstallationDecided | internal/queue/enqueue.go:64-93 | login, kind and suspension time are stored under the kept internal id, for suspend and deleted the event's time and else none; no other installation, job or publication changes |
| Routing.TurnedAway | internal/queue/enqueue.go:44-67 | pings, other events and malformed ones change nothing, and get their decision |
| Routing.TroubleBreaksOff | internal/queue/enqueue.go:76-79 | a lost statement ends the handling |
| EnqueuerInvariants.EnqueuerInvStep | migrations/0001_init.sql:64-64 | every action keeps: unique keys, one live job per pull request, unique installation ids, and what the handler relies on between its statements |
| Reachability.InvariantsHold | internal/store/postgres/store.go:408-700 | all invariants hold in every reachable state |
| SystemOnStore.Run | internal/store/postgres/store.go:128-700 | a store object driven through any run has the tables of the system's reachable state |
| SystemOnStore.Perform | internal/store/postgres/store.go:128-700 | one action on the store object is one action of the system |
| StoreObject.Store.UpsertInstallation | internal/store/postgres/store.go:129-152 | insert or overwrite one installation, keeping its internal id, and nothing else |
| StoreObject.Store.CreateJob | internal/store/postgres/store.go:212-248 | refuses if and only if the key is taken, else adds exactly one row under a new id |
| StoreObject.Store.CancelJobsForPR | internal/store/postgres/store.go:359-380 | cancels exactly the live jobs of the pull request for other heads, keeping their other columns, and counts them |
| StoreObject.Store.CancelOpenJobsForPR | internal/store/postgres/store.go:384-404 | cancels exactly the live jobs of the pull request, keeping their other columns, counts them, and leaves none |
| StoreObject.Store.ClaimJob | internal/store/postgres/store.go:408-473 | takes the oldest claimable row nobody has locked, makes it running under the caller and one generation up, keeps its origin and blobs, and changes no other; nothing if and only if all claimable rows are locked |
| StoreObject.OldestExists | internal/store/postgres/store.go:418-424 | among any rows there is an oldest one |
| StoreObject.Store.HeartbeatJob | internal/store/postgres/store.go:477-495 | moves the deadline if and only if job, generation, worker and status match; no other column and no other row |
| StoreObject.Store.CompleteJob | internal/store/postgres/store.go:498-523 | completes, stores the result and drops the lock if and only if the caller holds the job; every other column and row is kept |
| StoreObject.Store.FailJob | internal/store/postgres/store.go:526-551 | fails, stores the message and drops the lock if and only if the caller holds the job; blobs and every other row are kept |
| StoreObject.Store.UpdateJobContext | internal/store/postgres/store.go:555-576 | saves the context if and only if the caller holds the job; status, lock, result and every other row are kept |
| StoreObject.Store.UpdateJobResult | internal/store/postgres/store.go:580-601 | saves result and prompt version if and only if the caller holds the job; status, lock, context and every other row are kept |
| StoreObject.Store.BeginPublication | internal/store/postgres/store.go:608-633 | inserts a pending row if and only if there is none, and never touches an existing one |
| StoreObject.Store.FinalizePublication | internal/store/postgres/store.go:636-658 | marks the row published, with the id unless it is a dry run, whatever state it is in; account, kind and every other row are kept |
| StoreObject.Store.FailPublicationRow | internal/store/postgres/store.go:661-672 | marks the row failed, whatever state it is in; account, kind, id and every other row are kept |
| WorkerCode.Process | internal/worker/worker.go:122-178 | for all answers, the code makes exactly the requests of the process program, from the claim to its end |
| WorkerCode.Finalise | internal/worker/worker.go:153-178 | waits for the heartbeat; then completes with the result, or walks away if cancelled, or reads the row and fails the job with the error if and only if it is still held; no other call |
| WorkerCode.FailUnlessCancelled | internal/worker/worker.go:156-168 | one read, and FailJob with the message if and only if the row read is running under this worker and generation |
| WorkerCode.IsCancelledInDB | internal/worker/worker.go:181-193 | one read; true if and only if the row could not be read, is gone, or is not running under this worker and generation |
| WorkerCode.RunPipeline | internal/worker/pipeline.go:15-104 | the stages in order, each behind its ownership check; it ends where the program does, with its error or with the result it has computed |
| WorkerCode.Boundary | internal/worker/pipeline.go:17-22 | asks for the context, then for the row, and returns nil if and only if the context is alive and the row read is running under this worker and generation; the errors are those of the source |
| WorkerCode.BuildAndSave | internal/worker/pipeline.go:24-39 | builds, then saves what was built; either error ends it |
| WorkerCode.FirstStage | internal/worker/pipeline.go:16-39 | the first stage behind its check, as the program does it |
| WorkerCode.SecondStage | internal/worker/pipeline.go:41-54 | the second stage behind its check, as the program does it |
| WorkerCode.ReviewAndSave | internal/worker/pipeline.go:64-79 | reviews, then saves that result under critic-v1; either error ends it |
| WorkerCode.Gather | internal/worker/pipeline.go:16-54 | the first two stages, as the program does them |
| WorkerCode.Judge | internal/worker/pipeline.go:56-79 | the third stage, as the program does it, handing on the result |
| WorkerCode.LastStage | internal/worker/pipeline.go:81-93 | check, then publish, as the program does it |
| WorkerCode.Deliver | internal/worker/pipeline.go:81-101 | the last stage and the final check, as the program does them |
| WorkerCode.Publish | internal/diplomat/publish.go:54-192 | either mode, as the program does it |
| WorkerCode.PublishDry | internal/diplomat/publish.go:60-83 | insert without account; if it won, record a dry publication; if not, succeed if and only if a row is read |
| WorkerCode.PublishForReal | internal/diplomat/publish.go:85-165 | no token, no insert; else the insert names the account and kind that the token came with |
| WorkerCode.Reserve | internal/diplomat/publish.go:145-165 | where the insert finds a row, it is read, and the outcome is nil if and only if it is there and has not failed; only the insert's winner goes on to post |
| WorkerCode.SplitAndPost | internal/diplomat/publish.go:167-173 | a malformed name fails the publication and is reported; else the post is made |
| WorkerCode.PostAndFinalize | internal/diplomat/publish.go:174-191 | one post; its id is recorded, or the publication is failed and the post's error returned |
| TokenResolution.Resolve | internal/diplomat/publish.go:85-143 | when there is a token at all, whose it is, and what the publication row will say |
| TokenResolution.IdentitiesExactly | internal/diplomat/publish.go:85-143 | the account and kind that a resolution can end with are exactly those the system's processes may be answered |
| EnqueuerCode.HandleEvent | internal/queue/enqueue.go:44-61 | for all answers, the code asks exactly the questions of the handler program and ends with its decision; which decisions each kind of event can get |
| EnqueuerCode.HandleInstallationEvent | internal/queue/enqueue.go:64-93 | one upsert, with the suspension time if and only if the action is suspend or deleted; processed unless it failed |
| EnqueuerCode.HandlePullRequestEvent | internal/queue/enqueue.go:96-154 | the decision by the installation row that was found or written: closing, suspended, action, draft and reviewer cases, each if and only if its condition holds |
| EnqueuerCode.PlaceOrder | internal/queue/enqueue.go:156-203 | three statements: cancel the other heads' jobs, look the account up, insert the job with that account; enqueued or enqueued_noop as the insert says |
| EnqueuerCode.HandleIssueCommentEvent | internal/queue/enqueue.go:207-245 | ignored, skipped_suspended, skipped_no_sha or skipped, each if and only if its condition holds; a mention never creates a job |
| EnqueuerCode.EnsureInstallation | internal/queue/enqueue.go:249-278 | the row on which the program goes on, found or made as a stub |
| EnqueuerCode.MatchReviewer | internal/queue/enqueue.go:282-306 | the search finds what FirstMatch says |
| EnqueuerCode.FirstMatchIsFirst | internal/queue/enqueue.go:282-306 | that is the first login of the whitelist that is assigned or mentioned, or none if and only if none is |
| Truncate.TruncatePRFiles | internal/detective/truncate.go:12-136 | every output file in full, with its reason; every patch has the closed form; what is kept of each file's description; each total as a sum over the input; kept = min(total, limit); cut by bytes if and only if a file reached within the file limit overflows the byte limit; included + omitted = total + empty files admitted |
| Truncate.Counters | internal/detective/truncate.go:62-116 | until a patch overflows, every file that is not skipped counts and every byte is weighed, up to the file limit; afterwards weighed and preceding bytes stay above the limit |
| Truncate.FateKeepsPatch | internal/detective/truncate.go:33-119 | the fate decided from the running counts gives the patch that rank and preceding bytes alone determine |
| Truncate.TotalsAddUp | internal/detective/truncate.go:27-133 | the byte flag is total > limit; the files that count come out with a patch or are empty ones let in, and are within the file limit |
| Truncate.TruncateOne | internal/detective/truncate.go:33-119 | one file: the output in full, and each of the five counters as the specification has it one file on |
| Truncate.TruncatedIsDescribed | internal/detective/truncate.go:33-119 | every output file has its input's path, status and previous path, the detected language, and is omitted if and only if it is skipped, empty or past a limit |
| Truncate.CountersGrow | internal/detective/truncate.go:33-119 | what one more file adds to each counter, said of the file itself |
| Truncate.IsSkippedPath | internal/detective/truncate.go:34-51 | true if and only if a prefix or suffix of the list matches |
| Truncate.SkippedExactly | internal/detective/truncate.go:34-51 | the skipped prefixes and suffixes, one by one |
| Truncate.PassKeepsRank | internal/detective/truncate.go:33-119 | a pass keeps every file's rank and uses up the same budget |
| Truncate.SecondPassChangesNothing | internal/detective/truncate.go:12-136 | truncating the result again changes no patch |
| Truncate.HigherLimitsExtend | internal/detective/truncate.go:62-116 | raising either limit only extends patches |
| Findings.Validate | internal/critic/schema.go:94-141 | the survivors are exactly the findings with a known path, enough confidence and lines not reversed, in order, each with its text, path and confidence, its lines or none, and its tidied severity and category or the default; each counter is the number of findings meeting its own condition; nothing is lost |
| Findings.SurvivorsExactly | internal/critic/schema.go:97-139 | the index of every survivor in the report, increasing, and what was kept and normalised of it |
| Findings.CountsExactly | internal/critic/schema.go:97-116 | each counter counts the findings that meet its condition |
| Findings.SurvivorsWellFormed | internal/critic/schema.go:97-139 | known path, confidence, ordered non-negative lines, listed severity and category |
| Findings.EnrichResult | internal/critic/schema.go:160-178 | the same findings in the same order, with ids and fingerprints |
| Findings.Distribute | internal/diplomat/map.go:24-61 | inline is the first thirty lined findings, overflow the rest of them, file-level the others, each in order |
| Findings.BucketsExactly | internal/diplomat/map.go:27-61 | lined and line-less findings are those with and without a positive line, each listed in order by index |
| Findings.MapResultToRequest | internal/diplomat/map.go:14-89 | the comments are the inline findings', and the body's parts come in order, each only when it has something to say |
| Findings.LinesConserve | internal/diplomat/map.go:27-39 | no finding is lost or doubled by the split into lined and line-less |
| Findings.RequestConserves | internal/diplomat/map.go:27-61 | the three buckets hold every finding exactly once; overflow only when thirty are inline |
| Findings.ReviewConserves | internal/critic/schema.go:97-141 | reported = inline + file-level + overflow + the three dropped counters; an inline comment's line is the larger line of a validated finding; line-less findings have no line at all |
| Findings.ReviewOf | internal/diplomat/map.go:27-61 | the three functions in a row: every comment and note is traced to its index in the report, with path, line, title, body and the error mark; inline and overflow are the staying findings with a line, file-level those without; the counters count the rest |
| RateLimit.Limiter.AllowIPRateLimit | internal/httpserver/oauth.go:34-57 | the answer and the new log, for one IP and no other |
| RateLimit.AfterExactly | internal/httpserver/oauth.go:41-47 | the entries kept are exactly those later than the cutoff, in order |
| RateLimit.AfterCounts | internal/httpserver/oauth.go:41-47 | of every time later than the cutoff all entries are kept, of every other none |
| RateLimit.Serve | internal/httpserver/oauth.go:34-57 | a call of the method is a step of the specified run |
| RateLimit.PrunedIsFaithful | internal/httpserver/oauth.go:41-50 | the pruned log and the full history agree after every cutoff not before the last call's |
| RateLimit.AnswersFromFullHistory | internal/httpserver/oauth.go:34-57 | for a clock that does not run backwards, the answer is the one the full history gives |
| RateLimit.AllowedExactly | internal/httpserver/oauth.go:34-57 | for such a clock a call is allowed if and only if fewer than rpm requests of its IP were accepted within the minute that ends with it |
| RateLimit.AllowedAfterAMinute | internal/httpserver/oauth.go:41-57 | if rpm is positive, an IP is allowed again a minute after its last accepted request |
| RateLimit.NeverMoreThanRpm | internal/httpserver/oauth.go:34-57 | no minute, wherever it is placed, holds more than rpm accepted requests of one IP |
| Prompt.BuildPrompt | internal/critic/prompt.go:62-89 | the loop writes what Written says |
| Prompt.EveryFileInOrder | internal/critic/prompt.go:62-87 | every file has its place in order; its patch is shown if and only if it is not omitted and ends within the budget |
| Prompt.EveryFileReads | internal/critic/prompt.go:62-86 | every entry reads: path, status, language if any, and then the reason of omission, the patch, or the note that it did not fit the budget |
| Prompt.PromptIsBounded | internal/critic/prompt.go:75-86 | length at most the larger of budget and preamble, plus the entries without a patch |
| Prompt.OmittedAreNotShown | internal/critic/prompt.go:69-73 | patch bytes shown and patch bytes omitted together do not exceed all patch bytes |
| Prompt.TruncateAndBuild | internal/critic/prompt.go:69-73 | a patch that truncation has cut counts as kept but is never shown: the bytes shown fall short of the bytes kept by at least that patch |

## Left out

- HTTP handlers, OAuth exchange, HTML, configuration, seeding and the migrations runner: plumbing around calls that cannot be seen.
- The GitHub client, JWT signing, AES-GCM and webhook signatures: a post returns an id or an error, and may have landed after an error; decryption is a partial function.
- The language model's subprocess and its fallback, JSON decoding, SHA-256, UUIDs, regular expressions, `strings.ToLower` and `strings.TrimSpace`: answers or function parameters.
- PostgreSQL's own machinery: a statement is atomic and `NOW()` does not decrease. A statement that still runs after its caller has given up is only modelled as taking effect at the moment it is lost.
- Integer widths of `lock_generation` and `attempt`, `updated_at` and `published_at`, the error text of a failed publication, JSONB normalisation, foreign keys and ON DELETE; a lease is a whole number of microseconds.
- The accounts table and the account cap: a look-up may answer anything at any time.
- Concurrent webhook deliveries: handlers are serialised against each other. The code cancels and creates in two statements, so two concurrent handlers can leave two live jobs.
- Liveness under a scheduler: there is no attempt limit, so a crashing job can be reclaimed forever. What is proved is that a claim is always enabled in time and that completion stays possible.
- The ticker of the heartbeat and the polling loop: a process may beat or claim at any time.
- The prefixes that wrap error messages on their way up, log lines, and the error strings returned beside `failed` and `ignored` decisions.
- StoreObject.Store.CreateJob: a new id is a number that was never used; that `gen_random_uuid()` does not repeat is its precondition.
- StoreObject.Store.FinalizePublication: `published_at` is not modelled, since nothing in the modelled code reads it.
- EnqueuerTheorems.RedeliveryIsInvisible: the whitelist of reviewers is the same for both deliveries.
- Findings.Validate: the default verdict for a blank one is not modelled, and a confidence is a real number, so there is no NaN.
- Findings.EnrichResult: the fields of the result other than its findings are copies and are not modelled.
- Findings.MapResultToRequest: the text of notes and comments, the trimming of the body and the constants COMMENT and RIGHT are not modelled; the body is a list of structured parts.
- Truncate.TruncateOne: the original has it inline as the body of its loop; a string is a sequence of bytes.
- Prompt.BuildPrompt: the instructions and metadata before the files are a parameter.
