# A verified model of the A2A proxy

This project models, in Dafny, the parts of the proxy whose correctness rests on interleavings,
search and ordering, and proves what they promise. `dafny verify dfyconfig.toml` checks all of it.

## What is modelled

**The durable job ledger.** Each SQL statement of `pkg/storage/postgres_jobs.go` is a predicate (its
WHERE clause) and a function (its SET clause) on one row of a table keyed by (tenant, id)
(`Ledger.dfy`). A run is any sequence of statements, each at any reading of `NOW()`
(`LedgerRuns.dfy`), so results about runs cover any number of workers, crashes, lost replies and
clocks that go backwards. `LeaseTimes.dfy` says what the clock readings of a run have to do with
each other: when a job may be leased, and how long a lease lasts. The repository itself is a class
whose methods check their input, run their statement and read the row again when nothing matched
(`JobRepository.dfy`, `LeaseOrder.dfy`); it records every statement it sends, so whatever holds of
runs holds of every object of the class.

**The worker engines.** `Engines.dfy` drives that ledger by any number of `processJob` calls in any
number of processes. Each call has two program counters, the main one and the one of the renewal
goroutine. A store call can be lost before it is sent, can land while its reply is lost, or can be
answered, and a process can crash anywhere. `EngineHistories.dfy` says what such histories mean for
single executions, and `EngineCalls.dfy` which calls each thread makes, what they do to the row, and
what stops a job, with a concrete history wherever something is only possible. `EngineLoop.dfy` is
the inside of one process: the poll loop and its capacity tokens, the job goroutines, the map of
cancel functions they share, and the drain. `PollHistories.dfy` follows the leased jobs through it,
and the loop to its end. `JointDrain.dfy` runs one such process and the ledger side by side, for the
one result that needs both. `Renewal.dfy` holds the one result that needs a monotone clock.
`Executor.dfy` is what one call does between marking a job running and writing its outcome.

**Dispatch.** `FallbackGraph.dfy` defines the fallback graph, its walks and its depth-first preorder,
and relates the three. `Dispatcher.dfy` proves the recursive search with its shared `visited` map
and retry loop against that preorder; the network, the context and the backoff timer are an
environment that may answer anything, as long as a context that is done stays done.

**Streams** go from the lines of the agent's response to the last event the client sees:
`StreamEvents.dfy` holds the events and the emitters, `Adapters.dfy` the line loop that all adapters
share, with LangGraph's written out, and `StreamDispatch.dfy` the search, whatever the adapter of
each agent. `CycleCheck.dfy` is the three-colour search of the configuration validator.

**The in-memory task store.** `LinkedList.dfy` is the ring of nodes that `container/list` builds,
`TaskStore.dfy` the map beside it, and `TaskOrder.dfy` the ordered sequence they are proved to be.

## Findings

- Fencing, bounded execution and cancellation need no assumption about clocks. `FailJob` and
  `CompleteJob` leave `lease_token` alone and only clear the owner, so a dead fence is one whose
  token has been passed, *or* equals the row's while nobody owns the row (`Ledger.Gone`).
- A retryable failure may put a job whose cancellation was requested back in the queue
  (`pkg/storage/postgres_jobs.go:489-493`), where a reclaim would cancel it. A job waits in the
  queue with a request exactly if that happened and nothing has touched it since
  (`LedgerRuns.QueuedDespiteRequestIff`). It then takes at most one more lease, never runs again,
  and can only end canceled (`Engines.DoomedJobsOnlyCancel`).
- A running job that is asked to cancel may still succeed, fail, be dead-lettered or be requeued, if
  its outcome lands before the next look at the request: `EngineHistories.CancelMayComeTooLate`
  gives the history for every outcome. A job with a request has ended other than canceled exactly if
  a completion, or a failure that was not retryable or had no attempts left, was accepted for it
  after the request (`LedgerRuns.EndedDespiteRequestIff`), and with the engines only a job that was
  running when the request was recorded does (`EngineHistories.OnlyRunningJobsOutliveRequest`).
- The drain does not reach every job. `activeCancelFuncs` is keyed by (tenant, id), so when an
  engine leases a job again after losing its first lease, the second registration hides the first
  and the drain deadline leaves the first one running (`EngineLoop.SharedKeyEscapesDrain`). The
  ledger does hand one job to one engine twice (`EngineHistories.SameKeyTwice`), and one history
  has both: lease, reclaim, second lease, drain, and the first execution left with a live context
  (`JointDrain.DrainMissesExecution`). `EngineLoop.DeadlineCancelsIff` says exactly which tasks the
  deadline cancels.
- `docs/concepts/architecture.md:66` promises exactly one downstream attempt per lease. The code
  guarantees at most one, and a lease can be used up without any
  (`EngineHistories.LeaseWithoutRequest`). A lease makes a request exactly if its execution gets to
  send one; once it got through `Execute`, and ever after, it was marked running and has made exactly
  one, unless the job was refused before sending (`EngineHistories.WhichLeasesRequest`). Behind every
  job that succeeded there is an execution that made exactly one request and completed it
  (`EngineHistories.SucceededWasRequested`). `Execute` sends exactly one if and only if the job is
  acceptable, resolves to an agent with a registered adapter, and can be translated
  (`Executor.DispatcherExecutor.Execute`).
- A read error that the scanner still holds back when it hands out the line that ends a stream
  suppresses the completion: the adapter asks for the error after the loop either way
  (`pkg/adapter/langgraph.go:257`), and the client gets the handler's error instead.
  `Adapters.PendingErrorHidesCompletion` gives such a response; a stream that ends normally is
  completed if and only if no error is pending then (`Adapters.ScriptByLines`).
- The `CYCLE_DETECTED` branch of the dispatcher is dead code on every fallback graph, cyclic or not:
  the loop over fallbacks never recurses into a visited agent.
- `boundString` trims before it cuts, so its result can end in a space and bounding it again can
  change it (`Executor.BoundStringTwice` says when, `Executor.BoundStringTwiceDiffers` gives an input).
- Timely renewal only needs 0 < R <= L; the bound R <= L/2 of the engine implies it.

## Model

| member | source | states |
|---|---|---|
| Text.TrimSpace | pkg/worker/executor.go:195 | a trimmed string neither starts nor ends in white space, and is empty exactly for blank text |
| Text.TrimSpaceCutsEnds | pkg/worker/executor.go:195 | only white space is cut off, and only at the ends |
| Text.AsciiSpaces | pkg/worker/executor.go:195 | which ASCII characters are white space |
| Text.NullIfBlank | pkg/storage/postgres_jobs.go:498-499 | a stored failure text is never empty and never longer than the given one |
| Text.SqlTrimCutsEnds | pkg/storage/postgres_jobs.go:498-499 | exactly the spaces at both ends are cut off |
| Ledger.Apply | pkg/storage/postgres_jobs.go:154-170 | a statement updates the rows its WHERE clause matches, adds a row only when neither unique key is taken, and deletes nothing |
| Ledger.OneRowOnly | pkg/storage/postgres_jobs.go:369-380 | a statement that names one key leaves every other row alone |
| Ledger.AcquireBatch | pkg/storage/postgres_jobs.go:284-309 | all selected ready rows are leased by one statement, the rest of the table is untouched |
| Ledger.ReclaimBatch | pkg/storage/postgres_jobs.go:640-667 | all selected expired rows are reclaimed by one statement, the rest of the table is untouched |
| Ledger.RowKeepsShape | pkg/storage/migrations/002_create_durable_jobs.sql:5-36 | every statement keeps the row shape: owner and expiry exactly while leased or running, queued implies attempts left, response exactly when succeeded, attempt <= token <= 2 * attempt |
| Ledger.LiveIsHeldLive | pkg/storage/postgres_jobs.go:448-461 | on a shaped row the fence test comes to owner, token and an expiry in the future |
| Ledger.KeysStayUnique | pkg/storage/migrations/002_create_durable_jobs.sql:26-27 | every statement keeps (tenant, idempotency key) unique |
| Ledger.TableKeepsShape | pkg/storage/postgres_jobs.go:154-170 | the two invariants hold of the whole table after any statement |
| Ledger.ImmutableColumns | pkg/storage/postgres_jobs.go:487-509 | no statement changes what identifies a job or what it was asked to do |
| Ledger.GoneIsForGood | pkg/storage/postgres_jobs.go:487-509 | a fence whose token was passed, or equals the row's while nobody owns it, never matches again, whatever the statement |
| Ledger.HoldingStep | pkg/storage/postgres_jobs.go:284-309 | who holds a row changes only by a lease, a reclaim or an accepted fenced write, and the token grows by one exactly for leases and reclaims |
| LedgerRuns.StatesKeepShape | pkg/storage/postgres_jobs.go:126-674 | the row shape and both unique keys hold in every reachable state |
| LedgerRuns.JobsPersist | pkg/storage/postgres_jobs.go:154-170 | a job is never deleted and keeps its identity and request over every run |
| LedgerRuns.TokensNeverFall | pkg/storage/postgres_jobs.go:295-300 | a job's token never falls over any run |
| LedgerRuns.TokenIssuedOnce | pkg/storage/postgres_jobs.go:295-300 | no two acquires of a run hand out the same token of a job |
| LedgerRuns.GoneStaysGone | pkg/storage/postgres_jobs.go:448-461 | a dead fence stays dead for the rest of the run |
| LedgerRuns.MovedFenceIsDead | pkg/storage/postgres_jobs.go:640-667 | after any acquire, reclaim, completion, failure or acknowledgement, a fence issued before is never accepted again |
| LedgerRuns.HeldIffNotMoved | pkg/storage/postgres_jobs.go:408-418 | a fence is current exactly while nothing has moved the lease since it was issued |
| LedgerRuns.HolderWasIssued | pkg/storage/postgres_jobs.go:284-309 | whoever holds a row got its fence from an acquire of the run |
| LedgerRuns.FencingOverRuns | pkg/storage/postgres_jobs.go:369-380 | an accepted fenced write carries a fence that exactly one acquire issued, nothing moved the lease in between, and any fenced write of the job that the row would accept at that point carries the same fence |
| LedgerRuns.EffectsAreAllowed | pkg/storage/postgres_jobs.go:369-380 | every change of a row is a lease, a reclaim, a cancellation request, or an accepted write under the fence that holds it |
| LedgerRuns.LeasesDoNotOverlap | pkg/storage/postgres_jobs.go:284-309 | between two leases of one job the first was released by its holder or reclaimed while still held, so concurrent batches are disjoint |
| LedgerRuns.MeasureStep | pkg/model/job.go:28-35 | 3 * (max_attempts - attempt) plus the rank of the state falls with every state change and is kept otherwise; terminal rows are frozen |
| LedgerRuns.ChangesPlusMeasure | pkg/storage/postgres_jobs.go:284-309 | state changes so far plus the measure never exceed 3 * max_attempts |
| LedgerRuns.StateChangesAreBounded | pkg/model/job.go:48-61 | no run takes a job through more than 3 * max_attempts state changes |
| LedgerRuns.BoundIsAttained | pkg/storage/postgres_jobs.go:487-509 | for every max_attempts some run makes exactly that many, so the bound is tight |
| LedgerRuns.TerminalIsFinal | pkg/model/job.go:28-35 | once a job is terminal no column of it changes again |
| LedgerRuns.AttemptCountsAcquires | pkg/storage/postgres_jobs.go:295-300 | the attempt column counts the leases handed out and never exceeds max_attempts |
| LedgerRuns.TokenArithmetic | pkg/model/job.go:54 | with n leases handed out, n <= token <= 2n, at most 2n - 1 while leased or running, and never more than 200 |
| LedgerRuns.CancelIsPermanent | pkg/storage/postgres_jobs.go:555-571 | a cancellation request is never cleared and never re-dated |
| LedgerRuns.NeverStartedAfterCancel | pkg/storage/postgres_jobs.go:369-380 | no statement starts a job whose cancellation was requested |
| LedgerRuns.QueuedDespiteRequestStep | pkg/storage/postgres_jobs.go:487-509 | a statement leaves a row queued with a request if and only if it was so and is unchanged, or the statement is an accepted retryable failure with attempts left |
| LedgerRuns.QueuedDespiteRequestIff | pkg/storage/postgres_jobs.go:489-493 | over every run, a job is queued despite a request if and only if such a failure put it there after the request and nothing touched it since |
| LedgerRuns.EndedDespiteRequestStep | pkg/storage/postgres_jobs.go:448-461 | a statement leaves a row ended other than canceled with a request if and only if it was so, or the statement is an accepted completion or final failure of a row with a request |
| LedgerRuns.EndedDespiteRequestIff | pkg/storage/postgres_jobs.go:487-509 | over every run, a job with a request has ended other than canceled if and only if such a completion or failure was accepted for it after the request |
| LedgerRuns.CanceledWasRequested | pkg/storage/postgres_jobs.go:597-610 | nothing ends canceled that no earlier statement of the run asked to cancel |
| LedgerRuns.Lookup | pkg/storage/postgres_jobs.go:195-218 | finding a job by tenant and idempotency key, or that there is none |
| LedgerRuns.RepeatFindsOriginal | pkg/storage/postgres_jobs.go:195-218 | an insert under a taken key changes nothing, and the idempotency key leads to the original job and hash at every later moment |
| LeaseTimes.LeasesIssue | pkg/storage/postgres_jobs.go:295-300 | a fence is issued by a statement that leases a queued job, and by nothing else |
| LeaseTimes.QueuedForWhen | pkg/storage/postgres_jobs.go:487-497 | only creation, a retryable failure and a reclaim queue a job, each for the time asked for, now, or the end of its pause |
| LeaseTimes.LeasedIffDue | pkg/storage/postgres_jobs.go:284-293 | an acquire that looks at a job leases it if and only if the job is queued and due |
| LeaseTimes.NotLeasedEarly | pkg/storage/postgres_jobs.go:284-293 | the first lease after a job was created or queued again reads a clock no earlier than the time it was created for, or the end of the pause |
| LeaseTimes.EveryLeaseWaited | pkg/storage/postgres_jobs.go:284-309 | behind every lease there is the statement that queued the job, with no lease in between, whose time had come |
| LeaseTimes.ExpiryWasGranted | pkg/storage/postgres_jobs.go:408-418 | the expiry of a lease in force is that of its last grant, the acquire or a renewal in time |
| LeaseTimes.AcceptedIffInTime | pkg/storage/postgres_jobs.go:448-461 | while nothing moved the lease, a completion, failure or renewal is accepted if and only if its clock is before the end of the last grant |
| LeaseTimes.TakenBackIffRunOut | pkg/storage/postgres_jobs.go:640-667 | a reclaim that looks at a lease in force takes it back if and only if its clock has reached the end of the last grant |
| LeaseOrder.StringLeTransitive | pkg/storage/postgres_jobs.go:345-353 | the order that breaks ties on ids is transitive |
| LeaseOrder.StringLeIff | pkg/storage/postgres_jobs.go:345-353 | one id comes before another if it is the beginning of it, or smaller where they first differ |
| LeaseOrder.SelectSmallest | pkg/storage/postgres_jobs.go:284-309 | ORDER BY with LIMIT: the n smallest candidates, all of them if there are fewer |
| LeaseOrder.Returning | pkg/storage/postgres_jobs.go:300-309 | RETURNING: one snapshot for each updated row |
| LeaseOrder.SortJobs | pkg/storage/postgres_jobs.go:345-353 | the result is sorted by next run, creation and id, and a permutation of the input |
| JobRepository.PostgresJobRepository.ValidMeansTableOk | pkg/storage/postgres_jobs.go:126-674 | whatever methods were called, every row has its shape, keys are unique, and no statement beyond the limits of names, texts, durations, batches and payloads was ever sent |
| JobRepository.PostgresJobRepository.SelectReady | pkg/storage/postgres_jobs.go:284-294 | the ready unlocked jobs due first, all of them if there are no more than the limit |
| JobRepository.PostgresJobRepository.CreateJob | pkg/storage/postgres_jobs.go:126-219 | a new key is inserted, queued with attempt and token 0, each column from its own trimmed input and next_run_at as asked or now; a repeat with the same fingerprint returns the original job in whatever state it is; a different fingerprint, a taken id, or invalid input is an error and changes nothing |
| JobRepository.PostgresJobRepository.MarkRunning | pkg/storage/postgres_jobs.go:357-390 | succeeds exactly for the live holder of a leased job nobody asked to cancel, and changes only the state |
| JobRepository.PostgresJobRepository.RenewLease | pkg/storage/postgres_jobs.go:392-429 | succeeds exactly for the live holder, and only moves the expiry |
| JobRepository.PostgresJobRepository.CompleteJob | pkg/storage/postgres_jobs.go:431-472 | succeeds exactly for the live holder of a leased or running job; stores the response and gives up the lease without touching the token |
| JobRepository.PostgresJobRepository.FailJob | pkg/storage/postgres_jobs.go:474-531 | queued, dead-lettered or failed by retryability and attempts left; the trimmed report is stored, the token and any cancellation request stay |
| JobRepository.PostgresJobRepository.CancelJob | pkg/storage/postgres_jobs.go:533-582 | queued jobs are canceled at once, others are marked without disturbing their lease, terminal ones are left alone |
| JobRepository.PostgresJobRepository.AcknowledgeCancellation | pkg/storage/postgres_jobs.go:584-621 | succeeds exactly for the live holder of a job that was asked to cancel |
| JobRepository.PostgresJobRepository.AcquireLeases | pkg/storage/postgres_jobs.go:262-355 | every job returned was queued, due and had attempts left, and got one attempt and one token more; every unlocked job of that kind left out waits behind a full batch; the result is distinct and sorted, and takes none that another transaction has locked |
| JobRepository.PostgresJobRepository.SelectExpired | pkg/storage/postgres_jobs.go:640-648 | the longest expired unlocked leases, all of them if there are no more than the limit |
| JobRepository.PostgresJobRepository.ReclaimExpiredLeases | pkg/storage/postgres_jobs.go:623-674 | takes back leases that ran out: canceled if asked for, else queued after the pause, else dead, always with a new token; unless the batch is full no unlocked lease that ran out is left |
| Engines.ActionKeepsOk | pkg/worker/worker.go:403-561 | whatever the two threads of a call do, the calls it has issued fit its program counters |
| Engines.ActionKeepsFence | pkg/worker/worker.go:428-455 | an execution that was told its job is running finds it running as long as its fence is current |
| Engines.SpawnedOk | pkg/worker/worker.go:284-316 | executions started from one batch carry the fences of the rows returned, distinct from all others |
| Engines.StepKeepsOk | pkg/worker/worker.go:403-629 | one step of any execution, answered, lost or unsent, keeps the invariant of the whole world |
| Engines.CrashKeepsOk | pkg/worker/worker.go:403-561 | a crash of a process keeps it |
| Engines.WorldsStayOk | pkg/worker/worker.go:80-355 | the invariant holds in every world that any interleaving reaches |
| Engines.ExecutionsHaveDistinctLeases | pkg/worker/worker.go:411-424 | no two executions, of any engines, run under the same lease token of a job |
| Engines.RequestsAreBounded | pkg/worker/worker.go:461-485 | a job causes at most max_attempts downstream requests in all, even with expired holders still running; one per execution follows from the steps of the dispatcher's retry loop with no retries |
| Engines.OneOutcomePerLease | pkg/worker/worker.go:499-561 | across both threads at most one of acknowledge, complete and fail; complete, fail and any request only after a successful mark; complete only after exactly one request |
| Engines.OneHolder | pkg/worker/worker.go:411-424 | at most one execution in the world holds a job at any moment |
| Engines.FencingInWorlds | pkg/storage/postgres_jobs.go:448-461 | every write accepted in such a world belongs to the one acquire whose fence it carries |
| Engines.WritesOnlyRunningJobs | pkg/worker/worker.go:428-455 | a completion or failure sent by an engine changes nothing unless the job is running |
| Engines.NoOutcomeForDoomed | pkg/worker/worker.go:428-455 | no outcome reaches a job that was asked to cancel while not running |
| Engines.DoomedJobsOnlyCancel | pkg/storage/postgres_jobs.go:555-571 | a job asked to cancel while queued or leased never runs again, takes at most one more lease, and can only end canceled |
| EngineHistories.JoinsOnce | pkg/worker/worker.go:487-497 | an execution passes the check after its renewal thread stopped at most once |
| EngineHistories.WriteFollowsLiveJoin | pkg/worker/worker.go:487-497 | an outcome is sent only after the one check that found the renewal thread stopped and the job context live |
| EngineHistories.RequestIff | pkg/worker/executor.go:85-96 | an execution has made a request, and then exactly one, if and only if it has sent one |
| EngineHistories.ExecutingWasMarked | pkg/worker/worker.go:428-455 | whatever is executing had its MarkRunning accepted and was told so |
| EngineHistories.WhichLeasesRequest | pkg/worker/executor.go:45-107 | at any time after an execution got through Execute, also once it has returned or finished: it was marked running, and has made exactly one request if and only if the job was not refused before sending |
| EngineHistories.SucceededWasRequested | pkg/worker/worker.go:549-561 | a job that succeeded was completed by an execution that was marked running, made exactly one request and sent one completion |
| EngineHistories.LeaseWithoutRequest | docs/concepts/architecture.md:66 | a history in which a lease uses up an attempt and makes no request |
| EngineHistories.SameKeyTwice | pkg/worker/worker.go:411-424 | a history in which one engine has two unfinished executions of one job, the first still executing |
| EngineHistories.CancelMayComeTooLate | pkg/storage/postgres_jobs.go:487-509 | for every outcome a history in which a job asked to cancel while running ends, or is requeued, as that outcome says with its request standing |
| EngineHistories.OnlyRunningJobsOutliveRequest | pkg/storage/postgres_jobs.go:555-571 | under the engines, the job of `LedgerRuns.EndedDespiteRequestIff` was running when the request was recorded |
| EngineCalls.CallsTakeEffect | pkg/worker/worker.go:403-629 | what each call of an execution does to its row, column by column, if it arrives, and that a lost one does nothing |
| EngineCalls.BatchIsSpawned | pkg/worker/worker.go:306-316 | any different jobs that are queued, due and have attempts left can be delivered, and each is started under its own new fence |
| EngineCalls.MarkDecides | pkg/worker/worker.go:428-455 | a job is executed, with its renewal thread, if and only if MarkRunning was answered and found the lease live, the job leased and no request; answered otherwise, the row is read for the reason |
| EngineCalls.LookupDecides | pkg/worker/worker.go:428-455 | if that read finds a request the acknowledgement is due, else the execution is over |
| EngineCalls.OnlyAcknowledges | pkg/worker/worker.go:428-455 | after that read an execution does nothing but the one acknowledgement, and that only if a request was found |
| EngineCalls.RenewalThread | pkg/worker/worker.go:582-628 | a look at the job leads to an acknowledgement if it finds a request and to a renewal otherwise; a renewal leads back to the wait unless the lease is lost |
| EngineCalls.NextCallIsDue | pkg/worker/worker.go:582-628 | what is due after a look, and only that, stays due until it is done or the process crashes |
| EngineCalls.NothingAfterNotice | pkg/worker/worker.go:593-612 | once the renewal thread has read a request, its execution never renews and never writes an outcome |
| EngineCalls.RenewedWhileExecuting | pkg/worker/worker.go:563-629 | as long as Execute runs and nothing stopped the job, its renewal thread waits for the next tick or is about to renew |
| EngineCalls.ContextCanceledIff | pkg/worker/worker.go:563-629 | the context of a job is cancelled if and only if a request was noticed, the lease was lost, or the drain deadline fired |
| EngineCalls.JoinDecides | pkg/worker/worker.go:487-497 | when the renewal thread has stopped, the outcome is due if none of these happened, and else nothing is written |
| EngineCalls.OutcomeCameFrom | pkg/worker/worker.go:499-556 | what is written is what Execute or its panic came back with |
| EngineCalls.SucceededWithItsAnswer | pkg/worker/worker.go:549-556 | the response stored for a succeeded job is the one that Execute returned to an execution of that job |
| EngineCalls.CanceledWhileRunning | pkg/worker/worker.go:593-612 | a history in which the renewal thread of a running job notices a request, acknowledges it, and the job ends canceled |
| EngineCalls.CanceledBeforeStart | pkg/worker/worker.go:428-447 | a history in which a leased job is asked to cancel, its worker learns so before starting it, and the job ends canceled without a request |
| EngineCalls.LeaseLostWhileRunning | pkg/worker/worker.go:616-624 | a history in which a renewal comes too late and stops the execution |
| EngineLoop.StepKeepsCapacity | pkg/worker/worker.go:182-317 | every step of the poll loop and of every goroutine conserves the tokens |
| EngineLoop.TokensAreConserved | pkg/worker/worker.go:152-156 | free, held and running tokens add up to the concurrency on every path, returning one never blocks, and every batch asked for is a valid one |
| EngineLoop.ShutdownAlwaysOk | pkg/worker/worker.go:321-348 | the shutdown flag is set exactly while draining or stopped, no cancellation precedes it, and the map leads to registered tasks only |
| EngineLoop.NoRegistrationAfterShutdown | pkg/worker/worker.go:407-424 | nothing registers and no goroutine starts once shuttingDown is set |
| PollHistories.OwedIsStarted | pkg/worker/worker.go:276-316 | at every moment the tasks started so far and the jobs still in hand are, in order, the non-nil jobs of all batches that arrived with a live context, each up to the number asked for |
| PollHistories.BatchIsStarted | pkg/worker/worker.go:232-316 | when the poll loop is next at its top, exactly the non-nil jobs among the first `held` of the batch were started, in order; none if the call failed or the context was done |
| PollHistories.AsksWhileLive | pkg/worker/worker.go:219-229 | leases are asked for only with a live context, as many as tokens are held |
| PollHistories.CollectsAll | pkg/worker/worker.go:182-217 | the loop goes on taking tokens until it has a whole batch or none are left |
| PollHistories.WaitsForTimer | pkg/worker/worker.go:232-272 | after a call that failed or brought nothing the loop does not ask again before its timer fires |
| PollHistories.ShutdownIsBounded | pkg/worker/worker.go:177-348 | once the context is done the loop never asks again, and takes only a bounded number of steps before it drains, whatever else happens |
| PollHistories.StopsWhenDrained | pkg/worker/worker.go:326-348 | the loop ends in the drain deadline or with every task gone |
| EngineLoop.CoveredIffUndisturbed | pkg/worker/worker.go:407-424 | a registered task is in the map exactly if no task of the same key registered or finished since |
| EngineLoop.DeadlineCancelsIff | pkg/worker/worker.go:321-348 | the drain deadline cancels a registered task if and only if no task of the same key registered or finished after it |
| EngineLoop.DrainReachesEveryJob | pkg/worker/worker.go:321-348 | if no two in-flight jobs share (tenant, id), the deadline cancels every job still registered |
| EngineLoop.SharedKeyEscapesDrain | pkg/worker/worker.go:407-424 | a run with two in-flight jobs under one key, of which the deadline cancels only the second |
| JointDrain.DrainMissesExecution | pkg/worker/worker.go:321-348 | one history of ledger and process together in which the engine leases a job, loses the lease to a reclaim, leases it again, and the drain deadline cancels the second execution while the first, still executing, keeps a live context |
| Renewal.TimelyIsLive | pkg/worker/worker.go:563-629 | renewals that landed less than L - R after their ticks leave the lease unexpired |
| Renewal.KeptUntil | pkg/storage/postgres_jobs.go:408-418 | as long as renewals keep up, the holder keeps the row |
| Renewal.TimelyRenewalKeepsLease | pkg/worker/worker.go:563-629 | at every instant in between the lease is live, no reclaim can take the job, and a completion or failure is accepted |
| LinkedList.Detach | pkg/storage/memory.go:97-106 | the four pointer writes of a removal leave a ring without that node |
| LinkedList.Attach | pkg/storage/memory.go:108-112 | the four pointer writes of an insertion leave a ring with that node last |
| LinkedList.List.LinkBack | pkg/storage/memory.go:108-112 | a node is linked in front of the root and becomes the newest |
| LinkedList.List.Unlink | pkg/storage/memory.go:97-106 | taking a node out of the ring keeps the order of the others |
| LinkedList.List.MoveToBack | pkg/storage/memory.go:86-95 | a node becomes the newest, the others keep their order |
| TaskOrder.BatchKeysAreRight | pkg/storage/memory.go:59-75 | the batch is the task id first, then every non-empty alias, each once |
| TaskOrder.BatchInOrder | pkg/storage/memory.go:59-75 | aliases keep the order in which they first occur |
| TaskOrder.SavedKeepsBound | pkg/storage/memory.go:97-106 | a save evicts exactly as much as the bound demands and keeps ids distinct |
| TaskOrder.SavedHolds | pkg/storage/memory.go:86-112 | after a save exactly these entries are there: the saved keys with the new response, and the entries outside the batch that did not have to go |
| TaskOrder.SavedInOrder | pkg/storage/memory.go:86-112 | after a save the entries outside the batch come first in their old order, then the keys present before, then the new ones, each in batch order |
| TaskOrder.EvictsOldest | pkg/storage/memory.go:97-106 | if an entry outside the batch stays, every newer one does |
| TaskOrder.PresentKeyStep | pkg/storage/memory.go:86-95 | updating one present key and moving it back is one step of the sequence form |
| TaskOrder.SaveSplits | pkg/storage/memory.go:86-112 | update, evict and insert, one after the other, make up the sequence form of a save |
| TaskStore.IndexedKeys | pkg/storage/memory.go:86-95 | if every entry has its node in the map and the sizes agree, every key of the map has its entry |
| TaskStore.MemoryTaskStore.constructor | pkg/storage/memory.go:32-41 | a store with no positive limit gets the default one |
| TaskStore.MemoryTaskStore.Deduplicate | pkg/storage/memory.go:59-75 | the loop computes the batch of keys |
| TaskStore.MemoryTaskStore.UpdatePresent | pkg/storage/memory.go:86-95 | present keys move to the back in batch order with the new response; absent ones are set aside in order |
| TaskStore.MemoryTaskStore.MakeRoom | pkg/storage/memory.go:97-106 | the oldest entries go, no more than needed |
| TaskStore.MemoryTaskStore.InsertNew | pkg/storage/memory.go:108-112 | new keys are appended in order |
| TaskStore.MemoryTaskStore.Save | pkg/storage/memory.go:48-115 | the store becomes the sequence form of the save; every error leaves it unchanged |
| TaskStore.MemoryTaskStore.Load | pkg/storage/memory.go:119-135 | finds exactly what the sequence holds |
| TaskStore.MemoryTaskStore.Len | pkg/storage/memory.go:138-142 | the number of entries, never above the limit |
| FallbackGraph.PreorderMeetsOnce | pkg/dispatcher/dispatcher.go:207-274 | the depth-first preorder meets nobody twice |
| FallbackGraph.PreorderIsExact | pkg/dispatcher/dispatcher.go:207-274 | a search from a configured agent meets exactly the configured agents reachable from it |
| FallbackGraph.PreorderIsStackSearch | pkg/dispatcher/dispatcher.go:207-274 | the recursive order is that of a plain stack-based depth-first search |
| CycleCheck.RealCycleIsCycle | pkg/config/validator.go:173-176 | a reported path and its neighbour contain a closed walk through that neighbour |
| CycleCheck.SortedMeansAcyclic | pkg/config/validator.go:168-185 | a graph whose agents can be put after all their fallbacks has no cycle |
| CycleCheck.CycleChecker.CheckCycle | pkg/config/validator.go:170-185 | either everything below the node is visited and sorted, or the reported path is a real cycle; the recursion ends |
| CycleCheck.CheckIds | pkg/config/validator.go:33-41 | accepts exactly the configurations whose ids are present and unique |
| CycleCheck.CheckReferences | pkg/config/validator.go:153-166 | accepts exactly the configurations whose fallbacks exist and are other agents, and builds their graph |
| CycleCheck.FindCycle | pkg/config/validator.go:168-193 | no error if and only if the graph is acyclic |
| CycleCheck.Validate | pkg/config/validator.go:153-193 | the checks accept exactly the acyclic configurations with present, unique ids and existing fallbacks, and report a cycle exactly when that is all that is wrong; every error names a fault that is there |
| Dispatch.Dispatcher.GetAgent | pkg/dispatcher/dispatcher.go:88-103 | finds an agent exactly if one is configured under the id |
| Dispatch.Dispatcher.FindAgentByCapability | pkg/dispatcher/dispatcher.go:106-123 | the first configured agent that offers the capability, or none offers it |
| Dispatch.Dispatcher.ResolveAgent | pkg/dispatcher/dispatcher.go:184-205 | by id if there is one, else by capability, else the request is invalid; which error is returned when |
| Dispatch.SameCapabilityIff | pkg/dispatcher/dispatcher.go:106-123 | capabilities agree if they do letter by letter, but for case and white space around them |
| Dispatch.FilledKeepsAnswer | pkg/dispatcher/dispatcher.go:348-357 | an answer is left as it is but for ids it left blank |
| Dispatch.OnlyTheseAreRetried | pkg/dispatcher/dispatcher.go:318-338 | only a request without a reply or one of status 500 or above is followed by another |
| Dispatch.AttemptsInOrder | pkg/dispatcher/dispatcher.go:288-361 | the attempts on an agent are made one after the other, and all but the last were retried |
| Dispatch.Dispatcher.AttemptOnce | pkg/dispatcher/dispatcher.go:304-361 | one pass through the loop body: one attempt at the current tick, and whether it is answered, final or retried; with a live context only an untranslatable request or response is final |
| Dispatch.Dispatcher.Attempts | pkg/dispatcher/dispatcher.go:288-363 | at most 1 + retries attempts in order within the call; every one but the last got no reply or a status of 500 or above; on failure with a live context the last could not be translated or all retries were used, and which error reads as a deadline |
| Dispatch.Dispatcher.InvokeAgentWithRetries | pkg/dispatcher/dispatcher.go:276-363 | the same, with an answer exactly if the last attempt was answered, and its blank ids filled in |
| Dispatch.Dispatcher.DispatchWithFallback | pkg/dispatcher/dispatcher.go:207-274 | invokes a prefix of the preorder from the agent, all of it on failure with a live context, first answer returned, requests counted exactly |
| Dispatch.Dispatcher.CascadeToFallbacks | pkg/dispatcher/dispatcher.go:227-252 | the loop over the fallbacks invokes a prefix of their preorder, all of it if nobody answers and the context is live |
| Dispatch.Dispatcher.FailOver | pkg/dispatcher/dispatcher.go:228-251 | one turn of that loop: a visited or unknown fallback changes nothing, any other continues the preorder from there |
| Dispatch.Dispatcher.Dispatch | pkg/dispatcher/dispatcher.go:127-134 | on every graph the search ends, tries agents once each in preorder, returns the first answer, never takes the cycle branch, and fails with a live context only after trying exactly the reachable agents, none of them given up while it had retries left |
| Dispatch.Dispatcher.DispatchSingleAttempt | pkg/dispatcher/dispatcher.go:139-171 | at most one request, to the resolved agent; success exactly if it is answered |
| Dispatch.SearchFromOne | pkg/dispatcher/dispatcher.go:127-134 | what a completed or interrupted search from one agent has tried, in terms of reachability |
| Dispatch.ToldAsConfigured | pkg/dispatcher/dispatcher.go:276-363 | in a whole dispatch every agent is attempted at most once more than it has retries, and again only after no reply or a status of 500 or above |
| Executor.BoundStringKeepsContent | pkg/worker/executor.go:194-201 | cutting never makes a visible string blank |
| Executor.BoundStringTwice | pkg/worker/executor.go:194-201 | bounding again changes nothing if and only if the last character kept is not a space |
| Executor.BoundStringTwiceDiffers | pkg/worker/executor.go:194-201 | an input whose second bound differs from the first |
| Executor.ReportIsKept | pkg/worker/executor.go:175-192 | every report of the fixed list is stored as it is |
| Executor.MappedIsReport | pkg/worker/executor.go:109-171 | every dispatcher error maps to one of a fixed list of reports, a known code to itself, retryable exactly if the downstream timed out or was unavailable and max_attempts is above one |
| Executor.ReportHidesText | pkg/worker/executor.go:173-192 | a report depends on the kind of the error only, never on its text |
| Executor.ReportIsBounded | pkg/worker/executor.go:173-192 | every report fits the ledger's length limits and asks for a retry only if max_attempts allows one |
| Executor.DispatcherExecutor.Execute | pkg/worker/executor.go:45-107 | rejected jobs send nothing; others at most one request, to the agent the job's own agent column names or else one that offers its capability, and exactly one if and only if they resolve to an agent whose adapter is registered and are translated; success exactly if answered without a failed task; which report each failure gets |
| Executor.FailureIsAccepted | pkg/worker/worker.go:524-541 | the failure a worker writes for an execution is never refused for its content |
| StreamEvents.SseWriter.Emit | pkg/server/stream_emitter.go:15-20 | the connection is handed the event and says whether it took it |
| StreamEvents.ErrorTrackingEmitter.Emit | pkg/server/stream_emitter.go:15-20 | the flag is set exactly by an error event, before it is forwarded |
| StreamEvents.TrackingEmitter.Emit | pkg/dispatcher/dispatcher.go:26-29 | the flag is set by any event, whether or not it is taken |
| Adapters.LangGraphIsWellBehaved | pkg/adapter/langgraph.go:185-254 | whatever the line and the event name in force, LangGraph hands on no second start and no completion for it, and an error only as the last thing it does |
| Adapters.ScriptEndsOnce | pkg/adapter/langgraph.go:151-262 | for every adapter whose lines behave so: among the events a response is worth, only the last can be terminal and only the first announces the start |
| Adapters.StateIsName | pkg/adapter/langgraph.go:177-194 | the state LangGraph carries is the last event name since the last blank line |
| Adapters.NameInForce | pkg/adapter/langgraph.go:177-194 | the name in force is that of the last event line, unless a blank line came since |
| Adapters.NoNameInForce | pkg/adapter/langgraph.go:177-194 | without either there is none |
| Adapters.LangGraphLine | pkg/adapter/langgraph.go:185-254 | which event each line stands for under each event name: message events are token deltas, state events step progress under their name, an error event ends the stream with an error, a done marker or end event with its completion |
| Adapters.FieldIsReadBack | pkg/adapter/langgraph.go:185-197 | a field written as an SSE line is read back as it was |
| Adapters.MessageStream | pkg/adapter/langgraph.go:151-262 | whatever messages are written, the client is handed their tokens, one each and in order, between the start and the completion |
| Adapters.PlaySplits | pkg/adapter/langgraph.go:178-255 | what a response is worth is what the lines read so far stand for, followed by what is played from there in the state they lead to |
| Adapters.ScriptByLines | pkg/adapter/langgraph.go:178-262 | one event for each line that stands for one before the line where the translation stops; then nothing if it stopped for a context that was done, the error of that line if it carries one, and otherwise the completion if and only if no read error is pending |
| Adapters.PendingErrorHidesCompletion | pkg/adapter/langgraph.go:257-261 | a response whose last line ends the stream and whose pending read error suppresses the completion |
| Adapters.EmitData | pkg/adapter/langgraph.go:202-253 | the switch over the event name hands on that one event, and fails exactly for an error event or a refused one |
| Adapters.TranslateLine | pkg/adapter/langgraph.go:179-254 | one pass through the scanner loop: go on in the next state, leave the loop, or fail, with the script so far handed on |
| Adapters.TranslateLineBy | pkg/adapter/autogen.go:182-239 | the same for any adapter that turns each line into at most one event |
| Adapters.TranslateLines | pkg/adapter/langgraph.go:178-262 | the scanner loop hands on the script up to the first event that is refused, and all of it if none is; the script itself stops at the first line read with a done context |
| Adapters.TranslateStream | pkg/adapter/langgraph.go:151-262 | for every adapter, something is always sent; it is the beginning of the script, all of it unless an event was refused, and nothing follows a refused one; success exactly if the completion was delivered |
| StreamDispatch.OnlyTheseAreTriedAgain | pkg/dispatcher/dispatcher.go:494-512 | only a contact without a reply or one that met a status of 500 or above is followed by another |
| StreamDispatch.ContactsInOrder | pkg/dispatcher/dispatcher.go:461-522 | the contacts with an agent are made one after the other, and all but the last were retried |
| StreamDispatch.StreamDispatcher.ContactOnce | pkg/dispatcher/dispatcher.go:477-514 | one pass through the loop body: one contact at the current tick, and whether it opens a stream, is final or retried |
| StreamDispatch.StreamDispatcher.Connect | pkg/dispatcher/dispatcher.go:449-514 | the streaming retry loop: at most 1 + retries contacts in order within the call, every one but the last without a reply or refused; without a stream and with a live context the request could not be translated or all retries were used |
| StreamDispatch.StreamDispatcher.InvokeAgentStreamWithRetries | pkg/dispatcher/dispatcher.go:449-524 | either nothing was sent and no contact answered with a stream, or the last one did and what was sent is its translation |
| StreamDispatch.StreamDispatcher.DispatchStreamWithFallback | pkg/dispatcher/dispatcher.go:365-447 | goes on to fallbacks only while nothing was sent, in preorder, each once; never the cycle branch from the loop |
| StreamDispatch.StreamDispatcher.CascadeStream | pkg/dispatcher/dispatcher.go:393-446 | the loop over the fallbacks of a streaming agent that sent nothing, and the error if they all fail |
| StreamDispatch.StreamDispatcher.StreamFrom | pkg/dispatcher/dispatcher.go:175-182 | the search with a fresh visited set and tracker: either one contact relayed a stream and everything sent is the translation of it by that agent's adapter, or nothing was sent and, with a live context, exactly the reachable agents were tried |
| StreamDispatch.StreamDispatcher.DispatchStream | pkg/dispatcher/dispatcher.go:175-182 | everything sent comes from the last contact made, the only one that streamed; if nothing was sent and the context is live, exactly the reachable agents were tried |
| StreamDispatch.HandlerCloses | pkg/server/a2a_handler.go:277-283 | the handler's own error event is added exactly when it is needed to close the stream |
| StreamDispatch.StreamIsServed | pkg/server/a2a_handler.go:277-283 | what the dispatch leaves on the connection and what the handler adds make one closed stream from one source |
| StreamDispatch.ServeStream | pkg/server/rest_handler.go:164-169 | whatever the adapters of the agents, all events come from one response of one agent, translated by its own adapter, but for the handler's error; a delivered terminal event is the last; if all events are delivered there is exactly one terminal event, completion if and only if the dispatch returned nil |

## Left out

- Connection pools, SQL text, row scanning, `Ping`, `Close`, DSN redaction, migrations beyond the table's constraints, and the repository's checks for a closed pool or a cancelled context before a statement.
- JobRepository.PostgresJobRepository.CreateJob: which of the validation errors is reported is not distinguished (all read as invalid input), SHA-256 is an arbitrary digest function, so nothing is claimed about collisions, and case folding is that of ASCII.
- JobRepository.PostgresJobRepository.AcquireLeases: durations are whole milliseconds; the truncation of finer ones is not modelled, and rows locked by other transactions are a set given from outside.
- Engines.OneOutcomePerLease: the read that decides between a lost lease and a missing job after a failed renewal or acknowledgement is left open (either answer), which allows more behaviours than the code has.
- EngineLoop.TokensAreConserved: goroutines and channels are steps of a state machine; a step is as long as the code between two shared accesses.
- Executor.DispatcherExecutor.Execute: JSON decoding is a function given from outside, a nil receiver is treated like a missing dispatcher, and invalid UTF-8 is not modelled.
- Dispatch.Dispatcher.InvokeAgentWithRetries: requests and responses are opaque, an error is late if it reads as an exceeded deadline, and backoff durations and jitter only matter through being cut short.
- Adapters.TranslateStream: JSON extraction is a function given from outside, and lines are already split; of the other four adapters it is only used that each turns a line into at most one event, which is never a start or a completion and is an error only when the translation ends there, so which lines they turn into what is not modelled.
- StreamEvents.SseWriter.Emit: an event the connection refuses is taken as not delivered; bytes of it that may have reached the client are not modelled.
- TaskStore.MemoryTaskStore.Save: responses are values, so callers that keep a pointer to a saved response and change it are not modelled, and neither is the mutex.
- LinkedList.List.Unlink: `container/list` is the standard library's; the ring is written from its documented behaviour.
- CycleCheck.Validate: only ids and fallback references; ports, URLs, header names, bounds and API keys are independent one-line checks.
- HTTP servers, routing, middleware, authentication, SSE bytes, logging, metrics, hooks and generated task ids.
- Adapter request and response translation: field copying.
