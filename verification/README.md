# Verified model of the submission service

The service accepts agent submissions over an API, queues them in a database, dispatches them to
sources with limited capacity, runs each in one attempt, and streams a per-submission event log to
clients. This project models that core in Dafny and proves what it promises.

## How the model is built

- `Prelude`, `Protocol`: shared vocabulary, states, scheduling requests and event envelopes.
- `EventLog`: a log read as a history. `Replay` folds it, `Legal` says which entry may come next.
- `StoreModel`: the tables as a value and every transaction as a function on it. A transaction commits
  whole or leaves the tables alone, as the single pooled connection guarantees
  (`crates/service/src/store.rs:116-121`). `Inv` is the invariant of the tables.
- `StoreProofs`, `Evolution`: every transaction keeps `Inv`; how rows, attempts and logs may change.
- `Store`: the store as a class whose methods update the tables through a private transaction, each
  proved to do exactly what `StoreModel` says.
- `Sorting`, `Capacity`, `Scheduler`: the order of a pass, source availability, and one whole pass over
  the store, uninterrupted.
- `Daemon`: scheduler, attempts, API handlers, cancellation registry and cancel channels as one
  machine. A step is one transaction, one registry access or one reading, because those are the points
  where the actors may be switched. `Step` is total and a run is any list of actions, so a statement
  over all lists is a statement over all runs, crashes and restarts included.
- `DaemonSafety`, `DaemonRuns`, `DaemonTheorems`, `DaemonLifecycle`, `DaemonRace`, `DaemonLoss`,
  `DaemonReplies`: the invariant of that machine and the results about runs, two of them explicit.
- `Delivery`, `Watch`, `Sse`, `SseLaws`, `Wire`, `Resume`: the server's event stream among commits, late
  broadcasts and lag; the client's resumption; the incremental parser, with its rules line by line in
  `SseLaws`; the way of an entry over the wire and back;
  and connections that break at any byte.
- `Output`, `Runtime`, `AttemptPipeline` (in `Attempt.dfy`): the two-stage output capture, the loop
  that drives one prompt, and the way of its events through worker, supervisor and `execute` into the
  database. Loops over `select!` follow a script of the branches taken, so that a statement over all
  scripts covers every scheduling and every failure.

Clocks, fresh identifiers, probe answers, digests and the results of I/O are parameters. The whole
project is verified with `dafny verify dfyconfig.toml`.

Nine statements one might expect are false of the code. Each has an example or a run that shows it and a
theorem that says exactly when it holds:

- a pass never stops the scheduler: `DaemonLifecycle.SchedulerStopsOnlyWhen`, `DaemonRace.TheRaceIsReachable`;
- a committed cancellation always reaches its channel: `DaemonTheorems.NoLostCancellation`,
  `DaemonLoss.CancellationsAreLost`;
- every store method keeps the tables consistent by itself: `StoreProofs.AppendAgentKeepsInvIff`,
  `StoreProofs.AcceptKeepsInvIff`;
- aging excludes starvation: `Scheduler.StarvationIff`, `Scheduler.OvertakenAfterAll`;
- chunks do not matter to the parser: `Sse.ChunkingCannotMatterIff`, `Sse.LongCommentDependsOnChunks`;
- the capture is a prefix of the output: `Output.CaptureIsPrefixIff`, `Output.CaptureNeedNotBeAPrefix`;
- a completed record holds everything the agent said before its answer:
  `AttemptPipeline.CompletedOutputIsWhatTheAgentSaidIff`, `AttemptPipeline.WhatTheAgentSaidCanBeLost`;
- the deltas clients see add up to the output: `Runtime.DeltasAddUpIff`, `Runtime.AKeptTextCanGoUnreported`;
- `watch` returns once the log is finished: `Watch.EndToEndResume`, `Watch.LostEndKeepsTheClientWaiting`,
  `Watch.AClientIsLeftWaiting`.

## Model

| member | source | states |
|---|---|---|
| EventLog.LegalAt | crates/service/src/store.rs:1070-1109 | every entry of a persisted log was legal when it was appended and carries the next sequence number |
| EventLog.TerminalIsLast | crates/service/src/store.rs:566-580 | an entry that ends a submission is the last one of its log, is the only such entry, and is there exactly when the replayed state is terminal |
| EventLog.BlockedEntriesDiffer | crates/service/src/store.rs:593-630 | two `queue.blocked` entries with no other between them never carry the same blocker, whatever else was logged in between |
| EventLog.RevisionGrows | crates/service/src/store.rs:1070-1109 | replaying a longer log never gives a smaller revision |
| EventLog.FlagIsLogged | crates/service/src/store.rs:689-720 | the cancel flag is set exactly if the log records a cancellation request, and at most one is ever recorded |
| EventLog.LastPatchWins | crates/service/src/store.rs:770-802 | priority, start time and deadline replayed from a log are each what the last patch in it that carries the field said, be it a null, and the accepted value if none does |
| StoreProofs.LogRebuildsRow | crates/service/src/store.rs:276-284 | in every consistent database, folding a submission's log over its accepted request rebuilds state, revision, blocker, cancel flag, schedule and attempt; the schedule is what the last patches in the log said; sequences are exactly 1..latest_event_sequence; a terminal row has its one terminal entry last |
| StoreProofs.Coupled | crates/service/src/store.rs:390-429 | a submission has at most one attempt; the attempt is active exactly while the submission runs, ends in the submission's state, and holds its source slot exactly while starting, running or uncertain |
| StoreProofs.QueuedHasNoAttempt | crates/service/src/store.rs:390-397 | a queued submission has no attempt row |
| StoreProofs.FirstAttemptIsNumberOne | crates/service/src/store.rs:390-397 | the number computed for a claimed attempt is always 1 |
| StoreProofs.RunningHasItsAttempt | crates/service/src/store.rs:689-720 | a running submission has exactly one active attempt, the one a cancellation is addressed to |
| StoreProofs.AcceptKeepsInv | crates/service/src/store.rs:184-291 | accepting a request with ordered times keeps the database consistent, keys unique and locks exclusive |
| StoreProofs.AcceptKeepsInvIff | crates/service/src/store.rs:184-291 | accepting a new key keeps the database consistent if and only if the two times are ordered, which only `validate_request` checks |
| StoreProofs.AcceptEffect | crates/service/src/store.rs:138-291 | a key nobody holds creates a fresh queued row with its first entry; a key that is held is answered with what the row was accepted with, or refused exactly to another digest, and nothing changes |
| StoreProofs.ClaimKeepsInv | crates/service/src/store.rs:356-450 | a claim keeps the database consistent and never admits two holders of a workspace of which one writes |
| StoreProofs.ClaimEffect | crates/service/src/store.rs:356-450 | a claim is refused exactly for an unknown submission, one no longer queued, or one in whose workspace another runs or may still be writing while either of them writes; otherwise it stores attempt, row and entries as stated field by field |
| StoreProofs.MarkKeepsInv | crates/service/src/store.rs:452-483 | marking an attempt running keeps the database consistent and is a no-op on any attempt that is not starting |
| StoreProofs.AppendAgentKeepsInvIff | crates/service/src/store.rs:485-498 | `append_agent_event` checks nothing: it keeps the log legal if and only if the submission does not exist or the attempt is its live attempt |
| StoreProofs.FinishKeepsInv | crates/service/src/store.rs:500-585 | a finish keeps the database consistent, whoever calls it |
| StoreProofs.FinishEffect | crates/service/src/store.rs:510-584 | a finish succeeds exactly for an outcome state and the live attempt of the submission, then stores state, text, flag, error and the time of the call, ends both alike and keeps the source slot exactly for an uncertain outcome; otherwise it changes nothing |
| StoreProofs.SetBlockerKeepsInv | crates/service/src/store.rs:587-634 | recording a blocker keeps the database consistent and never repeats the current blocker |
| StoreProofs.FinishQueuedKeepsInv | crates/service/src/store.rs:991-1024 | expiring, cancelling or rejecting a queued submission keeps the database consistent |
| StoreProofs.CancelKeepsInv | crates/service/src/store.rs:645-725 | a cancellation keeps the database consistent in all four of its branches |
| StoreProofs.CancelReports | crates/service/src/store.rs:645-725 | the reported revision is the one the row now has, and each disposition says what the row was and has become |
| StoreProofs.CancelEffect | crates/service/src/store.rs:645-725 | what each kind of cancellation stores, logs and replies; a pending one is addressed to the active attempt |
| StoreProofs.CancelIsIdempotent | crates/service/src/store.rs:645-725 | a second cancellation changes nothing and publishes nothing |
| StoreProofs.ClaimPublishes | crates/service/src/store.rs:445-448 | a claim broadcasts exactly the two entries it appended, in order; `AcceptPublishes` to `PatchPublishes` say the same of every other transaction |
| StoreProofs.PatchKeepsInv | crates/service/src/store.rs:727-808 | a scheduling patch keeps the database consistent, in particular the deadline after the start time |
| StoreProofs.PatchEffect | crates/service/src/store.rs:727-808 | the error order of a patch; and of a successful one, for each of the three fields, that a value or a null it carries is what the row now holds, and a field it lacks is as it was |
| StoreProofs.SuffixFrom | crates/service/src/store.rs:835-843 | the rows with a greater sequence, in order, are the log from the cursor on, and nothing for a cursor past its end |
| Store.Transaction.AppendEvent | crates/service/src/store.rs:1070-1109 | bumps the counter of the row and appends the envelope under the new sequence, or fails on a missing row without any change |
| Store.Store.IdempotentReplay | crates/service/src/store.rs:138-182 | answers with the row that holds the key, a conflict for another digest, or nothing |
| Store.Store.Accept | crates/service/src/store.rs:184-291 | inserts the row with its first entry, or replays or refuses for a key already held; the whole new state is the one specified, and it is consistent exactly if the key was held or the times are ordered |
| Store.Store.ListQueued | crates/service/src/store.rs:330-343 | returns exactly the queued rows, each once, by priority descending and creation ascending; fails exactly if a queued row lacks its snapshots |
| Store.Store.ActiveForSource | crates/service/src/store.rs:345-354 | counts exactly the attempts that hold a slot of the source |
| Store.Store.Claim | crates/service/src/store.rs:356-450 | refuses an unknown, a no longer queued or a busy submission, and otherwise moves it and a new attempt in one step; the whole new state is the one specified |
| Store.Store.MarkAttemptRunning | crates/service/src/store.rs:452-483 | moves a starting attempt to running with one entry, and leaves any other alone |
| Store.Store.AppendAgentEvent | crates/service/src/store.rs:485-498 | appends the entry unconditionally; the database stays consistent exactly if the caller owns the live attempt |
| Store.Store.Finish | crates/service/src/store.rs:500-585 | ends submission and attempt in one step with both entries published in order, or changes nothing |
| Store.Store.SetBlocker | crates/service/src/store.rs:587-634 | records a new blocker of a queued submission, and nothing for the same blocker or another state |
| Store.Store.Cancel | crates/service/src/store.rs:645-725 | the four dispositions, the revision each reports, and the flag raised at most once |
| Store.Store.PatchScheduling | crates/service/src/store.rs:727-808 | does what `StoreProofs.PatchEffect` says: the error order, each field taken from the patch or kept, null clearing a time, and the combined times checked before anything is stored |
| Store.Store.CancellationRequested | crates/service/src/store.rs:810-819 | says for a known submission whether its log records a cancellation request, and true only of one that left the queue |
| Store.Store.EventsAfter | crates/service/src/store.rs:821-844 | returns the log from the cursor on; fails for an unknown submission or a cursor too large for the column |
| Store.Store.FinalResultOf | crates/service/src/store.rs:846-870 | succeeds exactly for a terminal submission, with the state, text, flag, error and finish time of its row; the missing finish time its decoding could trip over never occurs |
| Store.Store.RecoverRunningAsUncertain | crates/service/src/store.rs:898-930 | never fails, counts exactly the unfinished attempts, leaves none, and turns each into uncertain, as lost, with its slot kept; run again it counts zero |
| Store.Store.RejectUnfrozenQueued | crates/service/src/store.rs:932-989 | fails exactly the queued rows without snapshots, counting them, and touches nothing else |
| Store.RecoveryKeepsClaims | crates/service/src/store.rs:898-930 | recovery preserves the held attempts of every source and every workspace lock |
| Sorting.SortCorrect | crates/service/src/scheduler.rs:66-67 | the sort is a permutation, sorted, and stable |
| Capacity.OpenMeansRoomForOneMore | crates/service/src/capacity.rs:177-204 | a source is available if and only if its observation is healthy and fresh and the observed load plus one still leaves the reserve free; saturation never changes the answer |
| Capacity.AvailableIs | crates/service/src/capacity.rs:177-204 | the exact number: nothing for an unhealthy source, unknown for one never observed or stale, and otherwise what the limit leaves beside load and reserve |
| Capacity.OpenIsAntitone | crates/service/src/capacity.rs:194-203 | more running attempts never open a source, and whether the capacity is known does not depend on them |
| Capacity.CapacityManager.Initialize | crates/service/src/capacity.rs:81-103 | static sources become healthy, all others keep what was known of them |
| Capacity.CapacityManager.RefreshDue | crates/service/src/capacity.rs:105-175 | exactly the due command sources are probed: each then holds the very answer of its probe, or is unavailable if that failed, received now and due again after its interval; every other source keeps what it had |
| Capacity.AnswerOpensIff | crates/service/src/capacity.rs:177-204 | a probe's answer opens its source exactly while it is no older than the maximal age in whole seconds, if it was healthy and the usage it reported with the running attempts leaves room for one more beside the reserve |
| Capacity.StaleIff | crates/service/src/capacity.rs:183-193 | an observation of a command source is stale exactly once one second more than its maximal age has passed, or if that age does not fit the clock |
| Capacity.FailedProbeCloses | crates/service/src/capacity.rs:150-170 | a source whose probe failed has nothing available until it is probed again |
| Scheduler.AgingCurve | crates/service/src/scheduler.rs:561-568 | aging starts at zero, adds at most one point a minute and fifty in all, and the effective priority grows with time up to one hundred |
| Scheduler.EffectivePriorityIs | crates/service/src/scheduler.rs:561-568 | the effective priority is the priority plus the whole minutes of age, fifty at most, capped at one hundred |
| Scheduler.OlderIsVisitedFirstIff | crates/service/src/scheduler.rs:66-67 | the order of a pass, exactly: of two submissions the older comes first if and only if its effective priority is higher, or equal with no lower raw priority |
| Scheduler.NonOvertaking | crates/service/src/scheduler.rs:561-568 | hence the pass visits a permutation of the queue in which a younger submission comes before an older one only if its own priority is strictly higher |
| Scheduler.NewcomerIsPreferredIff | crates/service/src/scheduler.rs:561-568 | a newcomer is preferred to a fully aged submission if and only if its raw priority is higher and reaches the aged one |
| Scheduler.StarvationIff | crates/service/src/scheduler.rs:561-568 | a submission can be overtaken for ever by new arrivals if and only if its own priority is below one hundred |
| Scheduler.OvertakenAfterAll | crates/service/src/scheduler.rs:561-568 | an example: priority fifty, after a thousand times the full aging, loses to a newcomer of priority one hundred |
| Scheduler.SelectDispatch | crates/service/src/scheduler.rs:231-281 | picks the first open source in route order and then pool order; without one, the blocker says exactly whether there is no local route, a local pool source whose capacity is unknown, or no capacity |
| Scheduler.DispatchKeepsRoom | crates/service/src/scheduler.rs:251-271 | a dispatch never takes a source beyond its limit less its reserve |
| Scheduler.ResolvedIsStable | crates/service/src/scheduler.rs:68-200 | what a pass decided about one submission still holds after it has dealt with the others |
| Scheduler.ResolvedMeans | crates/service/src/scheduler.rs:68-200 | what a pass leaves: an overdue submission expired, one whose start time lies ahead queued with `not_before`, any other running or queued with a blocker that explains why |
| Scheduler.Pass | crates/service/src/scheduler.rs:65-201 | a pass is maximal: no time-eligible submission stays queued with both an open source and a free workspace, every blocked one shows the code that was decided, other rows stay as they were, no source is overcommitted, and of two attempts it makes the first goes to the submission of the higher effective priority, then of the higher priority, then of the earlier creation |
| Evolution.OwnerFinishes | crates/service/src/store.rs:510-564 | the owner's first finish always succeeds, so both row-count errors are out of its reach |
| DaemonSafety.StepIsSafe | crates/service/src/scheduler.rs:112-196 | every step of every actor keeps the database consistent, each spawned attempt the owner of its live row with its cancel channel registered, and every committed cancellation signalled, still being signalled, or accounted for as abandoned or unheard |
| DaemonSafety.TaskFinishesIsSafe | crates/service/src/scheduler.rs:452-556 | the finish of a running attempt succeeds whatever happened since its claim, and records the verdict on all its events |
| DaemonSafety.RecoverIsSafe | crates/service/src/store.rs:898-930 | recovery never meets an error although API calls interleave with its loop |
| DaemonRuns.RunIsSafe | crates/service/src/scheduler.rs:32-215 | the invariant holds in every state of every run |
| DaemonTheorems.HistoryOnlyGrows | crates/service/src/store.rs:1070-1109 | over any run a log is only extended, the accepted request never changes, the revision never falls and the two times stay ordered |
| DaemonTheorems.TerminalIsFinal | crates/service/src/store.rs:846-870 | once terminal, a submission's row, result, attempts and log never change again, so the separate reads of `result` agree |
| DaemonTheorems.NoLostUpdate | crates/service/src/store.rs:727-808 | of all patches that present the same revision at most one succeeds in any run |
| DaemonTheorems.WorkspaceExclusion | crates/service/src/store.rs:370-388 | two submissions that own one workspace at the same time both only read it |
| DaemonTheorems.UncertainWriterKeepsItsLock | crates/service/src/store.rs:525-540 | a writer of unknown fate keeps its workspace for ever: every later claim on it is refused |
| DaemonTheorems.ClaimTakesASpareSlot | crates/service/src/scheduler.rs:251-271 | a claim succeeds only on a source seen healthy and fresh whose observed load plus one still leaves the reserve free at the time of the claim, and takes exactly one slot |
| DaemonTheorems.CapacityIsNeverExceeded | crates/service/src/scheduler.rs:231-281 | a source that holds no more than its limit less its reserve never does in any later state of any run |
| DaemonTheorems.NoLostCancellation | crates/service/src/scheduler.rs:112-147 | when the flag of a running attempt is set and neither handler nor dispatcher has anything left to do about it, its cancel channel holds true if and only if its signal was not abandoned by a handler that died and did not come when `execute` had returned and dropped the receiver; while the attempt listens the latter cannot be |
| DaemonTheorems.OnlyDeadHandlersAbandon | crates/service/src/api.rs:174-196 | while no handler dies between its commit and its look at the registry, nothing is abandoned |
| DaemonTheorems.DeadHandlerLosesTheSignal | crates/service/src/api.rs:174-196 | a handler that dies there does lose the signal: flag set, nobody left to signal, channel false |
| DaemonTheorems.CancellationAfterExecuteIsUnheard | crates/service/src/scheduler.rs:365-387 | while the events left in the channel are drained after `execute` has returned, a first cancellation is committed and signalled in vain: flag set, nobody left to signal, nothing abandoned, channel false |
| DaemonLoss.CancellationsAreLost | crates/service/src/api.rs:183-187 | two explicit runs from an empty database, without crash or shutdown, that end in such states: one in which the handler dies, one in which the cancellation comes when `execute` has returned |
| DaemonTheorems.NextCancellationSignals | crates/service/src/api.rs:174-196 | while the attempt listens, the next cancellation that is seen through makes the channel true |
| DaemonTheorems.TaskLeavesItsVerdict | crates/service/src/scheduler.rs:149-189 | an attempt task that recorded an end recorded the verdict on all its events, or an unknown fate if its own store calls failed, and so the tables show it for ever after |
| DaemonTheorems.TaskRecordsItsEvents | crates/service/src/scheduler.rs:370-559 | store errors of its own aside, a task that runs to its end among all other actors leaves exactly the verdict on its events, and the row for ever shows the state, code and text of their first ending, or that the runner was lost if there is none |
| DaemonTheorems.TaskStepsAreLogged | crates/service/src/scheduler.rs:391-451 | each step of a task on a report logs it with its type and the text of a delta, the start of the runtime after it was marked |
| DaemonTheorems.EventsWereSpawned | crates/service/src/scheduler.rs:149-181 | among all other actors a task keeps the submission and the events it was spawned with |
| DaemonTheorems.DispatchesAreDue | crates/service/src/scheduler.rs:68-97 | no submission goes on to its claim before its start time, after its deadline, or on a source that is not open or not in the pool of one of its local routes |
| DaemonTheorems.PassesServeInOrder | crates/service/src/scheduler.rs:65-68 | a pass is over exactly the queued submissions, each once, in the order in which they are to be served |
| DaemonTheorems.ShutdownCancelsAll | crates/service/src/scheduler.rs:204-206 | a shutdown makes the channel of every attempt that still listens true |
| DaemonTheorems.ClaimedAttemptEndsConservatively | crates/service/src/scheduler.rs:283-559 | a claimed attempt from its runtime to the tables, among all other actors: submission and attempt end for ever as the runtime's own first ending, passed on by two processes that exited well, or as uncertain; as completed only on a successful answer, with a text that accounts for what the agent said |
| DaemonLifecycle.SchedulerStopsOnlyWhen | crates/service/src/scheduler.rs:47-107 | in any run the scheduler stops exactly on a shutdown between passes or on the expiry of a submission that left the queue after it was read, which drops its attempts; no other error path is reachable |
| DaemonLifecycle.CancellationCanStopTheScheduler | crates/service/src/scheduler.rs:68-74 | that race is real: a cancellation between the reading and the expiry stops the scheduler |
| DaemonRace.TheRaceIsReachable | crates/service/src/scheduler.rs:68-74 | an explicit run from an empty database, without crash or shutdown, in which the scheduler stops |
| DaemonLifecycle.StartupPreserves | crates/service/src/scheduler.rs:33-44 | during startup no step of anybody, API calls included, changes an attempt except to uncertain, or a workspace lock |
| DaemonLifecycle.CrashRecovery | crates/service/src/scheduler.rs:33-44 | after a crash in any state, any number of further crashes during startup and any API traffic, once recovery is through no attempt is active, all that were are uncertain, held slots and locks are those before the crash, and every queued row has its snapshots |
| DaemonReplies.IdempotentAcceptIsLinearizable | crates/service/src/api.rs:65-112 | all successful replies to one client and key name one submission with one digest, profile and policy; another digest is always refused; exactly one reply about a new submission is not a replay, and none if the handler that created it died before it replied |
| Delivery.EventStream.Deliver | crates/service/src/api.rs:223-229 | yields a batch, skipping what is not newer than the cursor |
| Delivery.DeliveredRises | crates/service/src/api.rs:223-229 | whatever a batch holds, only newer entries are yielded, in rising order, and none that is newer is held back |
| Delivery.EventStream.Open | crates/service/src/api.rs:207-229 | the initial read decides whether the stream opens and is yielded at once |
| Delivery.EventStream.Receive | crates/service/src/api.rs:230-273 | one turn of the loop: ignore, yield the next envelope, or read the log again on a gap or a lag; it breaks off, with nothing yielded, exactly if that reading fails |
| Delivery.CatchesUp | crates/service/src/api.rs:237-250 | reading the log again always reaches its end without repeating or skipping an entry |
| Delivery.StreamAgreesWithLog | crates/service/src/api.rs:216-274 | for any commits, broadcasts in any order or never, lag and reconnections a stream has yielded exactly the log after its cursor, and has reached its end once the receiver is drained and the newest entry was broadcast |
| Delivery.DaemonStepsAreCommits | crates/service/src/store.rs:1070-1109 | every step of the daemon extends a log by a legal suffix, as the stream results assume |
| Watch.Watcher.Consume | sdk/typescript/src/client.ts:213-230 | one connection: yields newer events only and returns on the terminal one if asked to |
| Watch.TakenRises | sdk/typescript/src/client.ts:213-230 | whatever a connection brings, entries are yielded in rising order, all of them until the return, and the return comes at the first ending if asked for and otherwise never |
| Watch.EndToEndResume | sdk/typescript/src/client.ts:196-244 | over any number of disconnections `watch` yields afterSequence + 1, + 2, … each once; with `untilTerminal` it returns only on the last entry of a finished log, and once everything is quiet and the newest entry was broadcast it has returned exactly if the log is finished and did not end before the given cursor |
| Watch.LostEndKeepsTheClientWaiting | crates/service/src/api.rs:230-273 | when the last entries of a finished log were committed and not broadcast, a watching client does not return, whatever happens, until a broadcast of one of them, a lag or a new connection |
| Watch.AClientIsLeftWaiting | crates/service/src/api.rs:230-273 | an explicit run that ends in such a state: a cancellation is committed while a client watches, and is not broadcast |
| Watch.ReconnectingFinishes | sdk/typescript/src/client.ts:196-244 | whatever was lost, a new connection on which everything is fetched makes the waiting client return |
| Watch.FetchesTake | sdk/typescript/src/client.ts:214-226 | taking entries one by one off a connection is consuming that many of its entries |
| Resume.BrokenConnectionIsSomeFetches | sdk/typescript/src/client.ts:211-237 | a connection that breaks after any number of bytes leaves the client where some number of whole entries would have left it, so the results on `watch` cover it |
| Sse.Parser.ConsumeLine | sdk/typescript/src/client.ts:502-544 | one line: dispatch, comment, size limit, field |
| Sse.Parser.Feed | sdk/typescript/src/client.ts:546-575 | one chunk leaves the parser as if its text had been read character by character, plus the length check at the end |
| Sse.Parser.End | sdk/typescript/src/client.ts:576-583 | the end of the stream completes the last line and dispatches what is pending |
| SseLaws.EndsActAsLineFeeds | sdk/typescript/src/client.ts:576-583 | the end of the stream does what two line feeds would do |
| Sse.ChunkingDoesNotMatter | sdk/typescript/src/client.ts:546-575 | when no line exceeds the limit the messages depend on the concatenated text alone |
| Sse.ChunkingCannotMatterIff | sdk/typescript/src/client.ts:570-574 | chunking cannot matter if and only if no cut before the first oversized event leaves a line beyond the limit |
| Sse.LongCommentDependsOnChunks | sdk/typescript/src/client.ts:521-523 | a comment longer than the limit passes in one chunk and fails when it is cut |
| Sse.ParsingUndoesPrinting | sdk/typescript/src/client.ts:490-584 | any printout of events and comments, with LF or CRLF line by line and cut anywhere, parses to exactly the printed events |
| Sse.BrokenStreamYieldsAPrefix | sdk/typescript/src/client.ts:546-575 | a printout cut after any number of bytes, in any chunks, has yielded a prefix of its events and no failure |
| Sse.UnfinishedEventIsDispatched | sdk/typescript/src/client.ts:576-583 | a printout whose last blank line is missing parses to the same events |
| SseLaws.OversizedEventsFailIff | sdk/typescript/src/client.ts:524-529 | an event is refused exactly when its lines, comments not counted, together exceed the limit |
| SseLaws.Fields | sdk/typescript/src/client.ts:530-543 | what a field line does: one leading space of the value is dropped, data accumulates, the last event and id count, an id with a NUL and unknown fields are ignored |
| SseLaws.SplitJoin | sdk/typescript/src/client.ts:510-520 | joining loses nothing: the lines of the joined data are the data lines |
| Wire.ClientReceivesWhatWasYielded | crates/service/src/api.rs:749-755 | what `event_to_sse` prints comes back from the parser entry by entry: the id of each message, read as a decimal number, is the sequence, its event is the published type, and it passes every check of `parseEvent` |
| Wire.DecimalIsInjective | crates/service/src/api.rs:752 | distinct sequences print distinct ids, because the printed digits read back as the sequence, without a leading zero |
| Wire.ParseEventChecks | sdk/typescript/src/client.ts:586-625 | the checks of `parseEvent` in their order, on the number the id stands for and the name of the type |
| Wire.BrokenConnectionDeliversAPrefix | sdk/typescript/src/client.ts:586-625 | what was parsed before a break decodes to a prefix of the entries that were yielded |
| Output.BoundaryIsPrefix | crates/service/src/scheduler.rs:574-577 | a byte position is a character boundary exactly if some prefix of the text is that long |
| Output.EncodingIsStandard | crates/service/src/scheduler.rs:570-579 | the bytes whose lengths are compared are those of UTF-8: the shortest form of each character, which reads back as it |
| Output.CutIsLongestPrefix | crates/service/src/scheduler.rs:570-579 | cutting keeps exactly the longest prefix that fits |
| Output.TruncateOutput | crates/service/src/scheduler.rs:570-579 | the search for a boundary returns that longest prefix, and the flag says whether anything was lost |
| Output.TruncateToBytes | crates/runtime-sandbox-agent/src/lib.rs:620-629 | the same for the capture |
| Output.Capture.Inbound | crates/runtime-sandbox-agent/src/lib.rs:604-612 | keeps what fits of a message and reports exactly that, or nothing if nothing fits |
| Output.CaptureBeginsWithCut | crates/runtime-sandbox-agent/src/lib.rs:604-612 | the capture is the whole output while that fits, and always begins with the longest prefix that fits |
| Output.CaptureIsPrefixIff | crates/runtime-sandbox-agent/src/lib.rs:604-612 | the capture is a prefix of the real output if and only if, once something was lost, no later message begins with a character that would still fit |
| Output.CaptureNeedNotBeAPrefix | crates/runtime-sandbox-agent/src/lib.rs:1116-1125 | an example in which it is not |
| Output.SlackOfFourIsEnough | crates/service/src/scheduler.rs:357-361 | capturing with four bytes of slack and truncating afterwards gives the text and the flag of truncating the whole output |
| Output.FourIsTheLeastSlack | crates/service/src/scheduler.rs:357-361 | a slack works for all outputs and limits if and only if it is at least four |
| Runtime.HandleInbound | crates/runtime-sandbox-agent/src/lib.rs:595-618 | what one message of the agent adds to the output and to the events, and when its handling fails, whichever of update, permission request and question it is; without room in the event channel before a deadline the text is kept and its report is not sent |
| Runtime.WaitForPromptResponse | crates/runtime-sandbox-agent/src/lib.rs:710-747 | handles messages until the answer, a failure or the deadline, which may strike while a report waits for room |
| Runtime.DrivePrompt | crates/runtime-sandbox-agent/src/lib.rs:371-570 | the events and the completion of any sequence of branches the loop takes |
| Runtime.Run | crates/runtime-sandbox-agent/src/lib.rs:209-283 | launch, preparation, prompt and process exit around it: nothing emitted when the launch fails, and a second terminal event after the completion when the process exits then |
| Runtime.VerdictsAreConservative | crates/runtime-sandbox-agent/src/lib.rs:403-570 | completed only on a successful answer; cancelled or timed out only if the agent was told to stop and answered |
| Runtime.FailuresHaveCauses | crates/runtime-sandbox-agent/src/lib.rs:403-570 | a prompt fails only if the agent answered without success, asked a question or confirmed a deadline, and is of unknown fate only after a lost stream, a cancellation or a deadline, each under its own code |
| Runtime.StreamLossDecides | crates/runtime-sandbox-agent/src/lib.rs:500-518 | a stream lost first gives `runtime_stream_lost`, uncertain |
| Runtime.QuestionDecides | crates/runtime-sandbox-agent/src/lib.rs:491-498 | a question seen first gives `interaction_required`, failed, unless the reply to a permission request in it fails |
| Runtime.ErrorsDecide | crates/runtime-sandbox-agent/src/lib.rs:477-546 | a failed prompt request, an answer that is none, or a permission reply that fails, ends the drive without a verdict, after the report of the message; the reply is not attempted after a delta of which nothing was kept |
| Runtime.OthersLeadOn | crates/runtime-sandbox-agent/src/lib.rs:403-546 | every other branch only adds its report and its text and goes on |
| Runtime.PostAnswerDecides | crates/runtime-sandbox-agent/src/lib.rs:519-546 | the answer of the request decides, unless the stream brings one in time, which then does |
| Runtime.ExitsAreReported | crates/runtime-sandbox-agent/src/lib.rs:225-257 | an exit of the agent server cuts the events off and adds that the fate is uncertain |
| Runtime.CancellationDecides | crates/runtime-sandbox-agent/src/lib.rs:404-428 | a cancellation seen first gives cancelled if it was delivered and confirmed and uncertain if not |
| Runtime.DeadlineDecides | crates/runtime-sandbox-agent/src/lib.rs:430-475 | a deadline seen first gives a timeout if the agent confirmed that it stopped and uncertain if not |
| Runtime.DeltasAddUpIff | crates/runtime-sandbox-agent/src/lib.rs:595-618 | the message deltas reported on the way and the one report that found no room in time add up to the output of the completion; so the reported ones alone do if and only if that report carried no text |
| Runtime.AKeptTextCanGoUnreported | crates/runtime-sandbox-agent/src/lib.rs:719-746 | an example of such a loss: the output is `x` and no delta was reported |
| Runtime.CompletionCaptures | crates/runtime-sandbox-agent/src/lib.rs:371-570 | the output of a completion is the capture of everything that was read from the agent and handled before its answer |
| AttemptPipeline.Work | crates/runner/src/lib.rs:253-319 | the lines and the exit status of the worker for any sequence of branches |
| AttemptPipeline.Supervise | crates/runner/src/lib.rs:217-246 | the lines and the exit status of the supervisor for any sequence of branches |
| AttemptPipeline.Execute | crates/runner/src/lib.rs:72-147 | the events `execute` sends for any sequence of branches |
| AttemptPipeline.WorkerForwardsTheFirst | crates/runner/src/lib.rs:282-317 | a worker forwards the runtime's first terminal report or none, and exits successfully only if it did |
| AttemptPipeline.ExecuteWithholds | crates/runner/src/lib.rs:100-146 | `execute` sends at most one terminal event, as its last: the one it read from a runner that exited well, or that the runner was lost |
| AttemptPipeline.EventsArriveInOrder | crates/runner/src/lib.rs:100-146 | through worker, supervisor and `execute` the service receives a beginning of the runtime's events, none lost, repeated, changed or reordered, perhaps followed by the report that the runner was lost |
| AttemptPipeline.RunAttempt | crates/service/src/scheduler.rs:370-559 | calls `finish` exactly once: the row then shows the state, the code and the text of the first ending, or that the runner was lost; every report before it is in the log, once, in order, with its type and the text of a delta; a store call that fails leaves the attempt alive with what came before it logged |
| AttemptPipeline.TablesShowIff | crates/service/src/scheduler.rs:452-556 | the row is Completed, Cancelled, or Failed or Uncertain with a code, exactly if the first ending is that, and Uncertain as `runner_lost` of the service exactly if there is none |
| AttemptPipeline.RunTask | crates/service/src/scheduler.rs:149-181 | an attempt that cannot begin, or whose store calls failed, is finished once more from outside, as uncertain; if that fails too it stays alive, and otherwise it is finished exactly once in all |
| AttemptPipeline.OutcomeIsConservative | crates/runner/src/lib.rs:100-146 | whatever fails, the recorded outcome is the runtime's first terminal report passed on by a worker and a supervisor that both exited successfully, or uncertain |
| AttemptPipeline.UndisturbedAttemptRecordsItsEnding | crates/runner/src/lib.rs:117-136 | when nothing is disturbed all the runtime's events up to its first ending arrive, and that ending is what is recorded |
| AttemptPipeline.CompletedOutputIsWhatTheAgentSaidIff | crates/runtime-sandbox-agent/src/lib.rs:527-545 | a completed record rests on a successful answer, and its output and flag are those of everything heard before it, cut once to the limit; they are those of everything the agent said before it if the answer came on the stream, and otherwise if and only if the wait for the stream missed no text or what was heard exceeds the limit anyway |
| AttemptPipeline.WhatTheAgentSaidCanBeLost | crates/runtime-sandbox-agent/src/lib.rs:527-545 | an example in which it is not: the reply to a permission request fails after the prompt request was answered, and the text that follows is dropped with the flag unset |

## Left out

- HTTP, Unix sockets, SQL text, JSON decoding, and SQLite failures other than those of the calls an attempt makes: rows are records, and a transaction either commits or reports one of the store's own errors.
- `updated_at`, `event_id`, `occurred_at`, and the route, adapter, model, target, profile and runtime columns of an attempt: written once, never read by the modelled code.
- The RFC 3339 text of timestamps: times are integers, in nanoseconds where their unit matters, and the order by creation time is the order of instants.
- Signed 64-bit overflow of revisions and sequences: both are unbounded; only the cursor of `events_after` is checked against the column type.
- `record_capacity` and the capacity table: written for display, never read back.
- `status`, `list_statuses`, `request`, pagination, problem responses and the catalogue endpoints: single reads without a property of their own.
- `Config::validate`, `validate_request` and the priority bound of patches beyond three facts: the reserve does not exceed the limit, both fit 32 bits, and the deadline comes after the start time.
- The cancellation registry, the cancel channels and the attempts in flight are values of the daemon machine, not objects; the lock order inside the process is not modelled.
- Daemon.Step: a blocked submission may be given any blocker code there, and any open source of its pools may be chosen; which code and which source is the subject of `Scheduler.Pass`, where nothing interleaves.
- Scheduler.Pass: `effective_priority` reads the clock at every comparison and each submission reads it again; a pass here has one reading.
- DaemonTheorems.ClaimedAttemptEndsConservatively: the store calls of the attempt itself do not fail there; what a failed one leaves is the subject of `DaemonTheorems.TaskLeavesItsVerdict`.
- DaemonTheorems.NoLostCancellation: speaks of the value in the channel; that the attempt then stops in time is a matter of liveness.
- Store.Store.PatchScheduling: replies with the row as committed; the service reads the status again afterwards, which may already show a later step.
- Liveness and fairness in general, wall-clock promises, and the notification that wakes the scheduler.
- Sse.Parser.Feed: text is taken as bytes, so the replacement characters `StringDecoder` makes of malformed UTF-8, whose lengths can differ from the bytes they replace, are not modelled.
- Wire.ClientReceivesWhatWasYielded: the JSON serialiser and parser are parameters with a round trip between them; the `{}` a failed serialisation would send is not modelled.
- Wire.BrokenConnectionDeliversAPrefix: rests on the same round trip between the two parameters.
- Watch.EndToEndResume: abort signals, HTTP errors, the reconnect delay, `reconnect: false`, and the SDK's `run`, which only sequences submit, status, watch and result. A response that ends cleanly inside an entry is not modelled either: the server ends its stream between entries, and a lost connection is an error to the client.
- Output.SlackOfFourIsEnough: the saturation of the limit plus four at the top of the address space, which no text in memory can reach.
- Runtime.DrivePrompt: which error text goes with a code is left out, and the event channel is taken to stay open while the prompt is driven. What the agent sends while its stream reconnects is taken to arrive or to be among what came late.
- AttemptPipeline.RunAttempt: runs alone with the store; the same consumption of events among all other actors is `DaemonTheorems.TaskRecordsItsEvents`. The payloads of agent events other than message deltas are left out.
- A store call that fails leaves the tables alone; a commit that fails after it took effect is not modelled.
- AttemptPipeline.Execute: a script that ends early stands for an error of `execute`; a failed start of the runner is such a script with no events.
- Sandbox construction, bubblewrap arguments, credential mounts, digest verification, process signals and binary download.
- Fair share, retries, sessions, goals, extensions and remote runners: described in the documents but absent from the code.
