# Verified model of the Potemkin runtime

This project models the in-memory event-sourced runtime of Potemkin, the engine that simulates an
API from a compiled program of boundaries, behaviors, reducers, reactions, sagas and projections,
and proves properties of it. It also models six smaller algorithms of the same repository: response
masking, the two include mergers, the transition path search, the cursor walk over collections, the
router's template order and the conformance allowlist.

`dafny verify dfyconfig.toml` checks everything.

## How it is built

The engine has two descriptions that are proved equal.

* **What it computes**, as functions on values: one command's transaction (`Transactions`,
  `Cascade`), projections (`Projections`), and the whole engine between and during requests
  (`Runtime`, over a `World` of log, state graph, ownership index, projections, idempotency entries,
  fingerprints, clock and open batch).
* **How it computes it**, as objects whose fields change in place (`Stores`, `Engine`): event, state
  and idempotency stores, a `Transaction` that commands fill by appending events and overwriting
  states, and a `RuntimeEngine` with the source's fields, queues, loops and early exits. Each method's
  postcondition equates the new state and the result with the corresponding function of the old
  state, errors included.

The theorems are then about the functions, and so about every run of the object: graph, versions and
index (`TransactionInvariants`, `GraphInvariant`, `Lifecycle`), time travel (`EventSourcing`,
`Reduction`, `Lifecycle`), cascade and reaction bounds (`Cascade`, `TransactionInvariants`), batches
(`Batches`), idempotency (`Idempotency`), conditional updates (`ConditionalUpdates`), projections
(`Projections`, `ProjectionRuns`) and sagas (`SagaChain`, `Sagas`, `SagaLogs`).

A request holds the `__runtime_batch__` barrier from start to end, so the engine's methods are
sequential. `Locks` proves what that rests on: the promise-chain lock as interleaved steps of any
number of callers.

Everything an author writes as a callback (reducers, formulas, guards, resolvers, validators,
projection keys, hooks) is an arbitrary deterministic function that may fail, of what the engine
hands it: commit and post-commit hooks, webhooks and sagas see the request, the target's state at the
moment they run, the events and the response; projection callbacks see such a commit, or the history
they are run for, and the current row. Identifiers and timestamps come from an arbitrary supply, so no
theorem depends on which ones are drawn. `Examples` holds a small program for the concrete inputs on
which something fails.

The two include mergers are two programs here as there: `Includes` holds the reference merge and the
TypeScript merger, `YamlIncludes` the YAML linker's, with accumulators and loops of its own.

## What was found to hold only under a condition

* Replacing, restoring or rolling back rebuilds the ownership index from the log. A restored
  checkpoint has the index it was taken with exactly when every saga instance in the log already had
  an entry; commits never give it one (`RestoreIndexExact`, `RestoreIndexesSagaInstances`).
* Seeds all take version 1: the seeded log has exact versions exactly when no two seeds share an id
  (`FirstVersionsExact`).
* A read at a version is unaffected by later events exactly when the aggregate had reached that
  version or received no further event (`HistoryStability`).
* A transactional batch whose post-commit work starts no saga, and so logs nothing more, runs as its
  items one by one exactly when that work comes to the same once all items ran as it does item by
  item: neither throws where the other does not, and projections come out alike
  (`BatchIsSequentialExactly`). That always holds when no callback looks at the target's live state
  (`SuccessfulBatchIsSequential`). A hook that does look can let a batch succeed whose items fail one
  by one (`BatchHidesOverdraft`).
* At most one commit per idempotency key and lifetime needs the first commit to leave an entry.
  If it starts no saga it leaves one that answers the same request at once exactly when none of its
  post-commit callbacks threw, it was not an event replay with a non-success status, and the request's
  own clock is less than a lifetime ahead (`AnsweredAgainExactly`; with sagas, `StoredExactly` says
  what is stored). Otherwise the key is free, and a second commit under it does happen
  (`SameKeyCommitsTwice`). A transactional batch whose deferred post-commit work throws is rolled back
  after its entries were written (`RolledBackBatchKeepsKeys`).
* Projections built commit by commit equal a rebuild exactly when no projection's callbacks let what
  they are run for (a commit or a history) show in the rows (`IncrementalIsRebuildExactly`,
  `LookingBreaksRebuild`). A post-commit hook that throws keeps its own commit from the projections:
  they stay current exactly when its events would not have changed them (`ThrowingHookStalls`).
* A saga that fails ends without its `SagaFailed` event exactly when one of its completed steps has a
  compensation whose target or payload resolver throws, which is known before the first compensation
  runs (`SagaFollowsGrammar`, `CompensateMarks`); `BrokenSagaIsCutShort` is such a saga.
* Steps inherit the trigger's expected version and idempotency header (`Runtime.InternalRequest`). A
  step that repeats the trigger's boundary and operation therefore has the trigger's key: outside a
  batch the source makes it wait forever for the key's lock, which its trigger holds
  (src/core/engine.ts:736-741, `ReentryBlocksForever`); in post-commit work deferred by a batch it is
  answered from the cache.
* The lock is not re-entrant: a caller waiting for a key it holds waits forever
  (`ReentryBlocksForever`).
* Compiled mask patches apply exactly when no masked field's value holds another field still to be
  masked (`PatchingIsMasking`). The pointer parser trims, so a joined pointer parses back exactly when
  its last segment does not end in white space (`ParseOfJoin`).
* A page size of zero says there is more and gives no cursor (`EmptyPagesStop`).
* A cursor walk over rows with string ids that ends returns each row once, in order, exactly when the
  last row of every page before the final one is the first row with its id; otherwise it repeats rows
  (`WalkIsExactly`), and it need not end (`SharedIdsLoop`).
* Of two templates for one path, the one with more literal segments is tried first, and always chosen
  over the other, exactly when its static prefix is at least as long
  (`MoreLiteralSegmentsWinExactly`, `MoreLiteralSegmentsShadowExactly`): the order counts characters
  first (`FewerLongerLiteralsWin`). A superset of literal positions always meets that
  (`MoreLiteralWins`).
* Greedy allowlist matching is multiset difference for every list of failures exactly when no entry id
  repeats (`DifferenceExactly`); entries that share one are consumed together (`SharedIdsAllowOne`).

## Model

| member | source | states |
|---|---|---|
| EventSourcing.CurrentVersionIsCount | src/core/storage.ts:30-36 | the store's highest version of an aggregate is the number of its events, on a log with exact versions |
| EventSourcing.NextVersionContinues | src/domain/eventSourcing.ts:14-26 | the version given to an aggregate's next event is one more than its events in the log and the transaction together |
| EventSourcing.VersionsCountUp | src/domain/eventSourcing.ts:14-26 | the k-th event of an aggregate carries version k |
| EventSourcing.HistoryIsPrefix | src/domain/eventSourcing.ts:29-55 | the history through v is the aggregate's first v events, and no malformed or duplicate version is ever reported |
| EventSourcing.HistoryStability | src/domain/eventSourcing.ts:29-55 | a history through v is unchanged by later events if and only if v had been reached or the aggregate got none |
| EventSourcing.EventsThroughVersion | src/domain/eventSourcing.ts:29-55 | the filter, stable sort and index scan compute that history or its error |
| Reduction.FoldAppend | src/core/engine.ts:2252-2306 | folding a log in two parts is folding it at once, failures included |
| Reduction.FoldBlind | src/core/engine.ts:1881-1884 | adding the response at commit changes no state when no reducer or formula reads it |
| Reduction.FoldIsLocal | src/core/engine.ts:2252-2306 | an aggregate's state depends on its own events only: the whole log and its own events fold to the same state |
| Reduction.ReadIsPrefixFold | src/core/engine.ts:1337-1380 | reading at version v folds exactly the aggregate's first v events and never fails |
| Reduction.TimeTravel | src/core/engine.ts:1337-1380 | reading at the version an aggregate had at an earlier moment returns its state at that moment |
| Reduction.ReadsAreStable | src/core/engine.ts:1337-1380 | a read at any version an earlier moment had reached returns what it returned at that moment |
| Reduction.ReadAtOrAboveCurrentIsLive | src/core/engine.ts:1337-1380 | reading at or above the current version returns the live state |
| Transactions.FireReaction | src/core/engine.ts:2322-2418 | a reaction that fires spends exactly one unit of budget; one that does not leaves the transaction alone |
| Transactions.React | src/core/engine.ts:2308-2420 | recursive reactions terminate and never give budget back |
| Transactions.DispatchAll | src/core/engine.ts:2032-2078 | a behavior dispatches at most its declared commands, each one level deeper |
| Cascade.HandlingLowersCost | src/core/engine.ts:1932-2078 | replacing the first queue item by what it dispatched strictly lowers the queue's cost |
| Cascade.CascadeBound | src/core/engine.ts:1920-1941 | a cascade, whether it ends well, throws or exceeds the depth, begins at most 1 + B + ... + B^(limit - depth) commands, B the widest behavior; beyond the limit it begins none and is refused |
| TransactionInvariants.ReactSound | src/core/engine.ts:2308-2420 | through recursive reactions, states stay the fold of the events, versions stay exact, one key per reaction fired, within the budget of 1000 |
| TransactionInvariants.QueueSound | src/core/engine.ts:1920-2122 | every queue item keeps the same, and events are the directly emitted ones plus the reactions |
| TransactionInvariants.TransactionSound | src/core/engine.ts:1868-1877 | a whole transaction's events fold to its states, continue the log's versions, and respect the reaction budget |
| Projections.IncrementalIsRebuild | src/core/engine.ts:2448-2522 | projecting commit by commit, each in view of its own commit, equals one pass over all events, failing events skipped alike, if no projection's rows depend on what it is run for |
| Projections.IncrementalIsRebuildExactly | src/core/engine.ts:2448-2522 | and only then: agreement for all events, commits and histories is that condition |
| Projections.LookingBreaksRebuild | src/core/engine.ts:2458-2474 | a projection whose key tells a commit from a reload is rebuilt differently from the first event on |
| GraphInvariant.ClaimAllAt | src/core/engine.ts:958-960 | the index names the boundary of an aggregate's first event, unless it was already named |
| GraphInvariant.CommitKeeps | src/core/engine.ts:1886-1895 | committing a sound transaction keeps state equal to the fold of the log, versions exact and the index right |
| GraphInvariant.ExecutePlainKeeps | src/core/engine.ts:579-775 | a request without sagas keeps the graph invariant and only adds to the log |
| GraphInvariant.ExecuteKeeps | src/core/engine.ts:365-376 | any request keeps them, sagas and compensations included, whether it commits, fails or replays |
| GraphInvariant.RunPostsKeeps | src/core/engine.ts:466-470 | so does any sequence of deferred post-commit work |
| Lifecycle.FirstVersionsExact | src/core/engine.ts:973-990 | the seeded log has exact versions if and only if no two seeds share an id |
| Lifecycle.InitializeQuiet | src/core/engine.ts:964-1055 | initialization establishes the invariant or leaves the engine not ready |
| Lifecycle.RestoreIndexExact | src/core/engine.ts:944-962 | restoring a checkpoint gives back the same index if and only if every saga instance already had its entry |
| Lifecycle.RestoreIndexesSagaInstances | src/core/engine.ts:944-962 | once a saga has started, a rollback adds its instance to the index |
| Lifecycle.ExecuteBatchQuiet | src/core/engine.ts:430-487 | a batch, transactional or not, keeps the invariant however it ends |
| Lifecycle.ReplacementIsAtomic | src/core/engine.ts:841-922 | replacement never changes the log, and installs the fold of the log under the new program if and only if every event is recognized and still applies and validation passes; otherwise program, states and projections are as before |
| Lifecycle.EveryRunStaysConsistent | src/core/engine.ts:365-1055 | in every state any sequence of requests, batches, resets, replacements, restores and waits reaches, state is the fold of the log, versions are exact, the index is right |
| Lifecycle.AggregateIsItsHistory | src/core/engine.ts:2252-2306 | in such a state each aggregate is the fold of its own events, its version is their number, its owner the first one's boundary |
| Lifecycle.PastStatesStayReadable | src/core/engine.ts:1337-1380 | a later moment of a run still reads every earlier state of an aggregate at its earlier version, reads every lower version as it was read then, and its present state at or above the current one |
| Batches.FailedBatchLeavesNothing | src/core/engine.ts:474-480 | if any item throws, log, states, projections and entries equal the checkpoint and the index is the log's |
| Batches.ItemOutside | src/core/engine.ts:1896-1901 | a batch item writes no projection, idempotency entry or post-commit effect outside the batch |
| Batches.StagesAgree | src/core/engine.ts:3215-3263 | an item in a batch sees the same idempotency answers as the same request outside it |
| Batches.IdleFollowUp | src/core/engine.ts:2422-2446 | post-commit work that starts no saga succeeds if and only if none of its callbacks throws, and then moves the projections only |
| Batches.BatchIsSequentialExactly | src/core/engine.ts:455-473 | a batch whose post-commit work logs nothing more succeeds, with the same results and state, exactly as its items one by one, if and only if that work comes to the same at the end of the batch as in turn |
| Batches.SuccessfulBatchIsSequential | src/core/engine.ts:455-473 | so it always does when no callback looks at the target's live state |
| LateHooks.BatchHidesOverdraft | src/core/engine.ts:466-470 | two requests that fail one by one, because a post-commit hook sees a negative balance, and succeed as a batch, whose hooks run after both |
| Idempotency.LiveKeyChangesNothing | src/core/engine.ts:697-709 | a request whose key is answered, by the open batch or by a live entry, leaves the whole engine as it was and commits nothing; once admitted it gets that answer, uncommitted, or a conflict |
| Idempotency.CommitPromises | src/core/engine.ts:758-769 | a commit under a key, in or out of a batch, leaves its own result to answer the key for one whole lifetime, unless it is an unsuccessful replay |
| Idempotency.BatchKeepsPromise | src/core/engine.ts:3215-3242 | a batch, transactional or not and however it ends, keeps the answers promised before it |
| Idempotency.AtMostOnce | src/core/engine.ts:697-771 | over any run of requests, batches in both modes, restores and waits, once a request committed under a key, a later one under it, in the same batch or later, changes anything, even if it then throws, only at or past the end of the first one's lifetime |
| Idempotency.LaterRequestsReadTheFirst | src/core/engine.ts:697-771 | as long as no request of the run observes that end, every later request under the key changes nothing and is answered with the first commit's own result, uncommitted, or refused |
| Idempotency.StoredExactly | src/core/engine.ts:711-771 | what a request that gets to its commit stores: its result if its post-commit work succeeds and it is not an unsuccessful replay, otherwise nothing |
| Idempotency.AnsweredAgainExactly | src/core/engine.ts:711-771 | if the commit starts no saga, asking again at once is answered from it if and only if no post-commit callback throws, it is not an unsuccessful replay and the request's clock is less than a lifetime ahead |
| Idempotency.UnsuccessfulReplayForgets | src/core/engine.ts:711-728 | a replay answered with a non-success commits and stores no entry of its own, sagas or not |
| Idempotency.FailedPostCommitForgets | src/core/engine.ts:1896-1901 | a commit whose post-commit work throws, sagas included, stays logged, reports the error and stores no entry of its own |
| Idempotency.SameKeyCommitsTwice | src/core/engine.ts:711-728 | a program, started up, in which two identical requests under one key both commit at one moment: replays with a non-success status, or webhooks that throw |
| Idempotency.RolledBackBatchKeepsKeys | src/core/engine.ts:465-480 | a batch rolled back because its post-commit work threw keeps the idempotency entries it wrote |
| ConditionalUpdates.CommitsOnlyAtExpectedVersion | src/core/engine.ts:1838-1858 | a mutation that names an expected version gets to its commit, even if it then throws, only when the aggregate is at that version |
| ConditionalUpdates.RefusedElsewhere | src/core/engine.ts:1838-1858 | at any other version it commits nothing and the log stays as it is |
| ConditionalUpdates.SameExpectationCommitsOnce | src/core/engine.ts:1838-1858 | of two mutations expecting one version of an aggregate, the first of which commits an event on it, whether or not it then throws, the second commits and logs nothing |
| ProjectionRuns.RequestStaysCurrent | src/core/engine.ts:2422-2446 | an unbatched request that does not skip projections, and in which no post-commit hook throws for a commit it or its sagas make, leaves the projections (none looking at what it is run for) equal to a rebuild over the non-saga log |
| ProjectionRuns.RunsStayCurrent | src/core/engine.ts:2422-2522 | so does every run of such requests from start-up |
| ProjectionRuns.AnnouncedIsCurrent | src/core/engine.ts:2439-2442 | announcing a commit keeps the projections current if and only if its hook does not throw or its events would not have changed them |
| ProjectionRuns.ThrowingHookStalls | src/core/engine.ts:2439-2442 | a throwing hook leaves the projections as they were while the log has grown; they are stale exactly when the withheld events would have changed them |
| ProjectionRuns.RebuildsAreCurrent | src/core/engine.ts:880-910 | start-up, reset and replacement leave the projections equal to a rebuild |
| ProjectionRuns.SkippedProjectionsStand | src/core/engine.ts:2442-2442 | a request that skips projections leaves them as they were |
| SagaChain.SagasChain | src/core/engine.ts:2583-2770 | whatever relation saga events and the requests that inherit from the trigger keep, a whole run of sagas keeps |
| SagaChain.SagasChainWhere | src/core/engine.ts:2583-2770 | the same for a relation kept by only some requests, if the sagas execute only those |
| Sagas.SagaFollowsGrammar | src/core/engine.ts:2616-2765 | a saga's events are Started, StepCompleted 0, 1, ..., then Completed after all, or StepFailed, one outcome per completed compensable step in falling index, SagaFailed; that is cut short if and only if a step fails and a completed step's compensation does not resolve |
| Sagas.CompensateMarks | src/core/engine.ts:2695-2755 | compensating writes one outcome per compensable step from the last back to one that does not resolve, and throws if and only if there is such a step |
| Sagas.BrokenSagaIsCutShort | src/core/engine.ts:2695-2720 | a two-step saga that stops after StepFailed, its completed step never compensated |
| Sagas.SagaLogIsItsMarks | src/core/engine.ts:2773-2792 | the saga events a run appends to the log are exactly those, of its own instance: steps never start sagas |
| SagaLogs.EverySagaInTheLogIsGrammatical | src/core/engine.ts:2583-2792 | in every state of every run, failed requests, rolled back batches and restored snapshots included, the saga events of the log are whole grammatical sagas one after another |
| SagaLogs.InstanceIsOneRun | src/core/engine.ts:2773-2792 | where instance ids are fresh, an instance's events are exactly the marks of its one run |
| Sagas.CompensationsRestore | src/core/engine.ts:2695-2755 | compensations that undo their steps in turn bring the states back from the last completed step to the first |
| Sagas.FailedSagaRestoresStates | src/core/engine.ts:2622-2769 | a saga whose failing step threw before its own commit, and whose compensations, each where it runs, undo the completed steps, returns the state graph to its value before the saga |
| Stores.EventStore.CurrentSequenceVersion | src/core/storage.ts:30-36 | the loop computes the highest version of the aggregate |
| Stores.IdempotencyStore.Get | src/core/storage.ts:68-77 | an expired entry is never returned; it is dropped only by a read at the shared clock |
| Stores.IdempotencyStore.Set | src/core/storage.ts:78-83 | an entry lives at least one second from the shared clock |
| Engine.RuntimeEngine.constructor | src/core/engine.ts:310-323 | a new engine is the program initialized over empty stores, and consistent |
| Engine.RuntimeEngine.CreateEvent | src/core/engine.ts:2192-2250 | creates the event the specification names, or fails the same way |
| Engine.RuntimeEngine.ApplyEvent | src/core/engine.ts:2252-2306 | reducers, formulas, audit fields and validation in this order; the event joins the transaction and overwrites its aggregate's state |
| Engine.RuntimeEngine.FireReaction | src/core/engine.ts:2322-2418 | one reaction, its key and budget recorded before its payload is resolved |
| Engine.RuntimeEngine.EnqueueReactions | src/core/engine.ts:2308-2420 | the loop and recursion over matching reactions compute the specified transaction |
| Engine.RuntimeEngine.RunBehavior | src/core/engine.ts:2016-2120 | guards, emissions with their reactions, dispatches and response of one behavior |
| Engine.RuntimeEngine.HandleItem | src/core/engine.ts:1942-2122 | one queue item: presence checks, behavior or fallback |
| Engine.RuntimeEngine.RunCommands | src/core/engine.ts:1920-2122 | the work queue ends, leaves the specified transaction and first response, and begins exactly the commands that are counted |
| Engine.RuntimeEngine.Commit | src/core/engine.ts:1886-1895 | the loop over shadow states, the deletions and the append leave the shadow states live, the events logged, the index claimed by first event |
| Engine.RuntimeEngine.ExecuteMutation | src/core/engine.ts:1811-1909 | a mutation from its preconditions to its post-commit work |
| Engine.RuntimeEngine.ReplayEvent | src/core/engine.ts:1185-1335 | a logged event reissued under a new id, time and version |
| Engine.RuntimeEngine.ReadStateAtVersion | src/core/engine.ts:1337-1380 | replays the history through each event's owner |
| Engine.RuntimeEngine.RunProjections | src/core/engine.ts:2448-2522 | the two nested loops compute the specified projections |
| Engine.RuntimeEngine.RunPostCommit | src/core/engine.ts:2422-2446 | hook, projections, webhooks, sagas, stopping at the first error |
| Engine.RuntimeEngine.RunSteps | src/core/engine.ts:2623-2675 | the step loop, up to the first step that throws |
| Engine.RuntimeEngine.Compensate | src/core/engine.ts:2695-2755 | the loop over completed steps in reverse |
| Engine.RuntimeEngine.RunSagas | src/core/engine.ts:2583-2770 | every saga the commit triggers, in order |
| Engine.RuntimeEngine.CheckIdempotencyFingerprint | src/core/engine.ts:3244-3263 | a stale fingerprint is forgotten, a different one is a conflict |
| Engine.RuntimeEngine.StoreIdempotency | src/core/engine.ts:3222-3234 | an entry goes to the open batch, otherwise to the store |
| Engine.RuntimeEngine.RunMutation | src/core/engine.ts:730-775 | identity, the idempotency check repeated under the locks, the mutation, its entry |
| Engine.CheckedTwice | src/core/engine.ts:742-752 | repeating the check under the locks changes nothing |
| Engine.RuntimeEngine.ExecuteUnlocked | src/core/engine.ts:579-775 | a whole request does what the specification says, result and state |
| Engine.SwitchedOff | src/core/engine.ts:2442-2445 | with sagas switched off a request is its announcements only |
| Engine.RuntimeEngine.Execute | src/core/engine.ts:365-376 | a request under the barrier; a consistent engine stays consistent |
| Engine.RuntimeEngine.FlushBatchIdempotency | src/core/engine.ts:3236-3242 | the loop writes every pending key |
| Engine.RuntimeEngine.ExecuteBatch | src/core/engine.ts:430-487 | a batch's phases, its rollback and its results |
| Engine.RuntimeEngine.Restore | src/core/engine.ts:944-962 | stores, projections and index of the snapshot |
| Engine.RuntimeEngine.Initialize | src/core/engine.ts:964-1055 | seeds logged, states, index and projections derived |
| Engine.RuntimeEngine.Reset | src/core/engine.ts:785-802 | cleared and initialized again, or left cleared by a throwing hook |
| Engine.RuntimeEngine.ReplaceDiscardingEvents | src/core/engine.ts:818-840 | the new program over cleared stores |
| Engine.RuntimeEngine.ReplaceProgram | src/core/engine.ts:841-922 | the new program over the same log, or everything back |
| Locks.StepKeepsInvariant | src/core/engine.ts:3283-3296 | every step keeps chains, turn order, tails and bookkeeping right |
| Locks.OneHolderInArrivalOrder | src/core/engine.ts:3283-3296 | in every state of every run a key has at most one holder and is granted in arrival order |
| Locks.TailDeletionLosesNoWaiter | src/core/engine.ts:3292-3295 | when the tail's holder deletes the tail entry, no other ticket of the key is live |
| Locks.NeverStuck | src/core/engine.ts:3275-3296 | callers that acquire their keys in one common order can always take a step while one is unfinished |
| Locks.EveryRunFinishes | src/core/engine.ts:3275-3296 | every run takes at most three steps per key, and one that cannot go on has finished every caller and left no tail |
| Locks.AcquireManyRises | src/core/engine.ts:3275-3281 | acquireMany asks for exactly its keys, once each, in strictly rising order |
| Locks.ReentryBlocksForever | src/core/engine.ts:735-741 | a caller waiting for a key it holds can never step again |
| Sorting.SortSorts | src/core/engine.ts:3277-3277 | the stable sort returns a sorted permutation |
| Paging.SelectRows | src/core/engine.ts:1618-1681 | the staged filters, with entries trailing behind rows, equal one conjunctive filter |
| Paging.SortKeysSort | src/core/engine.ts:1677-1709 | with ordering columns the result is sorted by those keys and loses no row, whatever a boundary's own sort did first |
| Paging.CursorAdvances | src/core/engine.ts:1724-1741 | a cursor leads right behind its row if and only if that row is the first one it recognizes |
| Paging.WalkIsExactly | src/core/engine.ts:1710-1782 | a walk that ends has returned every row; each exactly once and in order, or just as many as there are, if and only if the last row of every page before the final one is the first row with its id |
| Paging.WalkReturnsEveryRow | src/core/engine.ts:1710-1782 | with distinct string ids and a page size of at least one, following nextCursor returns every row once, in order, in at most one page per row |
| Paging.WalkReturnsWantedRows | src/core/engine.ts:1618-1782 | the rows walked are the wanted rows, sorted |
| Paging.EmptyPagesStop | src/core/engine.ts:1764-1782 | a page says there is more without a cursor if and only if its size is zero |
| Paging.SharedIdsLoop | src/core/engine.ts:1728-1740 | two rows of one id between which a walk returns to the second forever |
| Pointers.UnescapeEscape | src/core/responsePolicies.ts:84-86 | unescaping undoes escaping for every segment |
| Pointers.SegmentsOfJoin | src/core/responsePolicies.ts:108-115 | splitting a joined pointer gives its segments back |
| Pointers.ParseOfJoin | src/model/patches.ts:169-182 | the pointer parser gives them back if and only if the last one does not end in white space |
| Masking.MaskValue | src/core/responsePolicies.ts:47-82 | the in-place visit computes the mask of every bare field at any depth |
| Masking.PatchingIsMasking | src/core/responsePolicies.ts:101-176 | applying the patches equals masking if no masked field hides another still to be masked, and fails otherwise |
| Masking.CompileMaskValuePatches | src/core/responsePolicies.ts:101-176 | the visit that pushes pointer texts compiles exactly those patches |
| Masking.MaskedIsClear | src/core/responsePolicies.ts:182-184 | after masking no masked field shows its value and nothing more would be patched |
| Masking.SegmentNamesItem | src/core/responsePolicies.ts:144-147 | an array index printed as a segment is read back as that index |
| Includes.MergeTypeScript | src/authoring/composition.ts:200-285 | the TypeScript merger computes the reference merge or refuses |
| Includes.Accumulator.Include | src/authoring/composition.ts:225-271 | the TypeScript fragment step succeeds exactly when the fragments so far stay mergeable with it |
| YamlIncludes.Gathering.MergeFragment | src/dsl/componentLinker.ts:367-434 | the YAML linker's loops over events, reducers and behaviors gather the fragment or refuse exactly a clash |
| YamlIncludes.Gathering.ComposeState | src/dsl/componentLinker.ts:611-638 | its two loops over state fields append them or refuse exactly a repeated name |
| YamlIncludes.MergeYamlHost | src/dsl/componentLinker.ts:463-671 | for one host it computes the same reference merge, or refuses |
| YamlIncludes.MergersAgree | src/dsl/componentLinker.ts:463-671 | the two mergers, each with its own fragment step, succeed together, with the same source |
| Includes.MergeStateFields | src/authoring/composition.ts:302-320 | fields are appended unless a name was declared before |
| YamlIncludes.Catalog.MergeIncludes | src/dsl/componentLinker.ts:463-671 | every boundary is replaced by its merge in the array and both indexes, or one cannot be merged |
| Includes.LocalWins | src/dsl/componentLinker.ts:367-434 | the result has the host's events and those included events whose type the host lacks, no type twice |
| Includes.OrderDoesNotMatter | src/dsl/componentLinker.ts:463-671 | reordering includes changes neither success nor, up to list order, the result |
| Includes.ComponentSource | src/authoring/composition.ts:156-171 | nested composition terminates because each level adds a name to the stack |
| Includes.StackOnlyDetectsCycles | src/authoring/composition.ts:156-171 | what composes under a stack composes the same under less of it |
| TransitionPaths.Search | src/cli/transition-examples.ts:256-283 | before the cut: exactly the repeat-free paths of at most five known transitions avoiding the excluded operation, shortest first, each once |
| TransitionPaths.FindPaths | src/cli/transition-examples.ts:256-283 | after the cut at 24, a wanted path left out is no shorter than any kept |
| TransitionPaths.ExtensionIsRepeatFree | src/cli/transition-examples.ts:273-279 | the loop's tests accept a transition if and only if the longer path repeats no state |
| Router.MatchRoute | src/contract/router.ts:122-152 | the loop returns the first matching template in order of specificity |
| Router.RouteIgnoresListing | src/contract/router.ts:113-120 | the order a document lists its paths in does not matter |
| Router.MoreLiteralSegmentsWinExactly | src/contract/router.ts:70-75 | of two templates for one path, the one with more literal segments is tried first if and only if its static prefix is no shorter |
| Router.MoreLiteralWins | src/contract/router.ts:70-75 | so the one literal wherever the other is and somewhere else is always tried first |
| Router.ShadowsExactly | src/contract/router.ts:101-155 | one template keeps another from ever being chosen for a path, whatever else is offered, if and only if it is tried before it |
| Router.MoreLiteralSegmentsShadowExactly | src/contract/router.ts:101-155 | the one with more literal segments does so if and only if its static prefix is no shorter |
| Router.LessLiteralLoses | src/contract/router.ts:101-155 | a template literal only where another one is, and in fewer places, is never chosen while the other is offered |
| Router.FewerLongerLiteralsWin | src/contract/router.ts:70-75 | two templates for which that condition fails |
| Allowlist.GreedyIsDifference | src/conformance/allowlist.ts:107-128 | with unique ids greedy matching is multiset intersection and difference |
| Allowlist.DifferenceExactly | src/conformance/allowlist.ts:107-128 | it is that for every list of failures if and only if no id repeats |
| Allowlist.CoveringOwnCasesNeedsUniqueIds | src/conformance/allowlist.ts:107-128 | an allowlist that allows all the failures it was written for has no repeated id |
| Allowlist.EvaluateAllowlist | src/conformance/allowlist.ts:107-128 | the loop computes that matching, its stale entries included |
| Allowlist.AllowlistIsUnique | src/conformance/allowlist.ts:150-159 | the uniqueness check passes if and only if no id repeats |
| Allowlist.SharedIdsAllowOne | src/conformance/allowlist.ts:112-126 | two entries sharing an id allow only one failure between them |

## Left out

- HTTP, Specmatic, file watching, the command line, the language servers and editors: input and output around the engine.
- OpenAPI loading and Ajv, the expression language, authentication, sessions, faults, latency, links and header decoration: folded into callbacks that admit, answer, refuse, present or list.
- Resolving a request before it is admitted (effective actor, operation id, normalized controls): a request arrives with these resolved.
- Webhook delivery, logs, metrics and observation: a webhook step only succeeds or fails.
- Identifier text: ids are compared as they are, without the trimming of branded references.
- The printed form behind idempotency fingerprints: a fingerprint is any function of the request.
- Event, state and idempotency stores that already hold data when the engine starts: the in-memory stores start empty.
- `reset` racing with requests: it takes no barrier, so it is a step between requests.
- The clone made at every store boundary: values are immutable.
- Transactions.Behave: inside one command the source shares an object. An event without reducers writes its computed and audit fields into the very state the command's context holds (src/core/engine.ts:2257-2291), so its later emissions and dispatches see them; here they see the state the command started from.
- Runtime.RunSteps: a step waiting for the key its own trigger holds, which never returns in the source, is executed here.
- Sagas.FailedSagaRestoresStates: says nothing of a failing step whose own post-commit work threw, since that step's commit stays.
- Batches.BatchIsSequentialExactly: excludes batches whose post-commit work starts a saga, because its steps then run after later items instead of before them, and requests under a key whose clock runs a whole lifetime ahead.
- Masking.CompileMaskValuePatches: masks that are JSON Pointers are not modelled, nor field names that JavaScript objects inherit, such as `constructor`.
- Masking.MaskValue: the variant that deletes fields instead of replacing them is not modelled.
- Paging.SelectRows: predicates do not throw, and the operators, text search and collation are parameters.
- Paging.WalkReturnsEveryRow: fractional limits and offsets are not modelled.
- YamlIncludes.MergersAgree: parameter substitution and messages are not modelled, every refusal reads the same, and YAML references inside TypeScript includes are skipped by the source and absent here.
- Linking whole components (`use:` with alias rewriting and duplicate-boundary checks): single-branch checks.
- Router.MatchRoute: decoding of path parameters, templates that repeat a parameter name and version prefixes are not modelled.
- Field selection and expansion of query output, `compareQueryValues` and the cursor's base64url text: the codec only has to round-trip.
