# CiccioSoft.Data.Sqlite in Dafny

A model of the hard parts of an ADO.NET provider for SQLite, with proofs about it: the lock-free
session pool, the deferred reader of multi-statement batches with its cache of prepared statements,
parameter binding, the Julian-day encoding of dates, and the writer gate with its transactions.
`dafny verify dfyconfig.toml` checks everything.

## How it is built

**The pool** is a transition system (`PoolModel`): a thread is a position, its local variables and
the `finally` blocks it still owes; a step is one atomic operation on the dictionary, a bag, `Count`,
`Waiters` or the semaphore. Any number of threads interleave inside `Rent`, `RentAsync` (with
cancelled waits), `Return` and `Clear`, over any schedule. `PoolWakeup` turns the ordering arguments
of the source's comments into an inductive invariant, `PoolOwnership` counts the places of a session,
`PoolCapacity` and `PoolRefinement` relate the protocol to a bounded pool with atomic operations
(`BoundedPool`), `PoolSolo` bounds a `Rent` that runs alone, `PoolLost` follows sessions that are never
given back, `PoolHistory` relates what a call does to what it has been told, `PoolClear` follows a pool
state that is cleared, `PoolPermits` balances its permits, `PoolRuns` exhibits a run. `Pool` has the same operations as methods of objects, for calls
that do not overlap.

**The reader** is a set of functions on the reader's fields, its batch state and the connection
(`ReaderModel`) over an abstract engine (`Engine`), and the same thing once more as a class with the
source's loops (`Reader`), each of whose methods is proved to be its function. What the functions are
for is stated against `Engine.Eager`, which simply executes a batch: `ReaderEager`, `ReaderResults`,
`ReaderChanges`, `ReaderFailures` (what callers execute who go on behind an error),
`ReaderBindings` (the same with errors of binding), `ReaderSingleResult`; `ReaderRuns` has an exact
condition and the runs that fall outside it. `BatchSplit` and `CachedReader` compare prepared
statements with the text, `BatchProgress` follows the position in either; `ReaderFrame` has what a
step does not depend on. `CommandCache` is the command with its
statement cache and its binding loops as methods, `Binding` what those loops compute, and
`CommandSessions` follows which session a command runs on.

**Connections**: `ConnectionModel` gives the calls of a connection as functions and lets many
connections share the semaphores; `WriterGate` and `TransactionRuns` prove what all their runs keep;
`Connections` has coordinator, releaser, connection and transaction as classes over those functions.

**Dates**: `JulianDay` has the calendar by counting, the closed formula, and the doubles.

`Counting` and `Division` are arithmetic, `Options` the type of optional values.

## What turned out to need a condition

- *The pool's maximum.* A session rented before `Clear` and returned after it enters a newer pool
  state that never counted it. `CountExact`: the count of a live pool state is exact if and only if it
  holds no such session; `OverfullAfterClear` is a run that exceeds the maximum.
- *Each write once.* `ExactlyReadOnlyQueries`: for a batch that succeeds, every way of reading it
  executes each write once and in order if and only if its queries are all read-only. The comments of
  the source do not say so. `ReturningRunsTwice`: `INSERT ... RETURNING`, read to its end, is executed
  again by `Close`.
- *Errors stop the batch* for every caller who asks for the next result only after the last `Read`
  returned false, or when there is no current result (`CarefulCallers`). For callers who go on behind
  an error: `ErrorsStopExactly` says that all of them execute exactly the writes up to the first
  error if and only if the error comes before the first query, or nothing behind it writes. A statement
  whose parameters cannot be bound is worse: it has been passed already when it throws, and `Close`
  executes the ones after it, itself without the check for missing parameters (`CloseRunsUnchecked`,
  `BindFailureRunsOn`, `MissingParameterRuns`). `NothingBehindExactly` is the exact condition for
  errors of every kind, those included.
- *Change counts.* A statement such as CREATE TABLE does not set the change counter, and the reader
  reads the count of an earlier statement again. `RecordsAffectedIsChanged`: the count is right if and
  only if no such statement is reached while the counter shows an old count; `RowChangesAreSummed`: so
  it is for queries, INSERT, UPDATE and DELETE; `CreateCountsAgain` is a batch that changes one row and
  reports two. `ExecuteNonQuery` executes everything but reports only the writes before the first query
  (`ExecuteNonQueryReports`, `InsertNotReported`). A query that writes is counted by the `Read` that
  finds its end and once more by `NextResult` (`WritingQueryCounts`, `ReturningCountsTwice`).
- *Prepared statements* mean the same as the text if the text can be prepared ahead: in all databases
  that may arise where a statement comes up it compiles to the same statement (`Foreseen`). A batch
  that creates a table and then uses it cannot be prepared ahead at all. The two readers differ exactly
  where a handle that has failed is let go of: resetting the prepared one reports its error again
  (`ExactlyLetsGo`, `CachedDiffersExactly`; `PreparedCloseThrows` is such a case).
- *Prefetching* is invisible (`PrefetchInvisible`), but reading on is not: two calls of `Read` past the
  last row of a read-only query it starts again (`ReadingIsPeriodic`).
- *Writer exclusion* holds as long as no connection changes its key while it holds a gate
  (`WriterExclusion`). A pooled connection keeps its gate when it is closed; `TwoWriters` is a run in
  which it then writes beside another connection of its new key, and `ExactlyForeignGates` says that
  two connections at rest can come to write at once if and only if one of them holds a foreign gate.
- *The gate between writes.* `WhatKeepsTheGate` lists what leaves a connection at rest, outside a
  transaction, with the gate in hand, and shows that in every run nothing else does; `WhatTakesTheGate`
  does the same for a transaction under way without its gate, and in `CheckpointLetsIn` another
  connection of the same key writes beside such a transaction.
- *Exclusive use of a session.* Cached handles survive closing the connection, while its session may be
  rented elsewhere. `ExactlyAbandoned`: a command runs on the session of another connection if and only
  if it was prepared on that session, its own connection has given the session up since, and neither
  has the command been invalidated nor the session been rented back; `SharedSession` is such a run.
- *Lost sessions.* `Open` loses the session it has rented when the settings cannot be applied to it;
  after `maxPoolSize` such losses every further `Rent` waits for good (`LostSessionsBlock`).
- *Registration of transactions.* `ExactlyUnregisters` lists the calls that leave the engine inside a
  transaction nobody is registered for; `WhatUnregisters` shows that in every run nothing else does, and
  `LateDisposal` is such a run.

## Model

| member | source | states |
|---|---|---|
| PoolModel.Act | CiccioSoft.Data.Sqlite/SqliteConnectionPool.cs:37-147 | every atomic step of `Rent`, `RentAsync`, `Return` and `Clear` names only pool states that exist, adds at most one and only as a fresh active one, starts to wait only on the active pool state, and reserves a slot only after reading a pool that is not full |
| PoolWakeup.StepKeepsInv | CiccioSoft.Data.Sqlite/SqliteConnectionPool.cs:58-145 | the wait invariant, for every pool state at once, is kept by every step of every thread |
| PoolWakeup.SignalsCoverCapacity | CiccioSoft.Data.Sqlite/SqliteConnectionPool.cs:58-145 | in every reachable state, once a thread has seen the live pool full, idle sessions plus free slots are at most permits plus releases still owed plus threads woken or looping |
| PoolWakeup.NoLostWakeup | CiccioSoft.Data.Sqlite/SqliteConnectionPool.cs:67-123 | a thread that is blocked on the live pool with nobody on the way waits while the bag is empty and `Count` is the maximum |
| PoolWakeup.ClearStrandsNobody | CiccioSoft.Data.Sqlite/SqliteConnectionPool.cs:274-301 | once the `Clear` of a retired pool state has finished, its permits cover all threads that wait on it, and each of them can go on |
| PoolWakeup.RetiredForGood | CiccioSoft.Data.Sqlite/SqliteConnectionPool.cs:70-86 | a retired pool state stays retired in every continuation, and no further thread starts to wait on it |
| PoolOwnership.ExclusiveOwnership | CiccioSoft.Data.Sqlite/SqliteConnectionPool.cs:37-315 | in every reachable state every session created is in exactly one bag, one thread, one open connection, or disposed |
| PoolOwnership.RentedExclusively | CiccioSoft.Data.Sqlite/SqliteConnectionPool.cs:248-269 | a session held by an open connection is in no bag, in no thread and not disposed |
| PoolOwnership.HandedOutExclusively | CiccioSoft.Data.Sqlite/SqliteConnectionPool.cs:42-52 | a session about to be handed out is in no other place and has not been disposed |
| PoolCapacity.Conservation | CiccioSoft.Data.Sqlite/SqliteConnectionPool.cs:100-144 | for every pool state `Count` is what it holds (idle, checked out, opening, being validated or evicted), plus what departed uncounted, less what it was given uncounted |
| PoolCapacity.CountExact | CiccioSoft.Data.Sqlite/SqliteConnectionPool.cs:248-260 | on the live pool state `Count` is exact if and only if no foreign session was given to it, and then lies between 0 and the maximum |
| PoolCapacity.WaitsOnlyWhenAllInUse | CiccioSoft.Data.Sqlite/SqliteConnectionPool.cs:61-98 | who waits in vain waits while exactly `maxPoolSize` sessions and slots are in use |
| BoundedPool.NextBounded | CiccioSoft.Data.Sqlite/SqliteConnectionPool.cs:34-37 | the bounded pool never exceeds its capacity |
| PoolRefinement.StepRefines | CiccioSoft.Data.Sqlite/SqliteConnectionPool.cs:42-144 | every step of every thread is, on a live pool state without foreign sessions, a stutter or one atomic step of the bounded pool |
| PoolRuns.OverfullAfterClear | CiccioSoft.Data.Sqlite/SqliteConnectionPool.cs:250-260 | a reachable state in which a live pool of maximum one has two sessions |
| PoolLost.LostSessionsBlock | CiccioSoft.Data.Sqlite/SqliteConnection.cs:191-208 | in every run in which as many sessions as the maximum are never given back, none is ever idle and no thread ever gets one |
| PoolSolo.SoloTermination | CiccioSoft.Data.Sqlite/SqliteConnectionPool.cs:39-145 | from any reachable state a `Rent` that runs alone ends or blocks within seven steps per permit, one per restart to unwind, and 27 more |
| PoolSolo.BlocksOnlyAtWait | CiccioSoft.Data.Sqlite/SqliteConnectionPool.cs:89-93 | inside `Rent` only the wait can block, and exactly while there is no permit |
| PoolSolo.NeverWaits | CiccioSoft.Data.Sqlite/SqliteConnectionPool.cs:248-315 | inside `Return` and `Clear` a thread can always step, and each of its steps ends the call or leaves fewer |
| PoolHistory.RentEndsAsDecided | CiccioSoft.Data.Sqlite/SqliteConnectionPool.cs:37-246 | in every run a `Rent` returns a session exactly if that has been found valid or has just been opened, and throws exactly if opening failed or its wait was cancelled |
| PoolHistory.OnlyAsyncIsCancelled | CiccioSoft.Data.Sqlite/SqliteConnectionPool.cs:152-201 | a wait can be cancelled exactly if the call is a `RentAsync` |
| PoolHistory.LooksBeforeOpening | CiccioSoft.Data.Sqlite/SqliteConnectionPool.cs:41-130 | in every run a slot is reserved, a session opened and a wait begun only by a call whose last look into the bag of its pool state found it empty, or a dead session |
| PoolHistory.DeadAreGone | CiccioSoft.Data.Sqlite/SqliteConnectionPool.cs:43-55 | a session found dead is disposed of, or about to be, in every later state, and nowhere else |
| PoolClear.ClearEmpties | CiccioSoft.Data.Sqlite/SqliteConnectionPool.cs:274-281 | from the removal of a pool state on, whatever all threads do: once nobody empties its bag any more, it holds only sessions given back to it since, and what was in it is disposed of or was taken by a `Rent` under way |
| PoolClear.ClearedIsLeftAlone | CiccioSoft.Data.Sqlite/SqliteConnectionPool.cs:82-108 | who is not using a pool state when it is cleared, waiters included, never takes a session or slot of it, nor gives it a session |
| PoolPermits.PermitLedger | CiccioSoft.Data.Sqlite/SqliteConnectionPool.cs:89-301 | in every run permits and consumed waits together are one per session given back, one per slot given up, and the waiters counted by `Clear` |
| Pool.PoolState.TakeLive | CiccioSoft.Data.Sqlite/SqliteConnectionPool.cs:42-55 | takes an idle session; a dead one is disposed and its slot freed, a live one is returned and `Count` kept |
| Pool.PoolState.WaitWhileFull | CiccioSoft.Data.Sqlite/SqliteConnectionPool.cs:58-124 | the turns of the loop that find the pool full end with a live session, with room, or blocked with an empty bag and no permit; all that was thrown away was dead |
| Pool.PoolState.Open | CiccioSoft.Data.Sqlite/SqliteConnectionPool.cs:125-145 | a reserved slot gets a fresh session, or is given up and announced by a permit |
| Pool.PoolState.Rent | CiccioSoft.Data.Sqlite/SqliteConnectionPool.cs:37-147 | an idle session if a live one comes up, and always if all idle ones are live; else one opened within the maximum, or the error of opening, or blocked exactly when neither exists; more than one dead session is thrown away only if the pool is full; bag, `Count` and, where there is no wait, permits account for everything |
| Pool.PoolState.Retire | CiccioSoft.Data.Sqlite/SqliteConnectionPool.cs:278-301 | all idle sessions are disposed and every registered waiter has a permit |
| Pool.SqliteConnectionPool.GetOrAdd | CiccioSoft.Data.Sqlite/SqliteConnectionPool.cs:39 | the active pool state, or a fresh empty one |
| Pool.SqliteConnectionPool.Return | CiccioSoft.Data.Sqlite/SqliteConnectionPool.cs:248-269 | the session goes into the bag with a permit, or is disposed if there is no pool |
| Pool.SqliteConnectionPool.Clear | CiccioSoft.Data.Sqlite/SqliteConnectionPool.cs:274-315 | no pool is left; the idle sessions of the old one are disposed and its waiters have permits |
| Engine.Prepare | CiccioSoft.Sqlite/Connection.cs:188-235 | a statement found takes at least one byte and ends within the text; where nothing is found the next offset is within the text and its terminator |
| BatchSplit.SplitIsNative | CiccioSoft.Sqlite/Connection.cs:188-235 | by the answers of the engine alone: a text splits into the statements found between cuts that begin at 0, each where the one before left off, exactly if nothing is behind the last; and into none exactly if at the last of such cuts the engine reports an error, where the reader throws and stays |
| BatchSplit.ReadsOnAtTail | CiccioSoft.Sqlite/Connection.cs:217-232 | a reader goes on where the engine left off, or behind the terminator if it does not say |
| BatchProgress.NextStatement | CiccioSoft.Data.Sqlite/SqliteCommand.cs:537-553 | which statement is handed out, with which values bound, when none is, and what an error means, on both paths |
| ReaderModel.RunToEnd | CiccioSoft.Data.Sqlite/SqliteDataReader.cs:949-954 | stepping to the end terminates, with the end or an error, and keeps the current statement, its bindings and the batch state |
| ReaderEager.RunSteady | CiccioSoft.Data.Sqlite/SqliteDataReader.cs:949-954 | running a read-only query, from any position, moves nothing but its handle, and throws exactly if the query fails |
| ReaderEager.AdvanceTracks | CiccioSoft.Data.Sqlite/SqliteDataReader.cs:637-667 | `NextResultCore` arrives at the next query of the batch after executing exactly the statements before it, or at the end, or at the failing statement |
| ReaderEager.DrainRestEnds | CiccioSoft.Data.Sqlite/SqliteDataReader.cs:975-1004 | draining executes exactly what is left of the batch, up to its first error |
| ReaderEager.DoTracks | CiccioSoft.Data.Sqlite/SqliteDataReader.cs:788-816 | `Read`, `HasRows`, `NextResult` and `Close` keep the reader on course with the eager execution |
| ReaderEager.DeferredEqualsEager | CiccioSoft.Data.Sqlite/SqliteDataReader.cs:637-1004 | whatever is called, the writes so far are a prefix of the writes of the batch; after `Close` they are all of them, in order and once each, up to the first error, with the database and the count of eager execution |
| ReaderEager.SuccessIsDisciplined | CiccioSoft.Data.Sqlite/SqliteDataReader.cs:630-635 | for a batch that succeeds the caller is under no condition |
| ReaderEager.CarefulIsDisciplined | CiccioSoft.Data.Sqlite/SqliteDataReader.cs:788-816 | a caller who asks for the next result only after `Read` returned false, or without a current result, meets the condition |
| ReaderEager.CarefulCallers | CiccioSoft.Data.Sqlite/SqliteDataReader.cs:637-1004 | deferred equals eager, errors included, for every caller who follows that rule |
| ReaderResults.ResultsInOrder | CiccioSoft.Data.Sqlite/SqliteDataReader.cs:637-667 | after j successful calls of `NextResult` the current rows are those of the j-th query after exactly the preceding writes |
| ReaderResults.PrefetchInvisible | CiccioSoft.Data.Sqlite/SqliteDataReader.cs:788-905 | for every query that succeeds, any mix of peeks and up to n + 1 reads: which row is current, what `Read` and `HasRows` answer next, and no row before the first `Read` |
| ReaderResults.NoResultNoRows | CiccioSoft.Data.Sqlite/SqliteDataReader.cs:788-817 | without a current result, whatever was called before, any mix of `HasRows` and `Read` answers false, shows no row and executes nothing; in single-row mode the first `Read` closes the reader, as `Close` does |
| ReaderResults.SingleRowEnds | CiccioSoft.Data.Sqlite/SqliteDataReader.cs:810-815 | the `Read` past the last row closes the reader exactly in single-row mode, and no earlier one does |
| ReaderResults.NextResultAnswers | CiccioSoft.Data.Sqlite/SqliteDataReader.cs:644-666 | `NextResultCore` answers true with a query it has not stepped, and false with nothing current |
| ReaderFailures.ClosedRefuses | CiccioSoft.Data.Sqlite/SqliteDataReader.cs:850-903 | once closed a reader refuses every further call but `Close`, and nothing happens any more |
| ReaderResults.ReadingIsPeriodic | CiccioSoft.Data.Sqlite/SqliteDataReader.cs:792-803 | a read-only query read on behind its end starts again after two more reads |
| ReaderChanges.RecordsAffectedIsChanged | CiccioSoft.Data.Sqlite/SqliteDataReader.cs:956-998 | after `Close` the count is that of the rows changed if and only if no other write is reached while the change counter shows an old count |
| ReaderChanges.RowChangesAreSummed | CiccioSoft.Data.Sqlite/SqliteDataReader.cs:956-998 | for queries, INSERT, UPDATE and DELETE the count is their sum, -1 for zero, whatever the caller read |
| ReaderChanges.ExecuteNonQueryReports | CiccioSoft.Data.Sqlite/SqliteCommand.cs:346-351 | throws exactly if the batch fails before its first query; otherwise all writes are executed, and the count is that of the writes before the first query, the total if and only if the change counter is zero after every later write; without a query it always is |
| ReaderChanges.CreateCountsAgain | CiccioSoft.Data.Sqlite/SqliteDataReader.cs:956-972 | an INSERT and a CREATE TABLE: one row changed, two reported |
| ReaderChanges.InsertNotReported | CiccioSoft.Data.Sqlite/SqliteCommand.cs:346-351 | a query and an INSERT: the row is inserted, -1 reported |
| ReaderResults.WritingQueryCounts | CiccioSoft.Data.Sqlite/SqliteDataReader.cs:805-808 | what a writing query that is read adds to the affected records: nothing before its end is seen, its count there, and the counter once more when the caller moves on |
| ReaderResults.ReturningCountsTwice | CiccioSoft.Data.Sqlite/SqliteDataReader.cs:644-646 | one row written by INSERT .. RETURNING, read and moved on from, is reported as two |
| ReaderRuns.ExactlyReadOnlyQueries | CiccioSoft.Data.Sqlite/SqliteDataReader.cs:975-1004 | all ways of reading a batch that succeeds, with a reader that moves on to next results, execute exactly its writes, if and only if its queries are read-only |
| ReaderSingleResult.FirstQueryDecides | CiccioSoft.Data.Sqlite/SqliteDataReader.cs:637-642 | with a reader for a single result it is enough that the first query is read-only |
| ReaderSingleResult.ReadToEndRunsAgain | CiccioSoft.Data.Sqlite/SqliteDataReader.cs:979-983 | any writing query read to its end is executed once more by `Close` |
| ReaderSingleResult.WritingOnce | CiccioSoft.Data.Sqlite/SqliteDataReader.cs:979-983 | a first query that writes and whose repetition fails is executed once in every way of reading: the condition of `FirstQueryDecides` is not necessary |
| ReaderRuns.SkippingLoses | CiccioSoft.Data.Sqlite/SqliteDataReader.cs:644-651 | a caller who only asks for next results executes no query at all, so the writes of a batch with a writing query are not executed as the batch has them |
| ReaderRuns.CloseRunsUnchecked | CiccioSoft.Data.Sqlite/SqliteDataReader.cs:974-998 | `Close` executes nothing at a failing statement, and else all that is left without the check for missing parameters, up to the first error |
| ReaderFailures.ErrorsStopExactly | CiccioSoft.Data.Sqlite/SqliteDataReader.cs:637-1004 | every way of reading a batch in which a statement fails executes exactly the writes up to the error, if and only if it fails before its first query or nothing behind the failing statement writes |
| ReaderBindings.NothingBehindExactly | CiccioSoft.Data.Sqlite/SqliteDataReader.cs:637-1004 | for errors of any kind, binding errors included: every way of reading executes exactly the writes up to the first error, if and only if nothing behind it is written, neither by going on nor by closing, which does not check for missing parameters |
| ReaderFrame.CreateThrowsExactly | CiccioSoft.Data.Sqlite/SqliteDataReader.cs:61-81 | creating a reader throws exactly if the batch fails before its first query |
| ReaderFailures.BetweenEagerAndRelentless | CiccioSoft.Data.Sqlite/SqliteDataReader.cs:637-1004 | whatever a caller does behind errors, the writes lie between those up to the first error and those of all statements that succeed |
| ReaderFailures.RunsOnBehindFailure | CiccioSoft.Data.Sqlite/SqliteDataReader.cs:644-665 | asking for the next result of a failing statement of any kind, once more where a prepared handle reports its error again, executes exactly what is behind it |
| ReaderRuns.MissingParameterRuns | CiccioSoft.Data.Sqlite/SqliteDataReader.cs:986-998 | a statement with a parameter never given is refused by `NextResult` and executed with NULL by `Close` |
| ReaderRuns.SkippedFailure | CiccioSoft.Data.Sqlite/SqliteDataReader.cs:644-665 | asking for the next result of a failing query runs the statements behind the error |
| ReaderRuns.BindFailureRunsOn | CiccioSoft.Data.Sqlite/SqliteCommand.cs:544-551 | after a binding error the disposal of the reader executes the statements behind it |
| ReaderRuns.ReturningRunsTwice | CiccioSoft.Data.Sqlite/SqliteDataReader.cs:979-983 | a writing query that has been read to its end is executed again by `Close` |
| BatchSplit.EagerFromCache | CiccioSoft.Data.Sqlite/SqliteCommand.cs:877-891 | executing the statements of a text that can be prepared ahead is executing the text |
| CachedReader.CachedEqualsFresh | CiccioSoft.Data.Sqlite/SqliteCommand.cs:537-571 | a reader over the prepared statements and one over the text give the same answers, rows, writes with the same bindings, and counts, for the same calls, as long as no failed handle is let go of |
| CachedReader.ErrorFreeIsUnbroken | CiccioSoft.Data.Sqlite/SqliteCommand.cs:555-571 | so it is in every run without errors |
| CachedReader.CloseTwins | CiccioSoft.Data.Sqlite/SqliteDataReader.cs:850-864 | closing answers the same over both exactly if it meets no failing statement, and executes the same in any case |
| CachedReader.ExactlyLetsGo | CiccioSoft.Data.Sqlite/SqliteCommand.cs:555-571 | the two readers agree on a call, in answer and state, if and only if the call lets no failed handle go |
| CachedReader.CachedDiffersExactly | CiccioSoft.Data.Sqlite/SqliteCommand.cs:537-571 | they agree on every call of a sequence if and only if none of the calls lets a failed handle go |
| CachedReader.PreparedCloseThrows | CiccioSoft.Data.Sqlite/SqliteCommand.cs:555-571 | a failing query closed unread: the prepared one throws, the parsed one does not |
| BatchProgress.NoSkipNoRepeat | CiccioSoft.Data.Sqlite/SqliteCommand.cs:509-553 | in every run, errors included and over either source, the statements are passed one behind the other without a gap, skip or repeat, and the position never goes back nor beyond the end |
| BatchProgress.PiecesAreTheList | CiccioSoft.Data.Sqlite/SqliteCommand.cs:877-891 | over prepared statements what is passed is the list, from index to index |
| BatchProgress.PiecesAreTheSplit | CiccioSoft.Sqlite/Connection.cs:188-235 | over a text what is passed is the beginning of its split, if the statements compile as they do there |
| Reader.SqliteDataReader.StepStatement | CiccioSoft.Data.Sqlite/SqliteDataReader.cs:916-947 | one step of the current handle, with its effects on database and change counter |
| Reader.SqliteDataReader.ExecuteCurrentStatementToEnd | CiccioSoft.Data.Sqlite/SqliteDataReader.cs:949-954 | the loop is `ReaderModel.RunToEnd` |
| Reader.SqliteDataReader.AddChangesFromCurrentStatement | CiccioSoft.Data.Sqlite/SqliteDataReader.cs:956-973 | adds the change counter of a statement that is not read-only, and changes nothing else |
| Reader.SqliteDataReader.NextResultCore | CiccioSoft.Data.Sqlite/SqliteDataReader.cs:637-667 | the loop is `ReaderModel.Advance`; a single result ends it at once |
| Reader.SqliteDataReader.DrainRemainingStatements | CiccioSoft.Data.Sqlite/SqliteDataReader.cs:975-1004 | the loop is `ReaderModel.Drain` |
| Reader.SqliteDataReader.Close | CiccioSoft.Data.Sqlite/SqliteDataReader.cs:850-864 | `ReaderModel.Close` on the fields |
| Reader.SqliteDataReader.HasRows | CiccioSoft.Data.Sqlite/SqliteDataReader.cs:101-109 | `ReaderModel.HasRows` on the fields |
| Reader.SqliteDataReader.EnsurePrefetched | CiccioSoft.Data.Sqlite/SqliteDataReader.cs:888-895 | fetches the first row once, before the first `Read` |
| Reader.SqliteDataReader.Read | CiccioSoft.Data.Sqlite/SqliteDataReader.cs:788-816 | `ReaderModel.Read` on the fields |
| Reader.SqliteDataReader.NextResult | CiccioSoft.Data.Sqlite/SqliteDataReader.cs:630-635 | `ReaderModel.NextResult` on the fields |
| Reader.Create | CiccioSoft.Data.Sqlite/SqliteDataReader.cs:61-81 | a reader at its first result, or closed after an error, on a session with any history |
| CommandCache.ResolveParameterIndex | CiccioSoft.Data.Sqlite/SqliteCommand.cs:615-665 | the matching by exact name, then by the three prefixes, with its errors, is `Binding.Resolve` |
| CommandCache.BindParameters | CiccioSoft.Data.Sqlite/SqliteCommand.cs:573-605 | the loop leaves exactly the bindings, or reports exactly the error, of `Binding.Bind` |
| CommandCache.MissingParameters | CiccioSoft.Data.Sqlite/SqliteCommand.cs:673-691 | the indices not bound, in order |
| CommandCache.SqliteCommand.SetCommandText | CiccioSoft.Data.Sqlite/SqliteCommand.cs:80-94 | another text disposes of the cached handles, the same text keeps them; the cache invariant holds |
| CommandCache.SqliteCommand.SetConnection | CiccioSoft.Data.Sqlite/SqliteCommand.cs:100-113 | another connection disposes of the cached handles, the same one keeps them |
| CommandCache.SqliteCommand.PrepareAndEnumerateStatements | CiccioSoft.Data.Sqlite/SqliteCommand.cs:849-875 | the list is what the engine finds in the text up to its end, and `_prepared` holds, exactly if every statement compiles; otherwise it has the statements before the one that does not; the old handles are disposed of |
| CommandCache.SqliteCommand.DisposePreparedStatements | CiccioSoft.Data.Sqlite/SqliteCommand.cs:893-902 | every handle is disposed of, the list is empty and `_prepared` false |
| CommandCache.SqliteCommand.Prepare | CiccioSoft.Data.Sqlite/SqliteCommand.cs:219-236 | succeeds exactly if already prepared, or connected and the text compiles |
| CommandCache.SqliteCommand.PrepareAndBindNext | CiccioSoft.Data.Sqlite/SqliteCommand.cs:537-553 | the next statement with the arguments bound and nothing else, from the list while `_prepared` holds and from the text otherwise; the other handles are untouched |
| CommandCache.SqliteCommand.PrepareAndBindFromCache | CiccioSoft.Data.Sqlite/SqliteCommand.cs:877-891 | the handle next in the list carries exactly the current arguments, whatever was bound to it before; a failed one throws |
| CommandCache.SqliteCommand.ReleaseStatement | CiccioSoft.Data.Sqlite/SqliteCommand.cs:555-571 | a handle of a prepared command goes back reset and without bindings, or throws if it had failed; any other is disposed of |
| CommandSessions.RunStrays | CiccioSoft.Data.Sqlite/SqliteCommand.cs:849-902 | in every run the cached handles belong to a session their connection does not have if and only if the session was given up while they were cached, and they were not disposed of, nor the session rented back, after that |
| CommandSessions.ExactlyAbandoned | CiccioSoft.Data.Sqlite/SqliteConnection.cs:132-189 | in every run a command uses the session another open connection has if and only if it was prepared on it and abandoned there by its own connection |
| CommandSessions.SharedSession | CiccioSoft.Data.Sqlite/SqliteConnection.cs:132-174 | a run after which the commands of two open connections use one session |
| Binding.IndexOf | CiccioSoft.Data.Sqlite/SqliteCommand.cs:632-636 | the first parameter of that name, if there is one |
| Binding.NamesMean | CiccioSoft.Data.Sqlite/SqliteCommand.cs:615-662 | a name that occurs means its first occurrence; otherwise its bare name with the one prefix that occurs; more than one are ambiguous, none is no match; a nameless entry means the SQL parameter at its place exactly if that is nameless |
| Binding.FirstErrorIsReported | CiccioSoft.Data.Sqlite/SqliteCommand.cs:580-604 | binding fails exactly at the first entry without a value or with a missing or ambiguous name, and reports that; missing parameters only if there is none |
| Binding.BindingComplete | CiccioSoft.Data.Sqlite/SqliteCommand.cs:573-605 | each SQL parameter holds the value of the last entry that resolves to it; with the check on, none is unbound, and the missing ones are exactly those no entry resolves to, in order |
| Binding.CheckOnlyRefuses | CiccioSoft.Data.Sqlite/SqliteCommand.cs:600-604 | the check for missing parameters changes no binding |
| Binding.OrderDoesNotMatter | CiccioSoft.Data.Sqlite/SqliteCommand.cs:579-598 | for named entries with distinct targets every permutation of the collection gives the same result |
| JulianDay.FormulaCountsDays | CiccioSoft.Data.Sqlite/SqliteCommand.cs:766-783 | for every valid date the formula is the count of days by months and leap years, shifted |
| JulianDay.FormulaOfTomorrow | CiccioSoft.Data.Sqlite/SqliteCommand.cs:766-783 | the formula grows by exactly one from each day to the next |
| JulianDay.FormulaOrdersDates | CiccioSoft.Data.Sqlite/SqliteCommand.cs:766-783 | the formula orders dates exactly as the calendar does, and is injective |
| JulianDay.FormulaFits | CiccioSoft.Data.Sqlite/SqliteCommand.cs:766-783 | up to year 9999 no intermediate product leaves 32 bits |
| JulianDay.SecondsLoseAtMostOne | CiccioSoft.Data.Sqlite/SqliteCommand.cs:784-788 | truncating the seconds loses at most one millisecond, and none for whole seconds |
| JulianDay.MillisecondsSurvive | CiccioSoft.Data.Sqlite/SqliteDataReader.cs:1006-1013 | the drift of the roundings stays under half a millisecond, so whole milliseconds are decoded exactly |
| JulianDay.RoundTrip | CiccioSoft.Data.Sqlite/SqliteDataReader.cs:1006-1013 | a date-time of years 1 to 9999 comes back within one millisecond, as it was if and only if its seconds lose nothing to truncation, and so without a millisecond part |
| JulianDay.MillisecondLost | CiccioSoft.Data.Sqlite/SqliteCommand.cs:780-783 | a rounding with which one millisecond of any date is lost to truncation |
| Connections.Releaser.Dispose | CiccioSoft.Data.Sqlite/SingleWriterCoordinator.cs:26-35 | however often it is called, the semaphore is released once |
| Connections.SingleWriterCoordinator.Acquire | CiccioSoft.Data.Sqlite/SingleWriterCoordinator.cs:40-45 | a fresh releaser for the semaphore of the key, or blocked exactly without a permit; other keys are untouched |
| Connections.SqliteConnection.AcquireWriterGate | CiccioSoft.Data.Sqlite/SqliteConnection.cs:405-416 | the gate is acquired unless it is held, refused on a closed connection, and blocks exactly without a permit; permits and releaser together stay the same |
| Connections.SqliteConnection.DisposeWriterGate | CiccioSoft.Data.Sqlite/SqliteConnection.cs:418-422 | the gate is released once and forgotten |
| Connections.SqliteConnection.ExecuteWritingStep | CiccioSoft.Data.Sqlite/SqliteDataReader.cs:916-947 | a writing step holds the gate, and keeps it inside a transaction or when it throws; for every key permits and releaser together stay the same |
| Connections.SqliteConnection.Maintain | CiccioSoft.Data.Sqlite/SqliteConnection.cs:230-263 | `Checkpoint` and `Optimize` acquire the gate if need be and dispose of it in any case but an error; for every key permits and releaser together stay the same |
| Connections.SqliteConnection.Close | CiccioSoft.Data.Sqlite/SqliteConnection.cs:132-174 | a pooled connection keeps its gate, another one releases it; no transaction stays registered |
| Connections.SqliteConnection.BeginTransaction | CiccioSoft.Data.Sqlite/SqliteConnection.cs:318-340 | a new registered transaction exactly if open, none is registered and the engine accepts; otherwise nothing is registered by it |
| Connections.SqliteTransaction.EnsureActive | CiccioSoft.Data.Sqlite/SqliteTransaction.cs:124-139 | succeeds exactly for a transaction that is not completed on an open connection whose engine is inside one; an engine that is not completes it |
| Connections.SqliteTransaction.CommitOrRollback | CiccioSoft.Data.Sqlite/SqliteTransaction.cs:61-91 | success completes and unregisters the transaction; a statement that fails leaves it as it was; the gate is released in either case |
| Connections.SqliteTransaction.Dispose | CiccioSoft.Data.Sqlite/SqliteTransaction.cs:107-122 | rolls back what is not completed, swallowing errors, and leaves neither registration nor gate |
| WriterGate.ActSound | CiccioSoft.Data.Sqlite/SqliteConnection.cs:405-422 | every call takes the semaphore of its own key only without a gate, and releases only the one it holds |
| WriterGate.GateConservation | CiccioSoft.Data.Sqlite/SingleWriterCoordinator.cs:16-45 | for every key and every run permits and undisposed releasers are one together, so no semaphore is over-released and no key has two holders |
| WriterGate.WriterExclusion | CiccioSoft.Data.Sqlite/SqliteDataReader.cs:916-947 | while nobody changes keys with a gate in hand, no two connections of one key execute a writing step or maintenance at once |
| WriterGate.ExactlyForeignGates | CiccioSoft.Data.Sqlite/SqliteConnection.cs:158-173 | two connections of one key at rest can come to write at once, without anybody changing keys with a gate in hand, if and only if one of them holds the gate of another key |
| WriterGate.TwoWriters | CiccioSoft.Data.Sqlite/SqliteConnection.cs:158-173 | a run in which that happens |
| WriterGate.HeldGateBlocks | CiccioSoft.Data.Sqlite/SingleWriterCoordinator.cs:40-45 | as long as the holder does nothing, closed or not, everybody else who waits for its gate waits on |
| WriterGate.WhatKeepsTheGate | CiccioSoft.Data.Sqlite/SqliteDataReader.cs:916-947 | in every run a connection at rest outside a transaction has the gate if and only if one of an exact list of calls left it so and it has been so since: a failed write or maintenance, a pooled close during a transaction with the gate, or a transaction dropped because the engine had left it |
| WriterGate.TransactionKeepsGate | CiccioSoft.Data.Sqlite/SqliteDataReader.cs:928-937 | a transaction holds its gate from its first write to its end, unless its connection does maintenance or a commit fails |
| WriterGate.WhatTakesTheGate | CiccioSoft.Data.Sqlite/SqliteConnection.cs:230-263 | in every run from its first write on a transaction is under way without its gate if and only if maintenance by its own connection, or a failed commit or rollback, took it away and it has been without since |
| WriterGate.CheckpointLetsIn | CiccioSoft.Data.Sqlite/SqliteConnection.cs:230-240 | a run in which another connection of the key writes beside a transaction that a checkpoint of its own connection has deprived of the gate |
| TransactionRuns.EndsOnce | CiccioSoft.Data.Sqlite/SqliteTransaction.cs:61-91 | at most one commit or rollback of a transaction ever succeeds |
| TransactionRuns.DisposeLeavesNothing | CiccioSoft.Data.Sqlite/SqliteTransaction.cs:107-122 | after a disposal neither registration nor gate is left, and exactly when the engine is still inside a transaction |
| TransactionRuns.ExactlyUnregisters | CiccioSoft.Data.Sqlite/SqliteConnection.cs:379-394 | exactly the calls after which the engine may be inside a transaction that is not registered |
| TransactionRuns.WhatUnregisters | CiccioSoft.Data.Sqlite/SqliteConnection.cs:379-394 | in every run the engine of a connection is inside an unregistered transaction if and only if one of those calls left it so and it has been so since |
| TransactionRuns.LateDisposal | CiccioSoft.Data.Sqlite/SqliteConnection.cs:379-394 | a run in which disposing of a completed transaction unregisters the one that has begun since |
| TransactionRuns.EngineImpliesRegistered | CiccioSoft.Data.Sqlite/SqliteConnection.cs:318-340 | in runs without those calls, an engine inside a transaction means a registered transaction that is not completed, and `BeginTransaction` refuses a second |
| TransactionRuns.StaleRegistrationBlocks | CiccioSoft.Data.Sqlite/SqliteConnection.cs:318-340 | a registration the engine has left behind makes `BeginTransaction` refuse, until the transaction is looked at |
| TransactionRuns.SetUpOnly | CiccioSoft.Data.Sqlite/SqliteConnection.cs:69-87 | in every run the key of a connection, and of the gate it takes, is that of its last connection string, which only a closed connection accepts |

## Left out

- Several connection strings in one pool model: pool states of different strings share nothing, so one string is modelled.
- The semaphore's upper limit: permits are unbounded, while `SemaphoreSlim` overflows at `int.MaxValue`; every `Return` adds a permit that a later take from the bag does not consume.
- `ConcurrentBag` and `ConcurrentDictionary` are taken as linearizable: `TryTake` fails only on an empty bag, `GetOrAdd` is one step.
- Fairness, progress under a scheduler, timeouts, and deadlock between the engine's lock and the writer gate.
- PoolSolo.SoloTermination: bounds steps of one thread while all others stand still; nothing is said about a thread among others.
- Pool.PoolState.WaitWhileFull: for calls that do not overlap; the two re-checks of the dictionary entry and the restart are steps of PoolModel.
- Pool.PoolState.Open: for calls that do not overlap; a compare-and-swap that fails is a step of PoolModel.
- Pool.PoolState.Rent: calls that overlap are the subject of PoolModel; here the dictionary entry does not change during a call, so the two re-checks of it are left out.
- SQLite itself: compiling a statement and executing it are functions of an abstract engine; a statement's rows and its error, if any, are fixed when it is first stepped, and its effect happens then.
- ReaderEager.DeferredEqualsEager: assumes that read-only queries, and statements that fail at once, leave the database as it was, and that the same statement on the same database gives the same execution.
- `_prepared` is fixed while a reader is open, and two readers do not share prepared handles.
- Reader.SqliteDataReader.StepStatement: the writer gate taken around the step is in Connections.SqliteConnection.ExecuteWritingStep; and the current handle is a value field of the reader, that a cached handle is one object with the command's list is modelled in CommandCache only.
- Reader.SqliteDataReader.Close: `CommandBehavior.CloseConnection` and the disposal of the execution scope.
- Connections.SqliteConnection.Close: returning the session to the pool, or disposing of it, is in PoolModel.
- Connections.SqliteConnection.ExecuteWritingStep: a reader that outlives its connection, and steps while that is closed with the gate in hand.
- CommandCache.SqliteCommand.Prepare: which session the handles belong to is in CommandSessions; there a command has at least one statement.
- ReaderSingleResult.FirstQueryDecides: one direction; the other is false (`WritingOnce`), and depends on what every repetition of the first query and of what is behind it would write.
- Typed getters, schema tables, column metadata.
- Which command texts are an EXPLAIN (`IsExplainCommandText`): a parameter of the command.
- Binding.BindingComplete: parameters are bound to storage values; the conversion of .NET values in `BindParameter` is not modelled.
- The text of an error for missing parameters lists names; the model lists indices.
- Double arithmetic is any rounding with a relative error of at most 2^-53 that keeps integers and half-integers up to 2^52; other bits of IEEE 754 are not modelled.
- Two keys that name the same database file are different gates, as in the source; `WriterExclusion` is per key.
- Transactions started by SQL text through a command rather than by `BeginTransaction`.
- The session gate (`session.Gate`), cancellation registrations and `sqlite3_interrupt`.
- `AcquireCachedStatement` and its lease, which nothing calls.
