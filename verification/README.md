# Verified model of the log indexer and the mempool tracker

The repository indexes the event logs of an EVM chain into a database and follows pending transactions
through their life. This project models both in Dafny and proves what they keep, under the interference
they live with: a chain that grows and reorganises, a node that refuses long ranges or does not answer,
statements that fail, crashes at any point, and threads whose steps alternate freely.

`dafny verify dfyconfig.toml` checks the whole project.

## The log indexer

A chain (`Chain.dfy`) is a sequence of blocks with hashes, parent hashes and events. The node behind the RPC
client (`Rpc.dfy`) is a finite sequence of *fates*: each request meets the next one, which either fails or
serves the chain of that moment and refuses log ranges longer than its limit of that moment; when no fate
is left, the context is cancelled. Since one process drives the indexer, such a sequence stands for every
interleaving of chain changes, refusals, failures and crashes with its requests. Statements of the store
(`Store.dfy`) fail as a sequence of verdicts says. 64-bit arithmetic is written with `Wrap`, which reduces modulo
2^64, wherever the original could wrap.

The central algebra is in `Table.dfy`. The log table is a map with insert-if-absent. Indexing blocks r to h - 1
of a chain on top of a table makes exactly the chain's table if and only if the table held every row below r
and no row that is not the chain's (`IndexingIsExactIff`). Chunking, resuming, following and reorg repair are
consequences:

* `ProcessRangeAdaptive` (`Extract.dfy`): whatever is refused, the chunks make the table of one insert, the new
  checkpoints tile the range and carry the right hashes, the metrics count exactly, and at most
  2n + ceil(log2(chunk / min)) log requests are made for n blocks. If it stops anywhere, a prefix is tiled,
  the rows of at most one chunk more are stored, and running it again gives the uninterrupted result. It stops early
  only for a reason. When transaction hash and log index identify events, each new row is that of one event of the
  range and tells its address, topics, data, decoded name and arguments, and the number, hash and time of its block
  (`Columns.dfy`). The contracts of its parts hold for any mixture of answering chains.
* `Follow` (`Follow.dfy`): if no reorg reaches a height at or below head minus confirmations and that height
  never decreases, then at every exit - and so at every crash - the checkpoints tile the blocks from the start block,
  every stored row is canonical, every row of the tiled blocks is stored, and no rollback ever happened.
  "Canonical" means: of the safe part of a chain that the node served, which every later answer shares
  (`FromNode`, `Settled`). `FollowAcrossRestarts` extends this over any number of restarts from an empty store.
  And it does catch up: when nothing fails, the safe head of *every* answer is indexed at the end, but for those
  within the last 2 * `RunCost` answers, where `RunCost` bounds what one pass can use up, refusals included. An outage
  while asking for the head is waited out, one while looking for a reorg ends the run.
* `Repair.dfy`: over any number of passes, each on a chain that forks above the second newest checkpoint of the store
  as it then is, every pass leaves exactly its chain's rows (`PassesKeepExact`, `FollowStepAfterReorg`). In general a
  pass that found a reorg and caught up leaves exactly the new chain's rows if and only if both chains have the same
  rows below the newest checkpoint's start (`PassRepairIsExactIff`). Two interruptions leave a table that the next pass
  takes for sound: a crash between a chunk's rows and its checkpoint, harmless if and only if the rows are the new chain's
  (`PassLeftoverIsHarmlessIff`), and a rollback stopped between its two deletes while the node returns to the indexed
  chain, harmless if and only if the deleted blocks had no row of their own (`HalfRollbackIsHarmlessIff`).
  `DeepForkIsNotRepaired` and `LeftoverChunkStays` are concrete runs in which foreign rows stay.
* `Mixed.dfy`: a chunk's rows come from the chain that answered its logs, its checkpoint from the last answer, and the
  chain of the last answer is never reported as a reorg (`MixedChunkLooksClean`). The chunk is exact if and only if its
  new rows are those of the chain that is named by the checkpoint (`MixedChunkIsExactIff`). A comparison of hashes
  decides: if the chain that answered the logs has the saved hash, the chunk is exact (`SavedHashMakesExact`); an exact
  chunk shares every block up to its last new row (`ExactChunkSharesBlocks`), so when the last block holds a row
  the comparison is exact (`ExactIffSavedHash`).
* `Backfill.dfy` is a state machine of producer and workers. Under every schedule each block handed out is
  checkpointed once or owed once; a nil result is complete if and only if the producer reached the end.
* `Progress.dfy`: no schedule gets stuck. After any steps without error or interruption there are further steps after
  which all workers have returned and the backfill is complete (`BackfillCanComplete`).
* `Gaps.dfy`: one worker's steps are the chunked loop of `Extract.dfy` (`WorkerAloneIndexes`). No schedule, with or
  without failures, leaves a block without checkpoint before one that has it if and only if there is one worker or one
  job (`NoGapIff`, and `ReturnedWithoutGapIff` for backfills that have returned). In these cases the follower can go on
  after any end of the backfill (`SoloIsSynced`); otherwise `FailedBackfillMayLeaveGap` gives the schedule.

Hypotheses that the code needs, stated where they are used: block numbers below 2^64 - 1; a maximum chunk with
max + (max - 1) / 10 < 2^64 (`GrowthNeverShrinksIffHeadroom` shows that this is exactly what is needed); for
the request bound, that ranges of `min` blocks are never refused; for reorg results, hash-linked blocks and no
hash collisions; for backfill, a fixed chain on which (transaction hash, log index) is unique.

## The mempool tracker

`Mempool.dfy` gives the tracker's lock sections and the table's statements as functions. `Tracker.dfy` is the
tracker as a class whose methods are proved against them. `Agreement.dfy` composes them: in every
single-threaded run that delivers each hash once and whose statements succeed, tracker and table agree, and
replacement links end at a row of the same sender and nonce that is not replaced. After any run a row tells sender,
nonce and first-seen time of the first delivery of its hash, and a sweep drops a pending transaction if and only if
that time lies before the cutoff. `Interleaving.dfy` makes
each lock section, channel operation, query and statement a step of its own thread. In every reachable state
the hashes in flight are the disjoint union of the queued and the held ones, within the cap, so the branch for
a full queue is never taken; a pending transaction holds its key or is about to be marked as replaced;
statuses only move forward. An operation whose steps are not interleaved has exactly the effect of the class's
method, whichever of its statements fail.

Agreement with the table does *not* hold under every interleaving (`LateUpsertDisagrees`). `Races.dfy` says
when it does: in every interleaving that delivers each hash once, whichever statements fail, a row whose hash
no thread is half way through with agrees with the tracker if and only if the row is up to date
(`AgreesIffUpToDate`): the last statement that succeeded on it was in time, and none that failed since was
missed. A statement is in time when nothing overtook it: a pending or dropped row is written while its entry
has that status, a replaced row while its entry exists, and no thread still owes the entry a mark or its
removal that would change that. This covers the late upsert, the drop that lands after a replacement, and the
replacement that lands between a row's mining and the end of its tracking. For a hash delivered again,
`RedeliveryAgreesIff` says exactly when agreement survives, and `RedeliveryAfterReplacement` gives a run after
which it does not. A transaction's hash is taken to be non-empty and to determine sender and nonce.

`Decimal.dfy`, `Hex.dfy`, `Registry.dfy` and `Config.dfy` cover the nonce key, the hexadecimal parser, the
event registry and the configuration values that the loops rely on. The registry's filter asks for every event that
some contract names at its own address (`FilterIsComplete`), and what it asks for is recognised.

## Where code and documentation differ

* docs/architecture.md:9 speaks of a rollback "from the last safe checkpoint". The code goes back exactly one
  checkpoint and does not compare the one before it (internal/reorg/reorg.go:30-38); the model follows the code.
* docs/mempool.md:16-18 lists transitions out of `pending` only. In the code a dropped transaction can still become
  replaced, and an upsert sets any status of the table back to pending (internal/store/sqlite.go:176-178).

## Model

| member | source | states |
|---|---|---|
| Chunking.Chunker.constructor | internal/extract/chunker.go:9-23 | any three sizes are clamped to 1 <= min <= current <= max, and sizes already in order are kept |
| Chunking.Chunker.OnError | internal/extract/chunker.go:29-38 | in bounds, a refusal halves the size but not below the minimum, and stays in bounds |
| Chunking.Chunker.OnSuccess | internal/extract/chunker.go:40-50 | with headroom, a success adds a tenth plus one up to the maximum, without wrapping, and stays in bounds |
| Chunking.GrowthNeverShrinksIffHeadroom | internal/extract/chunker.go:40-50 | success never shrinks any size in range exactly when max + (max - 1) / 10 < 2^64 (or min = max) |
| Chunking.GrowthCanReachZero | internal/extract/chunker.go:40-50 | without headroom the size can wrap to zero |
| Chunking.LevelIsCeilLog2 | internal/extract/chunker.go:29-38 | the number of halvings down to the minimum is the least k with current <= min * 2^k |
| Chunking.LevelSteps | internal/extract/chunker.go:29-50 | a refusal above the minimum costs at least one level, a success gains at most one |
| Configuration.NormalisedIsAProjection | internal/config/config.go:89-106 | normalised sizes satisfy 1 <= min <= chunk <= max; ordered sizes, and only those, are kept; twice is once |
| Configuration.NormalisedMeaning | internal/config/config.go:92-106 | a given minimum is kept, an unset one is 10; an unset maximum is the chunk size; then both ends clamp |
| Configuration.Config.ResolveNetwork | internal/config/config.go:141-159 | succeeds exactly when the selected chain exists and has a URL and an id, and then selects it; otherwise the first fault in order is named |
| Configuration.Config.NormaliseSizes | internal/config/config.go:92-106 | the in-place assignments reach the normalised sizes |
| Configuration.Config.CheckContracts | internal/config/config.go:124-137 | accepts exactly a non-empty list of contracts with address, ABI path and events; otherwise names the first missing setting of the first contract that misses one |
| Configuration.Config.Validate | internal/config/config.go:85-139 | accepts exactly the acceptable configurations, leaves ordered sizes and the defaults of concurrency, intervals and driver, and names the first fault in order otherwise |
| Chains.SameHashSamePrefix | internal/reorg/reorg.go:22-28 | with hash links and no collisions, equal hashes at one height mean equal chains up to it |
| Chains.MatchingMeaning | internal/extract/extract.go:73-77 | of a block's events exactly those that pass the filter are answered, each as often as it occurs |
| Chains.LogsMeaning | internal/extract/extract.go:73-77 | a request for a range answers exactly the passing events of its blocks, with number and hash of their block |
| Chains.AnswersAreDecodable | internal/extract/extract.go:53-60 | a decoder that is total on the filter decodes everything the node answers |
| LogTable.InsertAllMeaning | internal/store/sqlite.go:97-117 | old rows stay, every inserted key is present, a new row is an inserted one |
| LogTable.FirstRowWins | internal/store/sqlite.go:97-103 | of several rows with one new key the first is kept |
| LogTable.ReinsertIsIdempotent | internal/store/sqlite.go:102 | inserting a stretch again together with more adds only what is more |
| LogTable.BelowUndoesInsert | internal/store/sqlite.go:147-158 | deleting the rows from block r on leaves exactly the table indexed up to r |
| LogTable.InsertKeepsBetween | internal/extract/extract.go:62-110 | indexing more of a chain keeps a table between two tables of that chain |
| LogTable.IndexingIsExactIff | internal/extract/extract.go:62-110 | indexing a stretch makes exactly the chain's table iff the table held all rows below and none foreign |
| LogTable.UniqueKeysKeepEveryRow | internal/store/sqlite.go:43 | with unique keys, insert-if-absent loses no row |
| Columns.NewRowTells | internal/extract/extract.go:134-147 | a new row under an event's key tells that event, its decoded name and arguments, and its block |
| Columns.IndexingStoresColumns | internal/extract/extract.go:112-150 | every passing event of the range has a row, every new row is of one and tells it column by column, old rows stay |
| Store.TilesCoverOnce | internal/extract/extract.go:95-107 | tiled checkpoints cover each block of the range exactly once and no other block |
| Store.TiledNewest | internal/store/sqlite.go:128-135 | with tiled checkpoints the query for the newest has one answer, the last |
| Store.TiledNewestBefore | internal/store/sqlite.go:137-145 | the query for the one before has one answer, the last but one, which ends right before the last starts |
| Store.StartingBeforeMeaning | internal/store/sqlite.go:150 | of any checkpoints, tiled or not, exactly those that start before the block are left, each as often as before |
| Store.StartingBeforeKeepsOrder | internal/store/sqlite.go:150 | and in their order |
| Store.RollbackRemovesNewest | internal/store/sqlite.go:147-158 | rolling back to the newest checkpoint's start removes it and keeps the others tiled |
| Store.LogStore.InsertLogs | internal/store/sqlite.go:89-119 | all records are inserted if absent, or the table is unchanged |
| Store.LogStore.LastCheckpoint | internal/store/sqlite.go:128-135 | answers some checkpoint with the greatest end, none exactly when there is none |
| Store.LogStore.CheckpointBefore | internal/store/sqlite.go:137-145 | the same among the checkpoints that end before the block |
| Store.LogStore.RollbackFrom | internal/store/sqlite.go:147-158 | on success exactly the rows of lower blocks and the checkpoints that start lower are left, as they were; on failure only the rows went, or nothing |
| Extract.BlockCache.Get | internal/extract/extract.go:41-51 | a cached header costs no request, any other is requested once and kept |
| Extract.BuildRecords | internal/extract/extract.go:112-150 | one row for each log, in order, each column named, with the log's decoding and its block's cached timestamp, whichever chains answered; an error for a reason |
| Extract.NextChunk | internal/extract/extract.go:66-71 | the chunk is the smaller of the size and what remains, and no sum wraps |
| Extract.SaveChunk | internal/extract/extract.go:91-106 | the checkpoint carries the hash that this request was answered with, and only then the chunk is counted and the size grown |
| Extract.IndexChunk | internal/extract/extract.go:84-106 | logs before checkpoint; the logs stay exactly when the block hash or the checkpoint fails |
| Extract.TryChunk | internal/extract/extract.go:65-108 | one pass under any answers: refused and shrunk, stored and grown, or stopped; rows of the chain that answered the logs, hash of the one that answered last |
| Extract.PassBudget | internal/extract/extract.go:73-107 | a refused request is paid for by a lower level, a stored chunk raises it by at most one |
| Extract.ProcessRangeAdaptive | internal/extract/extract.go:62-110 | chunked equals one insert, column by column; tiling with right hashes; exact metrics; bounds on requests and answers; prefix on failure plus at most one chunk of rows; stops only for a reason |
| Extract.ResumeSameLogs | internal/extract/extract.go:84-107 | inserting up to some block, then again from an earlier one, makes the table of one pass |
| Extract.ResumeEqualsUninterrupted | internal/extract/extract.go:84-107 | a stopped run resumed at its first block without a checkpoint equals an uninterrupted run |
| Reorg.Detect | internal/reorg/reorg.go:14-39 | the verdict and the rollback block follow from the newest checkpoint and the answered header |
| Reorg.Rollback | internal/reorg/reorg.go:41-44 | on success exactly the rows and checkpoints from the block on are gone; on failure only the rows, or nothing |
| Reorg.DetectedMeans | internal/reorg/reorg.go:14-30 | for any checkpoints, one with the greatest end block is compared with the chain's hash there |
| Reorg.RollbackPointMeans | internal/reorg/reorg.go:30-38 | for any checkpoints, the rollback goes behind the newest one that ends before the compared one starts, or to its start if there is none |
| Reorg.DetectedOnTiles | internal/reorg/reorg.go:14-39 | with tiled checkpoints one hash decides, and the rollback block is the newest one's start |
| Reorg.DetectIsSoundAndComplete | internal/reorg/reorg.go:22-28 | no reorg is reported exactly when the chain still starts with everything indexed |
| Reorg.RollbackUnindexesNewest | internal/reorg/reorg.go:30-44 | on a mismatch the newest checkpoint and all logs from its start go, nothing else; the block is the previous end plus one |
| Reorg.InterruptedRollbackCompletes | internal/store/sqlite.go:147-158 | a rollback stopped between its deletes and repeated equals one rollback |
| Following.IndexToHead | internal/extract/follow.go:44-67 | always asks for the head; waits exactly when there is none, it is not above the confirmations, or the safe head is behind; otherwise indexes up to the safe head, within a bound on the answers used |
| Following.DetectAndRollBack | internal/extract/follow.go:33-42 | the verdict, where indexing goes on, and the store after a full, a half or no rollback |
| Following.FollowStep | internal/extract/follow.go:33-67 | the effect of one pass on store, position and coming answers, whatever fails; the head is asked for after the look for a reorg |
| Following.LeavesAfter | internal/extract/follow.go:26-68 | what is settled and where it came from composes over passes |
| Following.StepKeepsSynced | internal/extract/follow.go:33-67 | with settled answers a pass keeps the store in agreement with a chain that answered and never rolls back |
| Following.ResumePoint | internal/extract/follow.go:16-23 | behind a checkpoint with the greatest end block, or at the configured block when there is none |
| Following.PassCatchesUp | internal/extract/follow.go:33-67 | with answers enough for a pass, the pass does not fail and indexes up to the head it sees, and so up to all heads before it |
| Following.SyncedMeaning | internal/extract/follow.go:33-67 | in an agreeing store every row is canonical and every row below the next block is stored |
| Following.Follow | internal/extract/follow.go:13-69 | at every exit agreement with a chain the node served and no rollback; when nothing fails, every safe head but those of the last answers is indexed; outages while asking for the head are waited out, one while looking for a reorg aborts |
| Following.FollowAcrossRestarts | internal/extract/follow.go:13-69 | the same over any number of runs from an empty store: agreement, no rollback, and every safe head but the last ones indexed once a run without failing statement comes first |
| Repair.RepairIsExactIff | internal/extract/follow.go:33-67 | rolled back and indexed from another chain, the table is exact iff both chains have the same rows below the rollback block |
| Repair.PassRepairIsExactIff | internal/extract/follow.go:33-67 | the same for a pass that found the reorg and caught up, from the verdict to the table |
| Repair.ReorgRepaired | internal/extract/follow.go:33-67 | after a fork above the second newest checkpoint one pass leaves exactly the new chain's rows and tiled checkpoints |
| Repair.PassKeepsExact | internal/extract/follow.go:26-68 | the same for a pass that waits and for an empty store |
| Repair.PassesKeepExact | internal/extract/follow.go:26-68 | over any number of passes, each on a chain of its own, every pass leaves exactly its chain's rows and tiles |
| Repair.FollowStepAfterReorg | internal/extract/follow.go:33-67 | a pass of the method is such a pass |
| Repair.DeepForkIsNotRepaired | internal/extract/follow.go:33-64 | a concrete fork below the second newest checkpoint: found, rolled back, caught up, a stale row left, and clean from then on |
| Repair.LeftoverChunkIsHarmlessIff | internal/extract/extract.go:88-101 | a chunk stored without its checkpoint is harmless after a reorg iff its rows are rows of the new chain |
| Repair.PassLeftoverIsHarmlessIff | internal/extract/follow.go:33-67 | the same for a pass that catches up without a rollback |
| Repair.LeftoverChunkStays | internal/extract/extract.go:88-101 | a concrete crash and reorg that leave such a row, which no later pass notices |
| Repair.HalfRollbackIsHarmlessIff | internal/store/sqlite.go:147-158 | a rollback stopped between its deletes, on a chain that is as before at the next pass: no reorg is found, and the table is the chain's iff the deleted blocks had no row of their own |
| Mixed.ChunkRowsAreOfItsLogs | internal/extract/extract.go:73-90 | new rows carry the hashes of the chain that answered the request for logs |
| Mixed.MixedChunkLooksClean | internal/extract/extract.go:91-101 | the chain that answered a chunk's last request is never reported as a reorg, whatever chain the rows are of |
| Mixed.MixedChunkKeepsForeignRow | internal/extract/extract.go:73-101 | a chunk served by two chains that stores a row the checkpointed chain does not have |
| Mixed.MixedChunkIsExactIff | internal/extract/extract.go:73-101 | whichever chains answered, the table is a chain's iff every row with a new key is one of its rows and none of these is missing |
| Mixed.SavedHashMakesExact | internal/extract/extract.go:73-101 | if the chain that answered the logs has the saved hash and the cached headers are right, the chunk is exact |
| Mixed.ExactChunkSharesBlocks | internal/extract/extract.go:73-101 | an exact chunk's chains share every block up to that of any new row |
| Mixed.ExactIffSavedHash | internal/extract/extract.go:73-101 | with a row in the last block, the chunk is exact iff the chain that answered the logs has the saved hash there |
| Backfilling.ResolveRange | internal/extract/backfill.go:13-36 | overrides win; otherwise start block to head minus confirmations; each error and the empty range exactly when they should |
| Backfilling.ProduceJobs | internal/extract/backfill.go:62-77 | the jobs follow each other without gap or overlap, each of the chunk size or up to the end |
| Backfilling.TakeHandsOut | internal/extract/backfill.go:70-75 | handing out a job adds one share for each of its blocks and no other |
| Backfilling.SaveMovesShare | internal/extract/extract.go:95-107 | saving a checkpoint moves the shares of its blocks from the worker to the table |
| Backfilling.WorkerSteps | internal/extract/extract.go:65-108 | each step of a worker is that of the chunked loop: size of the chunk, halving, growth by a tenth, where it goes on |
| Backfilling.ConservedKept | internal/extract/backfill.go:44-77 | every step keeps each block handed out checkpointed once or owed once, unless a worker failed |
| Backfilling.InsertHolds | internal/store/sqlite.go:89-119 | inserting a chunk adds exactly the wanted rows of its blocks |
| Backfilling.AllInsertedIsOnePass | internal/extract/backfill.go:49-59 | in whatever order the blocks were inserted, the table is that of one pass |
| Backfilling.RunInv | internal/extract/backfill.go:38-86 | the invariant of every run |
| Backfilling.BackfillCompleteIff | internal/extract/backfill.go:38-86 | a nil result is complete iff the producer reached the end |
| Backfilling.NilMeansComplete | internal/extract/backfill.go:38-86 | with a worker and a caller that never cancels, nil means complete |
| Backfilling.LeftMeansClosed | internal/extract/backfill.go:49-59 | a worker returns only after an error or after the channel was closed |
| Backfilling.CancelledBackfillMayReturnNil | internal/extract/backfill.go:62-86 | a cancelled caller can get nil with nothing indexed |
| Gaps.WorkerAloneIndexes | internal/extract/extract.go:62-110 | a worker's steps with nothing in between index a prefix at any moment and its whole job when it is idle again |
| Gaps.WorkerCanFinish | internal/extract/extract.go:62-110 | such steps can always finish the job |
| Gaps.SoloIsIndexed | internal/extract/backfill.go:44-77 | with one worker or one job the new checkpoints and rows are a stretch from the start at any moment of any run |
| Gaps.SoloIsSynced | internal/extract/backfill.go:38-86 | then the store agrees with the chain after any end of the backfill, so the follower can go on |
| Gaps.NoGapIff | internal/extract/backfill.go:38-86 | no schedule leaves a gap before a new checkpoint iff there is one worker or one job |
| Gaps.ReturnedWithoutGapIff | internal/extract/backfill.go:38-86 | the same for the runs that have returned |
| Gaps.FailedBackfillMayLeaveGap | internal/extract/backfill.go:44-86 | with two workers and two jobs, a failing run whose only new checkpoint and rows are of the second job |
| Gaps.NewestIsBehindGap | internal/extract/follow.go:16-23 | from an empty store the follower would resume behind that gap, and the checkpoints tile nothing |
| Progress.BackfillCanComplete | internal/extract/backfill.go:38-86 | after any steps of any schedule without error or interruption, further steps complete the backfill |
| Decimal.ParseInvertsPrint | internal/mempool/tracker.go:237-251 | a decimal parser inverts the digits |
| Decimal.DecIsCanonical | internal/mempool/tracker.go:237-251 | no leading zero and no more digits than needed |
| Decimal.DecFitsIn20 | internal/mempool/tracker.go:242 | a uint64 needs at most 20 digits |
| Decimal.ReverseInPlace | internal/mempool/tracker.go:247-249 | the buffer is reversed in place |
| Decimal.WriteDigits | internal/mempool/tracker.go:242-246 | the appended digits are the decimal form backwards |
| Decimal.FmtUint64 | internal/mempool/tracker.go:237-251 | the result is the decimal form |
| Decimal.KeyIsInjective | internal/mempool/tracker.go:233-235 | the key determines sender and nonce, even when the sender contains the separator |
| Mempool.SectionsKeepCoherence | internal/mempool/tracker.go:82-100 | each lock section keeps index entries pointing to tracked transactions of their key |
| Mempool.EntriesAfterDelivery | internal/mempool/tracker.go:68-100 | field by field: what a delivery makes of each tracked entry and of the key index |
| Mempool.RowsAfterDelivery | internal/store/sqlite.go:168-192 | field by field: what it makes of each row, whichever of its statements fail |
| Mempool.AfterMinedMeaning | internal/mempool/tracker.go:165-200 | field by field: entry and key gone, the row tells status, block, hash and index, everything else as before |
| Mempool.AfterSweepMeaning | internal/mempool/tracker.go:215-231 | field by field: exactly the pending entries first seen before the cutoff are dropped, and their rows |
| Mempool.DroppedByFirstSeen | internal/mempool/tracker.go:70-90 | a delivery followed by a sweep drops the transaction iff its first-seen time, or else that of the delivery, is before the cutoff, delivered again or not |
| Mempool.ExpireIsIdempotent | internal/mempool/tracker.go:219-226 | exactly the pending entries first seen before the cutoff are dropped, and twice is once |
| Tracking.Tracker.constructor | internal/mempool/tracker.go:37-59 | defaults for settings that are not positive; empty books |
| Tracking.Tracker.ArriveLocked | internal/mempool/tracker.go:79-92 | the in-place updates are the first lock section; a new entry is first seen when the delivery says, a known one keeps that time; the replaced hash is the key's former holder |
| Tracking.Tracker.HandleTx | internal/mempool/tracker.go:68-109 | books, table and queue after a delivery, also when a statement fails; first-seen time from the delivery or the clock, and kept on a second delivery |
| Tracking.Tracker.EnqueueReceipt | internal/mempool/tracker.go:115-137 | a hash is put in flight and queued exactly when it was not in flight and the cap leaves room |
| Tracking.Tracker.CollectPending | internal/mempool/tracker.go:140-147 | exactly the pending hashes |
| Tracking.Tracker.ScheduleReceipts | internal/mempool/tracker.go:139-152 | every pending hash is in flight or the cap is reached; nothing in flight is lost |
| Tracking.Tracker.HandleReceipt | internal/mempool/tracker.go:165-200 | a mined receipt updates table and books; the hash leaves flight in every case |
| Tracking.Tracker.ReceiveAndHandle | internal/mempool/tracker.go:154-163 | the oldest queued hash is handled and released |
| Tracking.Tracker.MarkExpired | internal/mempool/tracker.go:219-226 | in any map order, exactly the expired entries are dropped and listed |
| Tracking.Tracker.DropExpired | internal/mempool/tracker.go:215-231 | each entry is dropped iff pending and first seen before now minus the TTL; rows of exactly those hashes whose statement succeeded |
| Agreement.DeliverAgrees | internal/mempool/tracker.go:68-109 | a first delivery keeps tracker and table in agreement |
| Agreement.ReceiptAgrees | internal/mempool/tracker.go:165-200 | handling a receipt keeps them in agreement |
| Agreement.SweepAgrees | internal/mempool/tracker.go:215-231 | a sweep keeps them in agreement |
| Agreement.RunAgrees | internal/mempool/tracker.go:68-231 | agreement after every deliver-once run, with one row for each delivered hash |
| Agreement.LinksEnd | internal/mempool/tracker.go:94-95 | replacement links end at a row of the same sender and nonce that is not replaced |
| Agreement.RowTellsFirstDelivery | internal/mempool/tracker.go:68-109 | after any run a row has sender, nonce and first-seen time of the first delivery of its hash |
| Agreement.EntryTellsDelivery | internal/mempool/tracker.go:82-92 | when each hash is delivered once, so has its entry |
| Agreement.SweepDropsByFirstSeen | internal/mempool/tracker.go:215-231 | a sweep after any such run drops a pending transaction and its row iff that time is before the cutoff |
| Agreement.ReceiptRecordsMining | internal/mempool/tracker.go:165-200 | a mined receipt after any run ends the tracking and records block, hash and index |
| Agreement.RedeliveryAgreesIff | internal/mempool/tracker.go:87-103 | any delivery keeps statuses in agreement exactly when the hash is untracked or still pending |
| Agreement.RedeliveryAfterReplacement | internal/mempool/tracker.go:87-103 | a reachable ledger in which a second delivery of a replaced hash breaks agreement |
| Interleaving.QueueHasRoom | internal/mempool/tracker.go:129-136 | while a hash is held the queue has room |
| Interleaving.PipelineAlways | internal/mempool/tracker.go:115-171 | in every reachable state the hashes in flight are the disjoint union of queued and held ones, within the cap |
| Interleaving.BooksAlwaysOk | internal/mempool/tracker.go:82-101 | in every reachable state a pending transaction holds its key or is owed a mark, and index entries are sound |
| Interleaving.AtMostOnePending | internal/mempool/tracker.go:82-101 | with no delivery in between, at most one pending transaction per sender and nonce |
| Interleaving.StatusMovesForward | internal/mempool/tracker.go:82-101 | while tracked, a status moves along pending, dropped, replaced and never back |
| Interleaving.LateUpsertDisagrees | internal/mempool/tracker.go:94-105 | a run after which a row says pending and the tracker says replaced |
| Interleaving.DeliveryAloneIsAfterDelivery | internal/mempool/tracker.go:68-109 | a delivery without interleaving has the single-threaded effect on books, table, flight and queue, whichever statements fail |
| Interleaving.ReceiptAloneIsAfterMined | internal/mempool/tracker.go:154-200 | the same for a receipt, whatever it answers |
| Interleaving.SweepAloneIsAfterSweep | internal/mempool/tracker.go:215-231 | the same for a sweep, in any map order |
| Interleaving.ScheduleAlone | internal/mempool/tracker.go:139-152 | the same for scheduling: every pending hash in flight or the cap reached, and what is new in flight is new in the queue |
| Interleaving.FullQueueWithdraws | internal/mempool/tracker.go:129-136 | a full queue takes the hash out of flight again |
| Races.StepDecides | internal/mempool/tracker.go:68-231 | a statement on a row decides anew whether it agrees, and every other step leaves the decision |
| Races.AgreesIffUpToDate | internal/mempool/tracker.go:68-231 | under any interleaving of first deliveries and any failures, row and entry agree iff the last statement on the row was in time and none that failed since was missed |
| Races.AgreeWhenEveryWriteInTime | internal/mempool/tracker.go:68-231 | when every statement is in time they agree wherever no operation is half way through |
| Hexadecimal.ParseHexUint | internal/mempool/subscriber.go:177-196 | the loop computes the parsed value modulo 2^64 |
| Hexadecimal.RejectsIffBadDigit | internal/mempool/subscriber.go:177-196 | rejected exactly when a character behind the prefixes is no hexadecimal digit |
| Hexadecimal.QuantityRoundTrip | internal/mempool/subscriber.go:177-196 | every uint64 comes back from its text in either case, with leading zeros and prefixes |
| Hexadecimal.DigitsInEitherCase | internal/mempool/subscriber.go:184-191 | exactly the sixteen digits in either case have a value |
| Hexadecimal.OnlyPrefixesAreStripped | internal/mempool/subscriber.go:178-180 | repeated prefixes are stripped and nothing else |
| Hexadecimal.OnlyLast16DigitsCount | internal/mempool/subscriber.go:181-195 | of a longer number the last sixteen digits are left |
| EventRegistry.KeyIsInjective | internal/decode/registry.go:101-103 | the lower-cased key determines topic and address, whatever the checksum capitalises |
| EventRegistry.EventsOfMeaning | internal/decode/registry.go:49-59 | one registration per named event, in order, with the contract's address and the ABI's definition |
| EventRegistry.RegistrationsMeaning | internal/decode/registry.go:39-62 | all loads exactly when each contract does, and the registered topics are those of the named events |
| EventRegistry.FilterIsComplete | internal/decode/registry.go:129-139 | every event that a contract names at its address passes the filter, and nothing of another address or topic |
| EventRegistry.LoadRegistry | internal/decode/registry.go:33-64 | loads exactly when every file, text and event name is good and otherwise names the first fault; indexes all registrations, keeps every address, lets every named event pass its filter, and recognises all that passes iff there is one |
| EventRegistry.DecodeLog | internal/decode/registry.go:66-88 | name and arguments come from the contract's own latest definition of the topic, or the latest of any when it has none; otherwise the error that applies |
| EventRegistry.OwnLatestDefinitionWins | internal/decode/registry.go:49-60 | a contract's own most recent definition is used, whatever other contracts registered |
| EventRegistry.ChosenIsResolved | internal/decode/registry.go:70-78 | without a definition of its own, the latest of any contract is used |
| EventRegistry.ResolvesIffRegistered | internal/decode/registry.go:70-78 | a topic resolves exactly when registered, and to an event with that topic |
| EventRegistry.LookupIsTotalOnFilterIff | internal/decode/registry.go:66-78 | every log that passes the filter is recognised iff some event is registered |
| EventRegistry.FeedIsTotalIff | internal/extract/extract.go:117-121 | when unpacking never fails, every log asked for decodes iff some event is registered |

## Left out

- HTTP, retries, rate limiting, JSON and back-off of internal/rpc/client.go: the client is reduced to answer, refusal and failure.
- WebSocket handling of internal/mempool/subscriber.go, internal/mempool/fetcher.go and internal/mempool/service.go: input and output, a source of deliveries.
- ABI unpacking, topic parsing and argument encoding: library code, a function parameter that may fail.
- internal/decode/input.go and the ABI-by-address index that only it uses.
- splitArgs and the hexadecimal rendering of filter addresses and topics: the filter is kept as bytes.
- SQL text, migrations, listing queries and internal/store/postgres.go: tables are values with the statements' effects.
- inserted_at columns and the value, gas, fee, type and input columns of the mempool table, which are written without being read.
- The table's rounding of times to seconds; Mempool.RowsAfterDelivery keeps them exact.
- The lag gauge, logging, sleeps and tickers; the clock is a parameter.
- cmd, static assets, Docker and Hardhat files.
- Configuration.Config.Validate: does not state the defaults set for mempool and UI, on which none of the modelled loops depends.
- Backfilling.NilMeansComplete: the chain is fixed and keys are unique within it; following after a failed backfill with several workers and jobs starts behind the gaps that it may have left (NoGapIff), and nothing is claimed for it.
- Progress.BackfillCanComplete: says that completion stays possible, not that every fair schedule reaches it, since a node may refuse a chunk without end.
- Following.Follow: with a reorg at or below head minus confirmations nothing is claimed for the whole run; PassRepairIsExactIff covers one pass.
- Repair.PassesKeepExact: the chain switches between passes and stays fixed during each; MixedChunkIsExactIff says what a switch during a chunk can do.
- Races.AgreesIffUpToDate: a hash delivered twice is characterised for one thread only (RedeliveryAgreesIff), not under interleaving.
- Extract.ProcessRangeAdaptive: the range must end below 2^64 - 1, where the original would never leave its loop.
- Interleaving.PipelineAlways: any number of receipt workers may run at once, which includes the configured number.
