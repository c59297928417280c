# JDBC source task: batch-id querier and poll scheduler

A Dafny model of two parts of the Kafka Connect JDBC source connector (the
5.3.1 fork with a batch-id mode).

- **`BatchIdTableQuerier`**, the batch-mode querier:
  - its configuration checks, which require exactly one of a timestamp or an
    incrementing column and refuse a free-form query;
  - the batch type (LONG or TIMESTAMP);
  - the pre-run gate, which resolves a run-to bound from a gating query whose
    `__TABLE_NAME__` and `__OFFSET__` placeholders are filled in;
  - the per-row watermark step it reports to the batch-id manager;
  - the post-run commit of the bound.
- **`JdbcSourceTask`**, the task:
  - `start` checks that exactly one of tables and query is set, picks the query
    mode, finds each source's stored offset (newest offset protocol first),
    runs the optional NOT NULL check of the offset columns, and builds and
    queues one querier per source;
  - `poll` is the scheduler loop over a priority queue of queriers ordered by
    last update. It gates, sleeps, pulls at most `batch.max.rows` records,
    post-processes and requeues an exhausted querier, handles errors, and
    shuts down.

Modules:

| module | file | what it holds |
|---|---|---|
| `Wrappers` | wrappers.dfy | `Option`, `Result` |
| `Text` | text.dfy | `String.trim`, literal `replaceAll`, `Long.toString` and its inverse, ASCII lower-casing |
| `BatchConfig` | batch_config.dfy | `validateTimeStampColumn`, `validateBatchModeConfig`, `BatchModeInfo`, `getBatchType` |
| `BatchQuerier` | batch_querier.dfy | the transitions `GateStep`, `AfterStep`, `Commit` as functions; classes `BatchIdManager` and `BatchIdTableQuerier` whose methods are proved to follow them; lemmas about whole batch runs |
| `TaskSetup` | task_setup.dfy | what `start` decides: sources, partitions, offset lookup, `validateNonNullable`, the querier per mode |
| `QuerierQueue` | querier_queue.dfy | a querier as the scheduler sees it, the row pull as a function, the priority queue as a sorted sequence of querier indices |
| `SourceTask` | source_task.dfy | the task state, one pass of `poll` and the whole of `poll` as functions, and the class `JdbcSourceTask` whose `Start`, `Poll` and helpers are proved equal to them |

How the model is built:

- **Outside inputs are parameters.** The database and the offset storage appear
  as inputs:
  - the gating query's answer is a function from the SQL text to a
    `GateResult`;
  - the column descriptions are a function from the table to `Columns`;
  - stored offsets are a map from partition to offset;
  - what a querier's cursor will answer, across all its queries, is a script
    of `Step`s.
- **The running flag is a count.** It reads true `checksBeforeStop` times and
  then false, which stands for a `stop()` from another thread.
- **The clock is explicit.** It is a field, advanced only by the task's own
  sleeps.
- **Timestamps are integers**, in epoch milliseconds.
- **The queue and the queriers.** Queriers live in a sequence indexed in
  creation order. The `PriorityQueue` is a sequence of those indices kept
  sorted by `lastUpdate`; a querier is inserted behind every querier with the
  same `lastUpdate`.
- **Methods are proved against functions.** Each state-changing method is
  proved equal to a pure function of the old state: `PollRun`, `CycleStep`,
  `Batch`, `RequeueHead`, `Shutdown`, `GateStep` and `Commit`. Lemmas then
  prove the properties about those functions. The lemmas cover:
  - the queue stays well formed and keeps every querier;
  - cursors only move forward;
  - a returned batch is non-empty, at most `batchMaxRows` long, and
    consecutive rows of one querier;
  - the error and stop paths close the resources;
  - the commit and the gate fit together.

## Model

| member | source | states |
|---|---|---|
| Text.TrimStart | src/main/java/io/confluent/connect/jdbc/source/BatchIdTableQuerier.java:401 | the result is a suffix of the input, removes only characters <= U+0020, and does not start with one |
| Text.TrimEnd | src/main/java/io/confluent/connect/jdbc/source/BatchIdTableQuerier.java:401 | the result is a prefix of the input, removes only characters <= U+0020, and does not end with one |
| Text.Trim | src/main/java/io/confluent/connect/jdbc/source/BatchIdTableQuerier.java:467 | `trim` is never longer than its input and neither starts nor ends with a character <= U+0020 |
| Text.TrimIsInnerSlice | src/main/java/io/confluent/connect/jdbc/source/BatchIdTableQuerier.java:467 | `trim` yields a contiguous slice of its input |
| Text.TrimEmptyIffBlank | src/main/java/io/confluent/connect/jdbc/source/BatchIdTableQuerier.java:401 | `preQuery.trim().length() == 0` exactly when every character of the pre-query is trimmable |
| Text.ReplaceAll | src/main/java/io/confluent/connect/jdbc/source/BatchIdTableQuerier.java:473 | replacing a placeholder that does not occur leaves the template unchanged |
| Text.ReplaceSingle | src/main/java/io/confluent/connect/jdbc/source/BatchIdTableQuerier.java:473 | a template holding the placeholder exactly once, between `a` and `b`, becomes `a + replacement + b` |
| Text.NatString | src/main/java/io/confluent/connect/jdbc/source/BatchIdTableQuerier.java:477 | the text of a non-negative offset is digits only, with no leading zero |
| Text.NatStringValue | src/main/java/io/confluent/connect/jdbc/source/BatchIdTableQuerier.java:477 | the digits of a non-negative offset read back as that offset |
| Text.DecimalString | src/main/java/io/confluent/connect/jdbc/source/BatchIdTableQuerier.java:476-477 | the text `"" + runFromLong` substituted for `__OFFSET__` reads back as the offset, and starts with a minus sign exactly for a negative one |
| BatchConfig.ValidateTimestampColumn | src/main/java/io/confluent/connect/jdbc/source/BatchIdTableQuerier.java:113-130 | fails exactly for more than one column (multiple-columns error) or a single null/empty name (empty-column error); returns no column exactly for a null or empty list, else the single named column |
| BatchConfig.ValidateBatchModeConfig | src/main/java/io/confluent/connect/jdbc/source/BatchIdTableQuerier.java:135-162 | the four checks in their order (timestamp-list errors, neither column, both columns, non-empty query); succeeds exactly when the list is valid, exactly one column is set and there is no query, and then returns the timestamp column, null exactly when the incrementing column is set |
| BatchConfig.NewBatchModeInfo | src/main/java/io/confluent/connect/jdbc/source/BatchIdTableQuerier.java:91-107 | fails exactly when validation fails, with its error; on success it copies the pre-query, offsets table, start offset, table and timestamp-column list, keeps the validated timestamp column, and at most one of `timestampColumn` and `incrementingColumn` is set, and without a timestamp column the given incrementing column is kept |
| BatchConfig.BatchTypeFollowsConfiguredColumn | src/main/java/io/confluent/connect/jdbc/source/BatchIdTableQuerier.java:184-189 | given the validated configuration's own columns, exactly one column survives; the batch type is LONG iff it is the configured incrementing column and TIMESTAMP iff it is the single configured timestamp column |
| BatchConfig.GetBatchType | src/main/java/io/confluent/connect/jdbc/source/BatchIdTableQuerier.java:184-189 | LONG exactly without a timestamp column, TIMESTAMP exactly with one |
| BatchQuerier.BatchIdTableQuerier.constructor | src/main/java/io/confluent/connect/jdbc/source/BatchIdTableQuerier.java:191-226 | the batch type follows the timestamp column; the initial offset is the manager's last offsets whatever offset was stored; no bound is set |
| BatchQuerier.BatchIdTableQuerier.BeginTimestampValue | src/main/java/io/confluent/connect/jdbc/source/BatchIdTableQuerier.java:291-293 | the timestamp lower bound of a TIMESTAMP querier is the manager's last offset |
| BatchQuerier.BatchIdTableQuerier.EndTimestampValue | src/main/java/io/confluent/connect/jdbc/source/BatchIdTableQuerier.java:295-299 | the timestamp upper bound is the run-to bound for a TIMESTAMP querier and null for a LONG one |
| BatchQuerier.BatchIdTableQuerier.LastIncrementedValue | src/main/java/io/confluent/connect/jdbc/source/BatchIdTableQuerier.java:302-304 | the incrementing lower bound of a LONG querier is the manager's last offset |
| BatchQuerier.BatchIdTableQuerier.HighestIncrementedValue | src/main/java/io/confluent/connect/jdbc/source/BatchIdTableQuerier.java:306-309 | the incrementing upper bound is the run-to bound for a LONG querier and null for a TIMESTAMP one |
| BatchQuerier.BatchIdTableQuerier.SetBatchId | src/main/java/io/confluent/connect/jdbc/source/BatchIdTableQuerier.java:228-260 | the manager's last offset of the querier's type follows `AfterStep` (moves to the previous row's value only when that differs from the start offset and from the new value); the other type's last offset is untouched |
| BatchQuerier.BatchIdTableQuerier.ExtractRecord | src/main/java/io/confluent/connect/jdbc/source/BatchIdTableQuerier.java:262-288 | the row's offset becomes the current offset, `oldOffset` ends equal to it, the manager sees the step from the previous offset, and the bounds are unchanged |
| BatchQuerier.BatchIdTableQuerier.PreQueryStatement | src/main/java/io/confluent/connect/jdbc/source/BatchIdTableQuerier.java:466-500 | no statement exactly for a blank template; a trimmed template with neither placeholder is sent as it is |
| BatchQuerier.BatchIdTableQuerier.PreQueryFillsOffset | src/main/java/io/confluent/connect/jdbc/source/BatchIdTableQuerier.java:466-487 | a trimmed template with one `__OFFSET__` and no `__TABLE_NAME__` is sent with the placeholder replaced by the decimal last offset (LONG) or the quoted formatted last timestamp (TIMESTAMP) |
| BatchQuerier.BatchIdTableQuerier.PreQueryFillsTableName | src/main/java/io/confluent/connect/jdbc/source/BatchIdTableQuerier.java:466-473 | a trimmed template with one `__TABLE_NAME__` is sent with the placeholder replaced by the quoted `schema.table` name, when no `__OFFSET__` is left |
| BatchQuerier.BatchIdTableQuerier.PreQueryFillsBoth | src/main/java/io/confluent/connect/jdbc/source/BatchIdTableQuerier.java:466-487 | a trimmed template with one `__TABLE_NAME__` and, after the quoted name is in, one `__OFFSET__` is sent with the table name filled first and then the offset text (the decimal last offset for LONG) |
| BatchQuerier.BatchIdTableQuerier.SetRunToOffset | src/main/java/io/confluent/connect/jdbc/source/BatchIdTableQuerier.java:417-464 | a row sets the bound of the querier's type, and a bound the manager rejects is the upper-bound error; no row or an SQL failure leaves the bound as it was without error; a statement that cannot be prepared is an error |
| BatchQuerier.BatchIdTableQuerier.CheckPreRun | src/main/java/io/confluent/connect/jdbc/source/BatchIdTableQuerier.java:399-415 | the answer and the new bound are `GateStep` of blankness, the old bound and the gating query's answer; offsets are untouched |
| BatchQuerier.BatchIdTableQuerier.DoPreProcessing | src/main/java/io/confluent/connect/jdbc/source/BatchIdTableQuerier.java:323-326 | the same as `CheckPreRun` |
| BatchQuerier.GateOutcomes | src/main/java/io/confluent/connect/jdbc/source/BatchIdTableQuerier.java:399-415 | the gate runs iff the template is blank, a bound is already set, or the query returns a row the manager accepts; it waits iff the template is not blank, no bound is set and the query returns no row or fails, and then no bound is set |
| BatchQuerier.BatchIdTableQuerier.SetLastOffsetTimestamp | src/main/java/io/confluent/connect/jdbc/source/BatchIdTableQuerier.java:362-374 | follows `Commit` on the timestamp bound: commits and clears the bound exactly when it equals the last extracted timestamp, else changes nothing |
| BatchQuerier.BatchIdTableQuerier.SetLastOffsetLong | src/main/java/io/confluent/connect/jdbc/source/BatchIdTableQuerier.java:376-387 | follows `Commit` on the incrementing bound |
| BatchQuerier.BatchIdTableQuerier.SetLastCompletedOffsetInDB | src/main/java/io/confluent/connect/jdbc/source/BatchIdTableQuerier.java:331-353 | follows `Commit` on the bound of the querier's type; the other type's last offset is untouched |
| BatchQuerier.BatchIdTableQuerier.DoPostProcessing | src/main/java/io/confluent/connect/jdbc/source/BatchIdTableQuerier.java:311-321 | on a commit the next run's lower bound (`beginTimetampValue`/`lastIncrementedValue`) is this run's upper bound and the upper bound becomes null; without one nothing changes |
| BatchQuerier.FailedCommitKeepsGateOpen | src/main/java/io/confluent/connect/jdbc/source/BatchIdTableQuerier.java:405-408 | a commit that fails keeps the bound and the last offset, so the next gate runs without consulting the gating query |
| BatchQuerier.AfterRowsWithinBound | src/main/java/io/confluent/connect/jdbc/source/BatchIdTableQuerier.java:237-239 | while extracted offsets climb up to the bound, the manager's last offset never goes back and never passes the bound |
| BatchQuerier.AfterRowsRecordsLastStep | src/main/java/io/confluent/connect/jdbc/source/BatchIdTableQuerier.java:252-254 | after a run, the last offset is the next-to-last row's offset whenever the last two rows differ from each other and the next-to-last is not the start offset |
| BatchQuerier.BatchCycleWithinBound | src/main/java/io/confluent/connect/jdbc/source/BatchIdTableQuerier.java:362-387 | over a whole run and its commit, the last offset ends between its old value and the bound; the run commits iff the last row reaches the bound, and then the last offset is the bound and the bound is cleared |
| TaskSetup.SelectSources | src/main/java/io/confluent/connect/jdbc/source/JdbcSourceTask.java:105-114 | fails exactly when tables and query are both empty or both set; QUERY mode iff the query is non-empty, iterating `[query]`, else the tables |
| TaskSetup.FindOffset | src/main/java/io/confluent/connect/jdbc/source/JdbcSourceTask.java:186-195 | the offset of the first candidate partition that has one, or none exactly when no candidate has one |
| TaskSetup.PossibleTablePartitions | src/main/java/io/confluent/connect/jdbc/source/JdbcSourceTask.java:288-294 | exactly the protocol-V1 and protocol-V0 partitions of the table, V1 first |
| TaskSetup.RequestedContainsTable | src/main/java/io/confluent/connect/jdbc/source/JdbcSourceTask.java:123-133 | both offset-protocol partitions of every table are requested from the offset storage |
| TaskSetup.TableOffsetPrefersNewestProtocol | src/main/java/io/confluent/connect/jdbc/source/JdbcSourceTask.java:183-195 | a table's offset is the one stored under its protocol-V1 key, else the V0 key, else none |
| TaskSetup.NullabilityDecision | src/main/java/io/confluent/connect/jdbc/source/JdbcSourceTask.java:458-472 | passes iff the incrementing modes have a non-nullable incrementing column and the timestamp modes have a NOT NULL timestamp column; the incrementing check comes first |
| TaskSetup.ValidateNonNullable | src/main/java/io/confluent/connect/jdbc/source/JdbcSourceTask.java:422-477 | the column scan computes whether the last definition named like the incrementing column is optional and whether some other listed timestamp column is NOT NULL, case-insensitively; a describe failure is an error |
| TaskSetup.MakeQuerier | src/main/java/io/confluent/connect/jdbc/source/JdbcSourceTask.java:199-279 | bulk mode builds a bulk querier; batch-id mode builds a batch querier and fails exactly when the batch validation fails, with that error; a batch querier carries the configured pre-query, offsets table and start offset, the source and the offset found; the other modes build a timestamp/incrementing querier with exactly the configured timestamp columns unless incrementing mode, exactly the configured incrementing column unless timestamp mode, and the offset found |
| TaskSetup.BatchQuerierHasOneColumn | src/main/java/io/confluent/connect/jdbc/source/JdbcSourceTask.java:240-264 | in batch-id mode every querier has exactly one watermark column, LONG iff it is the non-empty incrementing column, and the task has no query |
| QuerierQueue.Pull | src/main/java/io/confluent/connect/jdbc/source/JdbcSourceTask.java:371-373 | a pull never takes more records than the cursor answers it used, nor uses more answers than there are |
| QuerierQueue.PullShape | src/main/java/io/confluent/connect/jdbc/source/JdbcSourceTask.java:366-375 | the records are the cursor's first answers, all rows; the loop stopped on the size bound with exactly `batchMaxRows` records, or with fewer on the end of the query (`!hadNext`), an SQL failure or another failure, each right after the records |
| QuerierQueue.PullBatchSize | src/main/java/io/confluent/connect/jdbc/source/JdbcSourceTask.java:371 | a batch holds at most `batchMaxRows` records, and exactly that many iff the loop stopped on the size bound |
| QuerierQueue.EndOf | src/main/java/io/confluent/connect/jdbc/source/JdbcSourceTask.java:371-402 | an answer that is not a row never ends the loop as a full batch; it is the end of the query exactly when `next()` returned false |
| QuerierQueue.PositionSplits | src/main/java/io/confluent/connect/jdbc/source/JdbcSourceTask.java:419 | the insertion point has every earlier querier not later than the new one, and the querier after it later |
| QuerierQueue.Insert | src/main/java/io/confluent/connect/jdbc/source/JdbcSourceTask.java:419 | adding a querier makes the queue one longer and keeps every entry a querier |
| QuerierQueue.InsertContents | src/main/java/io/confluent/connect/jdbc/source/JdbcSourceTask.java:419 | adding puts exactly the one new entry into the queue (as multisets) |
| QuerierQueue.InsertKeepsSorted | src/main/java/io/confluent/connect/jdbc/source/JdbcSourceTask.java:419 | adding to a queue ordered by last update keeps it ordered |
| QuerierQueue.InsertKeepsDistinct | src/main/java/io/confluent/connect/jdbc/source/JdbcSourceTask.java:419 | adding a querier that is not queued keeps the queue free of duplicates |
| QuerierQueue.InsertLatestAppends | src/main/java/io/confluent/connect/jdbc/source/JdbcSourceTask.java:200-202 | a querier no earlier than every queued one goes to the back, so `start` queues its queriers in source order |
| QuerierQueue.HeadIsEarliest | src/main/java/io/confluent/connect/jdbc/source/JdbcSourceTask.java:333 | the peeked head has the earliest last update |
| QuerierQueue.Requeue | src/main/java/io/confluent/connect/jdbc/source/JdbcSourceTask.java:414-420 | requeueing keeps the queue and the querier list their lengths and every entry a querier |
| QuerierQueue.RequeueKeepsWellFormed | src/main/java/io/confluent/connect/jdbc/source/JdbcSourceTask.java:414-420 | requeueing keeps the queue ordered, duplicate-free and holding the same queriers, leaves no query open, and moves no cursor |
| QuerierQueue.HeadUpdateKeepsWellFormed | src/main/java/io/confluent/connect/jdbc/source/JdbcSourceTask.java:367 | the head may open its query and read rows without breaking the queue's invariant |
| SourceTask.NewQuerier | src/main/java/io/confluent/connect/jdbc/source/JdbcSourceTask.java:199-279 | a new querier has no query open, last update 0 and its configuration; its pre-processing passes unless it is a batch querier whose gate says wait |
| SourceTask.SleepMs | src/main/java/io/confluent/connect/jdbc/source/JdbcSourceTask.java:350-354 | the sleep is the smaller of 100 ms and the time left to the next update: at most both, equal to one of them, and positive exactly when the next update is still ahead |
| SourceTask.AfterBatch | src/main/java/io/confluent/connect/jdbc/source/JdbcSourceTask.java:367-384 | after its turn the head has its query open, the same configuration and last update, its cursor advanced by exactly the answers used, and one more post-processing run iff the query was exhausted |
| SourceTask.BatchOutcome | src/main/java/io/confluent/connect/jdbc/source/JdbcSourceTask.java:386-402 | `null` exactly on an SQL failure, a rethrow exactly on another failure, another pass exactly when no record was read, else the non-empty batch |
| SourceTask.BatchIsNextRows | src/main/java/io/confluent/connect/jdbc/source/JdbcSourceTask.java:371-392 | a returned batch is non-empty, at most `batchMaxRows` long, and the cursor's next rows in order |
| SourceTask.RequeueHeadKeepsQueue | src/main/java/io/confluent/connect/jdbc/source/JdbcSourceTask.java:414-420 | requeueing the head keeps the queue well formed, the multiset of queued queriers unchanged, and no query open |
| SourceTask.RequeueHeadStamps | src/main/java/io/confluent/connect/jdbc/source/JdbcSourceTask.java:418 | the requeued head has last update = now and no query open, with the same cursor; no other querier changes |
| SourceTask.RequeueHeadToBack | src/main/java/io/confluent/connect/jdbc/source/JdbcSourceTask.java:414-420 | when no querier's last update is later than now, the head goes to the back of the queue |
| SourceTask.BatchPostProcesses | src/main/java/io/confluent/connect/jdbc/source/JdbcSourceTask.java:375-384 | post-processing runs on the head exactly when its query was exhausted |
| SourceTask.BatchRequeues | src/main/java/io/confluent/connect/jdbc/source/JdbcSourceTask.java:375-398 | the head is reset (query closed, stamped with now) exactly when the batch did not fill up; a full batch leaves the queue unchanged and the head mid-query |
| SourceTask.BatchKeepsQueue | src/main/java/io/confluent/connect/jdbc/source/JdbcSourceTask.java:364-402 | the head's turn keeps the queue well formed with every querier in it |
| SourceTask.BatchAdvances | src/main/java/io/confluent/connect/jdbc/source/JdbcSourceTask.java:364-402 | the head's turn only moves cursors forward and changes no configuration |
| SourceTask.CycleKeepsQueue | src/main/java/io/confluent/connect/jdbc/source/JdbcSourceTask.java:332-402 | one pass of the loop keeps the queue well formed with every querier in it |
| SourceTask.CycleAdvances | src/main/java/io/confluent/connect/jdbc/source/JdbcSourceTask.java:332-402 | one pass only moves cursors forward |
| SourceTask.CycleBatch | src/main/java/io/confluent/connect/jdbc/source/JdbcSourceTask.java:364-392 | a batch one pass returns is non-empty, at most `batchMaxRows` long, and the head's next rows |
| SourceTask.CycleResources | src/main/java/io/confluent/connect/jdbc/source/JdbcSourceTask.java:397-402 | one pass closes the provider and the dialect when it rethrows and leaves them alone otherwise |
| SourceTask.Shutdown | src/main/java/io/confluent/connect/jdbc/source/JdbcSourceTask.java:405-411 | after a stop the provider and the dialect are closed |
| SourceTask.PollKeepsQueue | src/main/java/io/confluent/connect/jdbc/source/JdbcSourceTask.java:326-412 | whatever `poll` returns, the queue is well formed and holds the same queriers |
| SourceTask.PollAdvances | src/main/java/io/confluent/connect/jdbc/source/JdbcSourceTask.java:326-412 | whatever `poll` returns, every querier keeps its configuration and its cursor only moved forward |
| SourceTask.PollBatch | src/main/java/io/confluent/connect/jdbc/source/JdbcSourceTask.java:364-392 | a batch `poll` returns is never empty, holds at most `batchMaxRows` records, and is consecutive rows of one querier's cursor |
| SourceTask.PollStopped | src/main/java/io/confluent/connect/jdbc/source/JdbcSourceTask.java:405-411 | after a stop `poll` returns `null`, the resources are closed, and no queued querier is mid-query |
| SourceTask.PollResources | src/main/java/io/confluent/connect/jdbc/source/JdbcSourceTask.java:393-402 | a rethrow leaves the resources closed; a return that is neither a stop nor a rethrow leaves them as they were |
| SourceTask.RequestPartitions | src/main/java/io/confluent/connect/jdbc/source/JdbcSourceTask.java:120-143 | the partitions requested are `RequestedPartitions`: the query partition in QUERY mode, else V1 then V0 of each table in order |
| SourceTask.BuildQuerier | src/main/java/io/confluent/connect/jdbc/source/JdbcSourceTask.java:157-279 | one loop body equals `QuerierFor`: the NOT NULL check in TABLE mode when enabled, then the offset lookup, then the querier for the mode |
| SourceTask.BuildQueriers | src/main/java/io/confluent/connect/jdbc/source/JdbcSourceTask.java:157-280 | the queriers are built and queued in source order up to the first failure, which is reported; the queue is well formed |
| SourceTask.PullRows | src/main/java/io/confluent/connect/jdbc/source/JdbcSourceTask.java:367-373 | the row loop takes exactly `Pull`'s records, ends as `Pull` says, and leaves the querier mid-query with the used answers consumed |
| SourceTask.JdbcSourceTask.Start | src/main/java/io/confluent/connect/jdbc/source/JdbcSourceTask.java:83-284 | opens the dialect and provider; fails on tables XOR query; otherwise queues one querier per source in order, each `NewQuerier(QuerierFor(...))`, up to the first failing source, whose error is returned |
| SourceTask.JdbcSourceTask.ResetAndRequeueHead | src/main/java/io/confluent/connect/jdbc/source/JdbcSourceTask.java:414-420 | the new state is `RequeueHead` of the old; the queue stays well formed with the same queriers and none mid-query |
| SourceTask.JdbcSourceTask.CloseResources | src/main/java/io/confluent/connect/jdbc/source/JdbcSourceTask.java:304-324 | the provider and the dialect are both closed afterwards |
| SourceTask.JdbcSourceTask.TakeTurn | src/main/java/io/confluent/connect/jdbc/source/JdbcSourceTask.java:364-402 | the new state and the result are `Batch` of the old state |
| SourceTask.JdbcSourceTask.Cycle | src/main/java/io/confluent/connect/jdbc/source/JdbcSourceTask.java:332-402 | the new state and the result are `CycleStep` of the old state |
| SourceTask.JdbcSourceTask.Stop | src/main/java/io/confluent/connect/jdbc/source/JdbcSourceTask.java:405-411 | the new state is `Shutdown` of the old |
| SourceTask.JdbcSourceTask.Poll | src/main/java/io/confluent/connect/jdbc/source/JdbcSourceTask.java:326-412 | the new state, the result and whether it stopped are `PollRun` of the old state |

## Left out

- JDBC, dialect and connection-provider calls are not modelled. This covers `Connection`, `PreparedStatement`, `ResultSet`, auto-commit, `describeColumns`, `parseTableIdentifier` and the provider's retry policy. Their results are inputs.
- `maybeStartQuery` and the statement it builds from the bounds are not modelled. A failure to start the query is folded into the querier's cursor script, as an SQL or other failure.
- The internals of `BatchIdManager` and `JdbcBatchIdManager` are not part of this model. The manager is its last and start offsets plus a `checkRunToOffset` oracle.
- `createBatchIdManager`, table-id parsing and the schema-qualified table name are not modelled. The table name is a parameter.
- The date formatter of `getPreQueryStatement` is an abstract function from milliseconds to text.
- `replaceAll` is modelled as literal replacement. The two placeholders hold no regex metacharacters, but Java also reads `$` and `\` in the replacement text as group references and escapes. A schema or table name containing either makes line 473 throw `IllegalArgumentException` or insert a matched group instead of the name. The model always inserts the name as it is. The offset texts contain neither character.
- A template where a placeholder occurs more than once is covered only by `ReplaceAll` itself. `PreQueryFillsOffset`, `PreQueryFillsTableName` and `PreQueryFillsBoth` state the cases with at most one occurrence of each placeholder, counted after the table name is filled in.
- The `ConnectException` thrown when closing the result set or the statement fails in `setRunToOffset`'s `finally` block (lines 452-462) is not modelled. The model's database has no close failure, so every gate outcome closes cleanly.
- `Text.Lower` lower-cases ASCII letters only. `toLowerCase(Locale.getDefault())` and `equalsIgnoreCase` on other characters are not modelled.
- SQL NULL in the gating row is not modelled. `rs.getTimestamp(1)` returning null would throw from `toString` at line 430. Every gating row carries a value.
- The querier's `oldOffset` must be set before a commit. This is a precondition, not the `NullPointerException` that a commit before any row would throw.
- Timestamps are whole milliseconds and longs are unbounded integers. `Timestamp.equals` on nanoseconds and long overflow are not modelled.
- Record construction is not modelled: `Struct`, `SchemaMapping`, the topic prefix, the timestamp delay and the time zone. A record is its source and a row value.
- Logging, the static `DEBUG` flag and the debug offset list are left out.
- The `running` flag is the number of times it reads true. Concurrency with `stop()` is not modelled.
- The clock is not modelled as real time. It moves only by the task's own sleeps, so other elapsed time is not represented.
- `SourceTask.CycleStep` fixes each querier's pre-processing answer when the querier is created, in its `ready` field. The repeated gate queries of the same querier are modelled by `BatchIdTableQuerier.CheckPreRun`, not inside the scheduler.
- A `ConnectException` thrown by `doPreProcessing` inside `poll` is not modelled. That is the fatal gate outcome, which escapes at line 336 outside the try block.
- `doPostProcessing` inside the scheduler is a count of post-processing runs per querier. Its effect on the watermark is modelled by `BatchIdTableQuerier.DoPostProcessing`.
- `SourceTask.JdbcSourceTask.Poll` requires a non-empty queue. With an empty queue, `poll` dereferences a null head while running.
- `SourceTask.JdbcSourceTask.Start` requires a task with no queriers yet. Configuration parsing and dialect selection are left out, and `mode` is one of the five known modes, so the `endsWith` test at line 265 is an equality.
- Queue order among queriers with equal `lastUpdate` is modelled as first-in first-out. `TableQuerier.compareTo` is not part of this model.
- `closeResources` swallows failures to close. The model treats both resources as closed afterwards, which is what the code's `finally` blocks guarantee.

Two behaviours of the code that a reader might not expect, both of which the model follows:
- When pre-processing says "defer", `resetAndRequeueHead` stamps the querier with the current time, so it goes behind every querier that is due. It does not keep its position.
- A failed commit keeps the run-to bound. The next `checkPreRun` therefore returns true without consulting the gating query, and the incomplete run is not re-gated.
