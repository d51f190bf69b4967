# Bösen parameter server: a verified model

Bösen is a key-value store of numeric rows for machine-learning programs that run on many machines. Application
threads add to rows and read them; each process caches rows and collects its updates; background workers send the
updates to server threads in batches; servers add them up, keep a vector clock of their clients, and answer reads that
may be stale by a bounded number of iterations (stale-synchronous-parallel, SSP). Under SSPPush the servers also push
changed rows to their subscribers whenever the minimum clock moves.

The model has four layers.

1. **The protocol as a step machine** (`Protocol`): any number of clients, threads, channels and tables. One step is
   what the source does under one lock or for one message: an update, a flush of one row, the parts of `Clock`, taking
   an index, erasing an oplog, packing and sending a batch, serving a message, delivering one, a read. Every row is
   kept as numbers and as the set of updates it is meant to hold, so that staleness is set inclusion and conservation
   is a sum. `Invariant` says what every reachable state satisfies; the `...Steps` modules show it of each step;
   `Safety` and `Conservation` draw the theorems from it. `Liveness` shows that it cannot get stuck: from every
   reachable state it can go on until a given read passes, and until all updates are at the servers.
2. **The server thread** (`ServerSpec`, `ServerThreads`): `ServerSpec` is the abstract server that the step machine
   uses. The classes `Server` and `ServerThread` work on the bytes of messages, and every method is proved to do what
   `ServerSpec` says.
3. **Bytes**. The oplog pipeline: `RowOpLogBytes`, `SparseVectorBytes`, `OpLogSenders` (a batch becomes one message for
   each server), `OpLogFormat` (layout and cursor reader), `OpLogPipeline` (end to end). The pushed rows: `PushFormat`
   (layout and reader), `RecordBuffs`, `PushRows` and `PushSender` (the pass that stops and resumes inside a row),
   `PushPipeline` (end to end), `PartialPush` (the pass that computes exact sizes first).
4. **Objects on their own**: the thread cache and the consistency controllers (`RowOpLogs`, `TableOpLogs`,
   `ThreadTables`, `Consistency`), `TableGroups`, `VectorClocks`, the name node (`NameNodes`), the sparse feature vector
   (`SparseFeatures`), the decision tree (`DecisionTrees`) and the division of data among threads (`Workloads`).
   `ClientSteps` and `WorkerSteps` show that what the methods of the client's objects do is what the steps of `Protocol`
   do.

`dafny verify dfyconfig.toml` checks everything. Integers are unbounded except where they are written to memory
(`Codec`); deltas are integers.

## What the theorems need

- **Clocks advance by one.** `GetFulfilledRowRequests` looks up only the exact new minimum. In the step machine every
  clock message raises its sender's clock by one, which is proved (`Safety.VersionsNeverMismatch`), so nobody is
  stranded (`Safety.NobodyIsStranded`). For a server on its own, `ServerSpec.ClockStrandsIff` gives the exact condition
  under which a larger jump strands a read, and `ServerSpec.JumpStrands` a run in which it does.
- **A row and its frame fit.** A push message must have room for one row together with a table id; the configured number
  of tables must be the number of tables (server.cpp:202).
- **Markers.** Row ids are never -1 or -2, which mark separators and ends of pushed messages; rows and tables are
  numbered from zero.
- **Dense oplogs.** The methods of `TableOpLogs.TableOpLog`, `ThreadTables` and `Consistency` work on either kind of
  table oplog. Of a `DenseOpLog` they need row ids below its capacity (`TableOpLog.HasPlace`): exactly those rows have a
  slot of their own (`TableOpLogs.OwnSlotIff`), and `TableOpLogs.SharedSlot` shows what happens to others. Columns of a
  dense row oplog are below its size.
- **Progress.** `Liveness` says what can happen, not that a scheduler makes it happen.
- **Fairness of creating tables**: each client asks once for each table, each server replies once.

## Where the code does not do what one would expect

- A server clock that jumps by more than one past a clock somebody waits for leaves that read unanswered for ever
  (`ServerSpec.ClockStrandsIff`, `ServerSpec.StrandedForever`, and `ServerSpec.JumpStrands` for an example;
  server.cpp:97-114).
- `SparseVectorRowOpLog::SerializeSparse` counts the updates that are not zero but writes those that are
  (sparse_vector_row_oplog.hpp:122). What it selects is right exactly if there is no update
  (`RowOpLogBytes.SparseVectorRightIff`); what it leaves in memory can be read exactly if there was nothing to write, or
  no update is zero and the memory happened to hold the row oplog before (`SparseVectorBytes.SparseVectorReadsIff`). A
  single update of one is read as an update of zero (`SparseVectorBytes.SparseVectorLosesUpdate`).
- Row ids at or above the capacity of a `DenseOpLog` share slots: with two slots, an update of row 1 is handed over as
  one of row 3 (`TableOpLogs.SharedSlot`).
- Without configured tables the name node never announces that all tables exist (`NameNodes.ToldIff`).
- `SparseFeature::SetFeatureVal` stores a zero if a feature without an entry is set to zero, although the number of
  entries is documented to count those that are not zero (`SparseFeatures.NoZerosIff`, and `SparseFeatures.StoreZero`
  for an example). Its comment says descending order; the code keeps ascending order, and so does the model.
- A thread oplog whose walk gives no column (a dense one that cancelled out to zero) is dropped without entering the
  index (thread_table.cpp:241-260). The step machine has this as a step of its own, and the theorems hold with it,
  because what is dropped adds up to zero.
- Overwriting a row oplog that is not new loses updates exactly if it holds something in those columns
  (`RowOpLogs.OverwriteAddsIff`); the code only does it right after creating one.

## Model

| member | source | states |
|---|---|---|
| Safety.EveryRunKeeps | src/petuum_ps/consistency/ssp_consistency_controller.cpp:250-254 | every reachable state of the whole protocol, whatever the interleaving, satisfies the invariant |
| Safety.StepKeeps | src/petuum_ps/server/server_thread.cpp:165-246 | each of the twenty-one kinds of step keeps the invariant |
| Safety.StalenessBound | src/petuum_ps/consistency/ssp_consistency_controller.cpp:36-75 | a read that passes the freshness check returns the exact sum of a set of updates that has every update of any thread from iterations before clock minus staleness, and all flushed updates of the reader's own process; and no thread lags further behind than the staleness |
| Safety.ThreadCacheStaleness | src/petuum_ps/consistency/ssp_consistency_controller.cpp:177-228 | the same for rows in the thread cache for as long as they stay there, and the thread's own unflushed updates are in them |
| Safety.BarrierShowsAll | src/petuum_ps/client/table_group.cpp:185-189 | after the largest staleness plus one clocks, every read sees every update made by any thread up to the barrier |
| Safety.PushRefreshesAll | src/petuum_ps/consistency/ssp_push_consistency_controller.cpp:70-93 | once a client has consumed a server's push for clock m, every row of that server that it caches has all updates from iterations before m, carried by the push or not |
| Safety.CleanMeansSent | src/petuum_ps/server/server_table.cpp:28-54 | a client that holds a copy of a row is subscribed; if the row is clean at the server, the last copy sent has exactly the updates that the row has now: on its way it has the row's numbers, and taken in it is cached as the row's numbers plus updates of the client's own threads, each once |
| Safety.ReplyReflectsVersion | src/petuum_ps/server/server_thread.cpp:185-201 | a reply with version v has of the receiver's own updates exactly those in its batches before v, and is as fresh as the clock it carries |
| Safety.ReplyLetsReadPass | src/petuum_ps/thread/abstract_bg_worker.cpp:839-867 | in every run, taking in a reply whose clock is no more than the staleness behind a reader's lets that reader's read of the row pass |
| Safety.VersionsNeverMismatch | src/petuum_ps/server/server.cpp:116-120 | the version check never fails: every batch arrives whole, in order, with the sender's clock plus one |
| Safety.IndexCoverage | src/petuum_ps/oplog/oplog_index.cpp:28-46 | every update waiting in a table oplog is named by its thread's index, the shared index, or what the worker took and has not drained |
| Safety.DrainShipsAll | src/petuum_ps/thread/ssp_bg_worker.cpp:88-127 | when a worker has drained for a clock message, everything written up to that iteration has left the table oplogs |
| Safety.NobodyIsStranded | src/petuum_ps/server/server.cpp:77-114 | no reachable server has anybody waiting for a clock that it has reached |
| Conservation.NothingLostOrDoubled | src/petuum_ps/client/thread_table.cpp:220-260 | in every reachable state, per row and column: thread oplogs, table oplogs, batches being gathered and batches not applied, plus the server row, add up to all deltas ever passed to Inc |
| Liveness.NoReadIsStuck | src/petuum_ps/consistency/ssp_consistency_controller.cpp:36-75 | from every reachable state, whatever row a thread wants to read: without a step of that thread and without a new update the run can go on until the check lets the read through, at the clock the thread has |
| Liveness.EverythingCanArrive | src/petuum_ps/thread/ssp_bg_worker.cpp:88-127 | from every reachable state, without a new update the run can go on until every server row is, in every column, the sum of all deltas ever made |
| Liveness.ThreadCatchesUp | src/petuum_ps/client/table_group.cpp:178-213 | by its own steps alone a thread gets out of Clock, and to any clock |
| Liveness.WorkerCatchesUp | src/petuum_ps/thread/abstract_bg_worker.cpp:611-641 | by its own steps alone a worker becomes idle with every posted clock sent |
| Liveness.GoodStep | src/petuum_ps/server/server_thread.cpp:203-246 | every step keeps two lower bounds: clients post all clocks that their slowest thread has reached, and under SSPPush clients are pushed every minimum that a server reaches |
| UpdateSteps.IncKeeps | src/petuum_ps/consistency/ssp_consistency_controller.cpp:77-92 | an update straight to the table oplog keeps the invariant |
| UpdateSteps.ThreadIncKeeps | src/petuum_ps/client/thread_table.cpp:133-152 | an update to the thread cache keeps the invariant |
| FlushSteps.FlushRowKeeps | src/petuum_ps/client/thread_table.cpp:220-260 | moving one thread oplog to the table oplog, process row and index keeps the invariant, also when it cancelled out |
| ClockSteps.TickKeeps | src/petuum_ps/client/table_group.cpp:204-213 | ticking after all flushes keeps the invariant |
| ClockSteps.AddIndexKeeps | src/petuum_ps/client/thread_table.cpp:87-96 | publishing one channel's index keeps the invariant |
| ReadSteps.FetchKeeps | src/petuum_ps/client/thread_table.cpp:107-128 | cloning a process row into the thread cache keeps the invariant |
| ReadSteps.ForgetKeeps | src/petuum_ps/client/thread_table.cpp:207-218 | dropping a thread's cached rows of a table in mid-iteration keeps the invariant |
| BgSteps.TakeKeeps | src/petuum_ps/oplog/oplog_index.cpp:39-46 | taking and resetting the shared index keeps the invariant |
| BgSteps.EraseKeeps | src/petuum_ps/oplog/sparse_oplog.cpp:144-155 | erasing a table oplog into the batch keeps the invariant, while other threads go on updating |
| SendSteps.PackKeeps | src/petuum_ps/thread/ssp_bg_worker.cpp:247-254 | numbering and tracking a batch keeps the invariant |
| SendSteps.SendKeeps | src/petuum_ps/thread/abstract_bg_worker.cpp:611-641 | sending one server its part, or an empty clock message, keeps the invariant |
| ApplySteps.ServeKeeps | src/petuum_ps/server/server_thread.cpp:203-246 | handling a message at a server, with the replies and pushes it releases, keeps the invariant |
| DeliverSteps.DeliverKeeps | src/petuum_ps/thread/abstract_bg_worker.cpp:727-896 | storing a reply or a push, with newer oplogs applied again, keeps the invariant |
| DeliverSteps.ReplyIsStored | src/petuum_ps/thread/abstract_bg_worker.cpp:839-867 | the row is cached with the reply's clock, copy and version, whether it was cached before or not; all other rows stay |
| DeliverSteps.PushIsStored | src/petuum_ps/thread/ssp_push_bg_worker.cpp:12-75 | a push refreshes the rows that are cached and leaves their clocks alone; it adds no row and carries the server's clock |
| ServerSpec.EveryReadIsAnsweredOnce | src/petuum_ps/server/server.cpp:77-114 | over any run of one server in which clocks advance by one, every read was answered exactly once or still waits for a clock not reached |
| ServerSpec.EachReadCounts | src/petuum_ps/server/server.cpp:77-114 | counted one by one, a client's requests for a row are as many as the replies it was sent and the places where one still waits |
| ServerSpec.AnswersAreFreshEnough | src/petuum_ps/server/server_thread.cpp:165-183 | every answer is for a request that was made, and carries at least the clock asked for |
| ServerSpec.ClockStrandsIff | src/petuum_ps/server/server.cpp:97-114 | a clock message strands a read exactly if it moves the minimum over a clock that somebody waits for |
| ServerSpec.StrandedForever | src/petuum_ps/server/server.cpp:97-114 | a read for a clock that was passed is never answered, whatever follows |
| ServerSpec.JumpStrands | src/petuum_ps/server/server.cpp:97-114 | two clients, one at clock 2 with a read waiting for clock 1: when the other goes from 0 to 2, the read is stranded, and stays so whatever follows |
| Protocol.PartitionValid | src/petuum_ps/thread/context.hpp:279-294 | the round-robin partition gives every row a server thread that exists, so the protocol's theorems apply to it |
| Rows.MergeOk | src/petuum_ps/client/thread_table.cpp:241-260 | adding one row of updates to another gives the sum of both sets of updates |
| VectorClocks.TickUntilValid | src/petuum_ps_common/util/vector_clock.cpp:38-50 | ticking up to a clock leaves the other entries alone and the minimum exact |
| VectorClocks.VectorClock.AddClock | src/petuum_ps_common/util/vector_clock.cpp:19-26 | a new entry keeps the minimum exact, and setting one that is there already does so exactly if it was not the only least one or is not raised |
| VectorClocks.VectorClock.IsUniqueMin | src/petuum_ps_common/util/vector_clock.cpp:66-79 | true exactly if this entry alone is least |
| VectorClocks.VectorClock.Tick | src/petuum_ps_common/util/vector_clock.cpp:28-36 | the new minimum if it moved, else 0; the minimum stays exact |
| VectorClocks.VectorClock.TickUntil | src/petuum_ps_common/util/vector_clock.cpp:38-50 | the last minimum that it moved to, else 0; ties the loop to the specification |
| ServerThreads.Server.constructor | src/petuum_ps/server/server.cpp:17-28 | all clocks 0, all versions before the first |
| ServerThreads.Server.FindCreateRow | src/petuum_ps/server/server.cpp:43-57 | the row as the abstract server has it, created as zero if missing |
| ServerThreads.Server.ClockUntil | src/petuum_ps/server/server.cpp:59-75 | raises one clock; reports exactly whether the minimum moved |
| ServerThreads.Server.AddRowRequest | src/petuum_ps/server/server.cpp:77-95 | the request waits behind the same client's earlier ones for the same clock, and nothing else changes |
| ServerThreads.Server.GetFulfilledRowRequests | src/petuum_ps/server/server.cpp:97-114 | exactly the requests waiting for the new minimum, each client's in order, and they wait no longer |
| ServerThreads.Server.ApplyRowOpLog | src/petuum_ps/server/server_table.hpp:108-117 | adds a row oplog to its row and marks it dirty, or reports that there is none |
| ServerThreads.Server.ApplyBatchInc | src/petuum_ps/server/server_row.hpp:36-41 | applying the listed columns one by one adds to each column the sum of its items, and nothing to others |
| ServerThreads.Server.ApplyDenseBatchInc | src/petuum_ps/server/server_row.hpp:52-55 | value number n is added to column n, and nothing to columns beyond the last |
| ServerThreads.Server.ApplyOpLogUpdateVersion | src/petuum_ps/server/server.cpp:116-169 | parsing the bytes and applying them row by row is the abstract Apply of the batch that the bytes stand for, with missing rows created as zero |
| ServerThreads.ServerThread.HandleRowRequest | src/petuum_ps/server/server_thread.cpp:165-183 | a client that asks for a clock not reached waits and is sent nothing; any other is sent one reply with the row as it is stored (zero if there is none), the minimum clock and the client's version; state and messages are those of the abstract server |
| ServerThreads.ServerThread.HandleOpLogMsg | src/petuum_ps/server/server_thread.cpp:203-246 | apply, clock, answers and push together give the abstract server's next state; if the minimum moves, each client is sent a reply to each of its requests that waited for it, in order, with the row as stored afterwards, clock and version, and then under SSPPush its dirty subscribed rows; otherwise nothing |
| ServerThreads.ServerThread.ServerPushRow | src/petuum_ps/server/ssp_push_server_thread.cpp:28-32 | each client is sent its subscribed dirty rows, then they are clean |
| ServerThreads.ToIs | src/petuum_ps/server/server_thread.cpp:185-201 | the messages of a client are all that was sent to it, each as often as it was sent |
| ServerThreads.PlusIsApply | src/petuum_ps/server/server.cpp:146-168 | adding totals row by row is the abstract Apply on cells |
| RowOpLogBytes.SerializeSparse | src/petuum_ps_common/oplog/sparse_row_oplog.hpp:138-154 | the two cursors write exactly the layout, in the announced size, and nothing around it |
| RowOpLogBytes.SerializeDenseAsSparse | src/petuum_ps_common/oplog/dense_row_oplog.hpp:112-131 | writes exactly the columns that are not zero, if they were counted beforehand |
| RowOpLogBytes.CountNonZeros | src/petuum_ps_common/oplog/dense_row_oplog.hpp:91-101 | counts as many as will be written |
| RowOpLogBytes.KeptCounts | src/petuum_ps_common/oplog/dense_row_oplog.hpp:112-131 | what is written has each update that passes the test as often as it was there, and no other |
| RowOpLogBytes.DenseReadBack | src/petuum_ps_common/oplog/dense_row_oplog.hpp:112-131 | reading back gives each column that is not zero with its update, and no other |
| RowOpLogBytes.SparseVectorRightIff | src/petuum_ps_common/oplog/sparse_vector_row_oplog.hpp:109-131 | the updates selected for writing are those that were counted exactly if there is no update |
| SparseVectorBytes.SerializeSparseVector | src/petuum_ps_common/oplog/sparse_vector_row_oplog.hpp:109-131 | returns the announced size, and leaves the count, the zero updates at the two cursors, and everything else as it was |
| SparseVectorBytes.SparseVectorReadsIff | src/petuum_ps_common/oplog/sparse_vector_row_oplog.hpp:109-131 | the row oplog of the updates that are not zero is in the message exactly if there are none, or none is zero and its bytes were there before |
| SparseVectorBytes.SparseVectorLosesUpdate | src/petuum_ps_common/oplog/sparse_vector_row_oplog.hpp:122-123 | in zeroed memory an update of 1 is read as an update of 0 |
| OpLogSenders.OpLogSerializer.Init | src/petuum_ps/client/oplog_serializer.hpp:12-32 | every table present gets the offset behind the ones before it; total size, 0 for no table |
| OpLogSenders.LogSizeExact | src/petuum_ps_common/oplog/sparse_row_oplog.hpp:123-127 | the announced size of a row oplog is the number of bytes it is written to |
| OpLogSenders.OpLogSender.CountTable | src/petuum_ps/thread/abstract_bg_worker.cpp:643-659 | the bytes counted for each server are those its rows will take |
| OpLogSenders.OpLogSender.FinalizeOpLogMsgStats | src/petuum_ps/thread/abstract_bg_worker.cpp:528-548 | a server gets a table exactly if it has rows of it |
| OpLogSenders.OpLogSender.SerializeByServer | src/petuum_ps/thread/bg_oplog_partition.cpp:29-73 | in one pass every server's region becomes its row count and its rows in order; all other bytes stay |
| OpLogSenders.OpLogSender.CreateOpLogMsgs | src/petuum_ps/thread/abstract_bg_worker.cpp:550-609 | each server's message is, byte for byte, the encoding of its part of the batch; servers without rows get none |
| OpLogSenders.OpLogSender.HandleClockMsg | src/petuum_ps/thread/abstract_bg_worker.cpp:388-400 | the same from the rows of a batch to the messages, sizes included, whatever earlier batches left behind |
| OpLogSenders.ServersReadTheirRows | src/petuum_ps/thread/bg_oplog_partition.cpp:45-72 | what a server reads from its message is exactly the batch's row oplogs for rows it stores, in order |
| OpLogSenders.ReadOnce | src/petuum_ps/thread/bg_oplog_partition.cpp:45-72 | each row oplog is read as often as it is in the batch by its own server, and never by another |
| OpLogSenders.RowsArriveOnce | src/petuum_ps/thread/bg_oplog_partition.cpp:29-73 | counted one by one: a server reads a row oplog of a table from its message as often as the batch has it for that table if the server stores the row, and not at all otherwise |
| OpLogFormat.LogAt | src/petuum_ps_common/oplog/sparse_row_oplog.hpp:134-154 | parsing a row oplog that was written gives it back, and its size |
| OpLogFormat.SparseLayout | src/petuum_ps_common/oplog/sparse_row_oplog.hpp:138-154 | where everything in a sparse row oplog is: the count, the column ids four bytes apart from 4 on, and behind them the updates |
| OpLogFormat.ReadMsg | src/petuum_ps/server/serialized_oplog_reader.hpp:11-16 | round trip for whole messages, with empty tables and without tables |
| OpLogFormat.SerializedOpLogReader.Restart | src/petuum_ps/server/serialized_oplog_reader.hpp:28-37 | positions the cursor before everything in the message; false only if there is nothing |
| OpLogFormat.SerializedOpLogReader.Next | src/petuum_ps/server/serialized_oplog_reader.hpp:39-71 | returns the remaining row oplogs one by one over table ends and empty tables, and says so when the table may have changed |
| OpLogPipeline.TotalSplits | src/petuum_ps/thread/bg_oplog_partition.cpp:45-58 | of the batch's total a server gets its own rows whole and no other |
| OpLogPipeline.BatchArrives | src/petuum_ps/server/server.cpp:116-169 | split, serialized, read and applied: each row grows by the batch's total at the one server that stores it |
| Codec.DecEnc32 | src/petuum_ps/server/serialized_oplog_reader.hpp:28-37 | a signed 32-bit integer in memory reads back |
| Codec.DecEncSize | src/petuum_ps/server/callback_subs.hpp:67-68 | a size in memory reads back |
| Codec.LittleEndian | src/petuum_ps_common/oplog/sparse_row_oplog.hpp:138-154 | integers lie in memory lowest byte first, as on the machines that the source assumes |
| Codec.TwosComplement | src/petuum_ps_common/oplog/sparse_row_oplog.hpp:138-154 | negative integers are written as two's complement |
| Codec.SizeBytes | src/petuum_ps_common/util/record_buff.hpp:41-57 | sizes take eight bytes, low half first |
| PushFormat.DecodeEncoded | src/petuum_ps/client/serialized_row_reader.hpp:39-93 | decoding any sound sequence of rows, table ids, separators and end, whatever memory follows, gives each row with its table |
| PushFormat.SerializedRowReader.Restart | src/petuum_ps/client/serialized_row_reader.hpp:39-47 | positions the reader before the first row of the message; false only if there is none |
| PushFormat.SerializedRowReader.Next | src/petuum_ps/client/serialized_row_reader.hpp:49-93 | returns the remaining rows one by one, stepping over separators, and stops at the end marker or the end of memory |
| PushFormat.ReadAll | src/petuum_ps/thread/ssp_push_bg_worker.cpp:44-85 | the client's loop reads exactly what the message decodes to |
| RecordBuffs.RecordBuff.Append | src/petuum_ps_common/util/record_buff.hpp:41-57 | id, size and bytes are written behind what is there exactly if they fit; otherwise nothing is |
| RecordBuffs.RecordBuff.PutInt32 | src/petuum_ps_common/util/record_buff.hpp:59-67 | appends four bytes exactly if they fit |
| PushRows.CallBackSubs.Subscribe | src/petuum_ps/server/callback_subs.hpp:20-27 | subscribes; true exactly if that is new |
| PushRows.CallBackSubs.Unsubscribe | src/petuum_ps/server/callback_subs.hpp:29-36 | unsubscribes; true exactly if there was a subscription |
| PushRows.CallBackSubs.AppendRowToBuffs | src/petuum_ps/server/callback_subs.hpp:38-58 | the row goes to every subscriber from the starting client up to the first without room, which is reported, and to nobody else |
| PushRows.ServerRow.Subscribe | src/petuum_ps/server/server_row.hpp:74-77 | the count of subscribers stays exact |
| PushRows.ServerRow.Unsubscribe | src/petuum_ps/server/server_row.hpp:83-86 | the count of subscribers stays exact |
| PushRows.ServerTable.AppendTableToBuffs | src/petuum_ps/server/server_table.cpp:12-57 | from wherever it stopped, every due row before the stopping point has gone exactly once to each subscriber and is clean; on failure it has stopped at a row and client that it can resume from |
| PushSender.DueIff | src/petuum_ps/server/server_table.cpp:28-36 | the rows due to a client are exactly the dirty ones that it subscribed to, with their contents |
| PushSender.DueOnce | src/petuum_ps/server/server_table.cpp:17-55 | no row is due twice |
| PushSender.PushServer.SendTable | src/petuum_ps/server/server.cpp:224-245 | the loop that sends full messages and resumes ends, with every due row of the table delivered or buffered, once |
| PushSender.PushServer.CreateSendServerPushRowMsgs | src/petuum_ps/server/server.cpp:179-292 | decoding each client's messages in order gives exactly its due rows of all tables, each once under its own table id, wherever something did not fit; the last message carries the clock flag and no earlier one does; subscribed rows are clean, others untouched |
| PushPipeline.PushArrives | src/petuum_ps/server/server.cpp:179-292 | if the tables hold what the abstract server holds, a client reads in the messages of one push exactly the rows that the abstract server pushes to it, each once and in the bytes of its numbers |
| PushPipeline.CleanedHolds | src/petuum_ps/server/server_table.cpp:28-54 | after the push the tables hold what the abstract server holds after its own: the pushed rows are clean, rows without subscribers stay dirty |
| PartialPush.PlanSize | src/petuum_ps/server/server.cpp:317-348 | the sum computed beforehand is the length of what will be written |
| PartialPush.PlanDecodes | src/petuum_ps/server/server.cpp:350-388 | what is planned for a client decodes to its picked rows |
| PartialPush.AllPickedIff | src/petuum_ps/server/server.cpp:350-388 | a client's items are exactly the picked rows that it subscribes to, under the ids of their tables |
| PartialPush.PickedCount | src/petuum_ps/server/server.cpp:350-388 | and of each table they are as many as there are such rows |
| PartialPush.SentUpToIs | src/petuum_ps/server/server_table.cpp:129-160 | afterwards exactly the picked rows are clean, and nothing else of any row has changed |
| PartialPush.AccumSerializedSizePerClient | src/petuum_ps/server/callback_subs.hpp:60-71 | every subscriber's size grows by id, size and bytes of the row |
| PartialPush.GetPartialTableToSend | src/petuum_ps/server/server_table.cpp:86-127 | picks distinct dirty rows with subscribers, none exactly if there are none, and no more than asked for; each subscriber's size grows by exactly what the picked rows take |
| PartialPush.AppendRowsToBuffsPartial | src/petuum_ps/server/server_table.cpp:129-160 | every append fits; the picked rows are clean afterwards |
| PartialPush.PartialServer.CreateSendServerPushRowMsgsPartial | src/petuum_ps/server/server.cpp:294-411 | every write fits, every buffer ends exactly full, and each client is sent exactly its picked rows |
| RowOpLogs.AddEach | src/petuum_ps/client/thread_table.cpp:166-172 | the loop over columns adds what one Inc for each column adds |
| RowOpLogs.AddWalking | src/petuum_ps/consistency/ssp_consistency_controller.cpp:152-163 | walking a pointer over a dense oplog adds the same |
| RowOpLogs.OverwriteFresh | src/petuum_ps_common/oplog/sparse_row_oplog.hpp:168-185 | overwriting an oplog that was just created adds the same |
| RowOpLogs.OverwriteAddsIff | src/petuum_ps_common/oplog/dense_row_oplog.hpp:146-151 | overwriting adds exactly if those columns held zero |
| RowOpLogs.WalkSparse | src/petuum_ps_common/oplog/sparse_row_oplog.hpp:67-83 | every column once; empty exactly if no column was touched |
| RowOpLogs.WalkDense | src/petuum_ps_common/oplog/dense_row_oplog.hpp:49-66 | every column that is not zero once; empty exactly if all are zero |
| RowOpLogs.CoversSum | src/petuum_ps_common/oplog/dense_row_oplog.hpp:49-66 | adding up what a walk gives is the oplog |
| TableOpLogs.SparseOpLog.FindInsertOpLog | src/petuum_ps/oplog/sparse_oplog.cpp:100-113 | finds or creates as zero, and says which |
| TableOpLogs.SparseOpLog.BatchInc | src/petuum_ps/oplog/sparse_oplog.cpp:62-80 | one row's oplog grows by the items, the others stay |
| TableOpLogs.SparseOpLog.GetEraseOpLog | src/petuum_ps/oplog/sparse_oplog.cpp:144-155 | hands over exactly what was there and forgets it |
| TableOpLogs.DenseOpLog.FindInsertOpLog | src/petuum_ps/oplog/dense_oplog.cpp:104-118 | the same on the row's slot |
| TableOpLogs.DenseOpLog.Inc | src/petuum_ps/oplog/dense_oplog.cpp:47-61 | the slot's oplog grows by the delta, the others stay |
| TableOpLogs.DenseOpLog.BatchInc | src/petuum_ps/oplog/dense_oplog.cpp:63-82 | the same on the row's slot |
| TableOpLogs.DenseOpLog.GetEraseOpLog | src/petuum_ps/oplog/dense_oplog.cpp:146-158 | the same on the row's slot |
| TableOpLogs.OwnSlotIff | src/petuum_ps/oplog/dense_oplog.cpp:220-225 | exactly the rows below the capacity have the slot of their own id; every other shares one of theirs |
| TableOpLogs.SharedSlot | src/petuum_ps/oplog/dense_oplog.cpp:220-225 | with two slots, what was added to row 1 is handed over as the oplog of row 3 |
| TableOpLogs.TableOpLog.FindInsertOpLog | src/petuum_ps/client/client_table.cpp:76-96 | either kind of table oplog finds or creates a row's oplog, and says which |
| TableOpLogs.TableOpLog.Inc | src/petuum_ps/client/client_table.cpp:76-96 | in either kind one row's oplog grows by the delta and the others stay |
| TableOpLogs.TableOpLog.BatchInc | src/petuum_ps/client/client_table.cpp:76-96 | in either kind one row's oplog grows by the items and the others stay |
| TableOpLogs.TableOpLog.GetEraseOpLog | src/petuum_ps/client/client_table.cpp:76-96 | either kind hands over exactly what was there for the row and forgets it |
| TableOpLogs.TableOpLogIndex.AddIndex | src/petuum_ps/oplog/oplog_index.cpp:28-37 | the rows join the index of that channel only |
| TableOpLogs.TableOpLogIndex.ResetPartition | src/petuum_ps/oplog/oplog_index.cpp:39-46 | hands the index over and starts an empty one |
| ThreadTables.ThreadTable.InsertRow | src/petuum_ps/client/thread_table.cpp:107-128 | the cached row is the clone and the thread's unflushed updates |
| ThreadTables.ThreadTable.Inc | src/petuum_ps/client/thread_table.cpp:133-152 | oplog and cached row grow by the delta; every cached row stays its base plus the unflushed updates |
| ThreadTables.ThreadTable.BatchInc | src/petuum_ps/client/thread_table.cpp:154-179 | as one Inc for each item |
| ThreadTables.ThreadTable.DenseBatchInc | src/petuum_ps/client/thread_table.cpp:181-205 | as one Inc for each column, overwriting a new oplog or not |
| ThreadTables.UpdatedTwice | src/petuum_ps/client/thread_table.cpp:154-205 | batches compose: any mix of forms is worth the same single increments |
| ThreadTables.UpdatedReads | src/petuum_ps/client/thread_table.cpp:133-205 | an update keeps read-my-writes for all cached rows |
| ThreadTables.ThreadTable.FlushOpLogIndex | src/petuum_ps/client/thread_table.cpp:87-96 | the whole index reaches the shared one, channel by channel, and is empty |
| ThreadTables.ThreadTable.FlushCacheOpLog | src/petuum_ps/client/thread_table.cpp:220-239 | table oplogs and cached process rows grow by exactly the thread oplogs, which are gone; rows with something in them are indexed |
| ThreadTables.ThreadTable.FlushCache | src/petuum_ps/client/thread_table.cpp:207-218 | the same, and the thread's rows are dropped |
| Consistency.SSPConsistencyController.Inc | src/petuum_ps/consistency/ssp_consistency_controller.cpp:77-92 | table oplog and cached row grow by the delta and the row is indexed |
| Consistency.SSPConsistencyController.BatchInc | src/petuum_ps/consistency/ssp_consistency_controller.cpp:94-121 | as one Inc for each item |
| Consistency.SSPConsistencyController.DenseBatchInc | src/petuum_ps/consistency/ssp_consistency_controller.cpp:123-175 | as one Inc for each column, by overwriting, by pointer or by lookup |
| Consistency.SSPConsistencyController.Get | src/petuum_ps/consistency/ssp_consistency_controller.cpp:36-75 | the row returned is cached with a clock that is not negative and no more than the staleness behind the thread's; a cached row like that is returned and nothing is fetched; otherwise exactly what the requests bring is stored, all other rows stay, and a check fails exactly if nothing is brought or it is too old |
| Consistency.SSPConsistencyController.ThreadGet | src/petuum_ps/consistency/ssp_consistency_controller.cpp:177-228 | a row already in the thread cache unchanged; otherwise as Get, and the row returned is put there as the process row plus the thread's updates |
| Consistency.SSPConsistencyController.Clock | src/petuum_ps/consistency/ssp_consistency_controller.cpp:250-254 | flush before publishing: every row the thread had updates for is in the shared index with its updates in the table oplog |
| Consistency.SSPPushConsistencyController.AwaitSystemClock | src/petuum_ps/consistency/ssp_push_consistency_controller.cpp:75-86 | the cached system clock is kept if it is fresh enough, else looked up, else waited for; afterwards it is no more than the staleness behind |
| Consistency.SSPPushConsistencyController.Get | src/petuum_ps/consistency/ssp_push_consistency_controller.cpp:70-115 | returns only after the system clock is no more than the staleness behind; a cached row is returned whatever its own clock, and otherwise what is brought |
| Consistency.SSPPushConsistencyController.ThreadGet | src/petuum_ps/consistency/ssp_push_consistency_controller.cpp:117-168 | the wait comes first also for rows in the thread cache; otherwise the row in the process storage, or else the one that is brought, is put there with the thread's updates; a check fails exactly if there is neither |
| Consistency.SSPPushConsistencyController.GetAsyncForced | src/petuum_ps/consistency/ssp_push_consistency_controller.cpp:21-37 | never more requests on their way than allowed |
| Consistency.SSPPushConsistencyController.WaitPendingAsyncGet | src/petuum_ps/consistency/ssp_push_consistency_controller.cpp:60-68 | awaits exactly as many replies as are on their way |
| ClientSteps.ThreadIncMatches | src/petuum_ps/client/thread_table.cpp:133-205 | every update of the thread cache is the protocol's step for it |
| ClientSteps.IncMatches | src/petuum_ps/consistency/ssp_consistency_controller.cpp:77-150 | every update by the controller is the protocol's step for it, index included |
| ClientSteps.FetchMatches | src/petuum_ps/client/thread_table.cpp:107-128 | cloning into the thread cache is the protocol's read step |
| ClientSteps.GetMatches | src/petuum_ps/consistency/ssp_consistency_controller.cpp:36-58 | Get lets through exactly the cached rows that may be read in the protocol, and returns the protocol's row |
| ClientSteps.PushGetMatches | src/petuum_ps/consistency/ssp_push_consistency_controller.cpp:70-93 | the same under SSPPush, by the system clock |
| ClientSteps.FlushMatches | src/petuum_ps/client/thread_table.cpp:220-260 | flushing a row oplog is the protocol's flush step, with the index exactly if its walk gave anything; the oplog and the cached copy are gone from the thread |
| ClientSteps.EndFlushMatches | src/petuum_ps/client/thread_table.cpp:207-218 | once nothing of a table is left to flush, dropping the cached rows is the protocol's step that ends the table's flush |
| ClientSteps.ForgetMatches | src/petuum_ps/consistency/ssp_consistency_controller.cpp:246-248 | dropping the cached rows of one table in mid-iteration is the protocol's step for it; other tables and threads keep theirs |
| ClientSteps.ClockBeginMatches | src/petuum_ps/client/table_group.cpp:178-183 | the thread's own clock goes up first, as in the protocol |
| ClientSteps.TickMatches | src/petuum_ps/client/table_group.cpp:204-213 | ticking the vector clock is the protocol's tick, and the workers are told to clock in both exactly if the minimum moved |
| ClientSteps.AddIndexMatches | src/petuum_ps/client/thread_table.cpp:87-96 | publishing one channel's part of the index is the protocol's step; other channels and tables stay |
| WorkerSteps.TakeMatches | src/petuum_ps/oplog/oplog_index.cpp:39-46 | taking and resetting a channel's index is the protocol's step |
| WorkerSteps.EraseMatches | src/petuum_ps/thread/ssp_bg_worker.cpp:88-127 | taking a row's oplog out of the table oplog is the protocol's step, for rows without an oplog too |
| WorkerSteps.SendMatches | src/petuum_ps/thread/abstract_bg_worker.cpp:611-641 | what a server reads in its message of a batch is, row by row and number by number, what the protocol's batch for it holds |
| TableGroups.TableGroup.CreateTable | src/petuum_ps/client/table_group.cpp:113-126 | the maximum stays at least every table's staleness |
| TableGroups.TableGroup.Clock | src/petuum_ps/client/table_group.cpp:178-213 | all tables are flushed, then the thread ticks, then the workers clock exactly if the minimum moved |
| TableGroups.TableGroup.GlobalBarrier | src/petuum_ps/client/table_group.cpp:185-189 | the clock passes its old value by more than any table's staleness |
| NameNodes.NameNodeThread.HaveCreatedAllTables | src/petuum_ps/server/name_node_thread.cpp:84-94 | true exactly if there are enough tables and all clients were answered for each |
| NameNodes.NameNodeThread.HandleCreateTable | src/petuum_ps/server/name_node_thread.cpp:129-158 | announces a new table, and answers at once or later |
| NameNodes.NameNodeThread.HandleCreateTableReply | src/petuum_ps/server/name_node_thread.cpp:160-182 | after the last server, answers all who wait, in order |
| NameNodes.EveryRunKeeps | src/petuum_ps/server/name_node_thread.cpp:84-182 | in every fair run each table is announced once, each request is answered once and in order, only after all servers replied, and the clients are told once, as soon as everything is answered |
| NameNodes.ToldIff | src/petuum_ps/server/name_node_thread.cpp:84-94 | at the end of a complete fair run everybody is answered, and the clients were told that all tables exist, once, exactly if there is a table |
| NameNodes.AskedIsAnswered | src/petuum_ps/server/name_node_thread.cpp:129-182 | counted one by one: in a complete fair run each client is sent an answer as often as it asked for the table, each table asked for is announced once, and the clients are told once if there is a table |
| SparseFeatures.SparseFeature.BinarySearch | src/ml/feature/sparse_feature.hpp:231-249 | finds the id in the range, or -1 exactly if it is not there |
| SparseFeatures.SparseFeature.Value | src/ml/feature/sparse_feature.hpp:173-179 | the value of the function the array stands for, zero without entry |
| SparseFeatures.SparseFeature.SetFeatureVal | src/ml/feature/sparse_feature.hpp:181-204 | changes exactly one feature through insertion, shifting, removal and shrinking; ids stay ascending and unused memory below two blocks |
| SparseFeatures.SparseFeature.OneSidedBubbleSort | src/ml/feature/sparse_feature.hpp:258-298 | moves one entry to where its id belongs, in either direction, and shifts the rest |
| SparseFeatures.SparseFeature.ResetCapacity | src/ml/feature/sparse_feature.hpp:300-311 | same entries in a whole number of blocks |
| SparseFeatures.SparseFeature.RemoveOneEntryAndCompact | src/ml/feature/sparse_feature.hpp:313-323 | drops one entry, and shrinks |
| SparseFeatures.NoZerosIff | src/ml/feature/sparse_feature.hpp:65-68 | entries stay different from zero exactly unless a feature without entry is set to zero |
| SparseFeatures.StoreZero | src/ml/feature/sparse_feature.hpp:181-204 | setting feature 3 of an empty vector to zero stores a zero entry |
| DecisionTrees.TreeNode.Split | app/rand_forest/src/tree_node.hpp:21-27 | two new blank children, and the split |
| DecisionTrees.TreeNode.SetLeafVal | app/rand_forest/src/tree_node.hpp:50-57 | a finished leaf |
| DecisionTrees.TreeNode.Predict | app/rand_forest/src/tree_node.hpp:60-69 | goes left exactly if the feature is at most the split value, and so follows the tree that the nodes stand for |
| DecisionTrees.DecisionTree.ComputeLeafVal | app/rand_forest/src/decision_tree.cpp:201-215 | the lowest-numbered label that occurs most often |
| DecisionTrees.CountIs | app/rand_forest/src/decision_tree.cpp:201-215 | the count of a label is the number of positions of the data that carry it |
| DecisionTrees.DecisionTree.AllSameLabels | app/rand_forest/src/decision_tree.cpp:217-228 | true exactly if no two labels differ |
| DecisionTrees.DecisionTree.PartitionData | app/rand_forest/src/decision_tree.cpp:186-199 | each instance is left exactly if its feature is at most the split value and else right, as often as it was given, in order |
| DecisionTrees.DecisionTree.RecursiveBuild | app/rand_forest/src/decision_tree.cpp:81-155 | ends for any choice of splits; a leaf exactly at the depth limit, without features or with one label; every leaf has the majority label of its data, or of the data above if it has none; no path uses a feature twice; bounded by the features and by the depth limit |
| DecisionTrees.DecisionTree.Init | app/rand_forest/src/decision_tree.cpp:30-58 | without subsampling, every training instance is predicted the lowest-numbered majority label of the training instances in its leaf |
| DecisionTrees.PredictsMajority | app/rand_forest/src/decision_tree.cpp:201-215 | the same for any tree that fits its data |
| DecisionTrees.RoundTripIff | app/rand_forest/src/decision_tree.cpp:230-266 | printing and reading gives a tree back exactly if no node splits on feature -1 |
| DecisionTrees.BuiltPrintable | app/rand_forest/src/decision_tree.cpp:30-58 | trees that were built can be printed and read back |
| DecisionTrees.Serialize | app/rand_forest/src/decision_tree.cpp:230-244 | appends the printed form |
| DecisionTrees.Deserialize | app/rand_forest/src/decision_tree.cpp:246-266 | builds the tree that the tokens stand for, or fails exactly if they do not |
| Workloads.RangesTile | src/ml/util/workload_manager.hpp:25-52 | the threads' ranges tile the data without overlap |
| Workloads.RangeLength | src/ml/util/workload_manager.hpp:34-52 | every thread but the last gets the data divided by the threads that share it, rounded down; the last gets the rest |
| Workloads.EachIndexOnce | src/ml/util/workload_manager.hpp:25-52 | every index of the data is in exactly one thread's range: of all threads if the data is global, else of each client's |
| Workloads.WorkloadManager.constructor | src/ml/util/workload_manager.hpp:25-66 | an epoch is whole batches, at least the range and less than one more round of batches |
| Workloads.WorkloadManager.GetDataIdxAndAdvance | src/ml/util/workload_manager.hpp:81-86 | the index is the begin plus what was done of the epoch modulo the length, and one more is done |
| Workloads.WorkloadManager.GetBatchDataIdx | src/ml/util/workload_manager.hpp:88-97 | the indices that the next calls would give, without advancing |
| Workloads.WorkloadManager.RunEpoch | src/ml/util/workload_manager.hpp:55-86 | the indices handed out in an epoch: each of the range at least once, none more than once more often than another, and no other |
| Workloads.EpochVisitsAll | src/ml/util/workload_manager.hpp:55-66 | the same of any sequence of indices that goes round the range at least once |

## Left out

- Sockets, the message transfer layer, pthread barriers, timers, statistics, snapshots and files: I/O. Channels between
  a client and a server thread are first-in first-out sequences, and what happens under one lock is one step.
- The row-request bookkeeping of the background workers: which application thread gets which reply, and when saved
  oplogs may be discarded. The step machine keeps all saved batches, so the check that an old oplog is still there is
  not modelled; requests to servers are steps that may happen at any time.
- Acknowledgements of oplog messages; they carry a version number only.
- Append-only oplogs, oplogs without replay, and the append-only controller.
- SSPAggr: importance, its sorting and its timing. From it only the partial push is modelled, with any order of the
  candidates.
- Byte statistics, among them the size that `CreateSendServerPushRowMsgs` returns, and the message that it leaks when
  the end marker does not fit.
- Dense serialization of a dense row oplog, which is one memory copy; and reading beyond the last column in its walk.
- Row oplogs in `RowOpLogs` are values that the maps and arrays of their owners hold, so the pointers that accessors
  hand out are not modelled. Message buffers in `OpLogSenders` and `RowOpLogBytes` are sequences that are spliced in
  place.
- `ClientSteps` and `WorkerSteps` relate what the methods' contracts say to the protocol's steps, method by method; that
  a whole run of the objects is a run of the protocol is not stated. The step for flushing a row drops the thread's
  cached copy of it at once, `FlushCache` all copies at its end.
- TableGroups.TableGroup.Clock: is the conservative form; the aggressive form also sends batches without a clock, which
  the protocol allows a worker at any time (BgStart without a clock).
- DecisionTrees.Deserialize: at the end of the tokens it fails. The source returns silently if the text ends after a
  complete token; printed text ends in a blank, so that it is not at its end there, and the number that is read next
  cannot be converted, which throws.
- DecisionTrees.DecisionTree.FindSplit: returns any feature and threshold, because entropy and the random thresholds
  are left out. Printed numbers are tokens, because the text form rounds them.
- Rounding of floating-point numbers: `Workloads` rounds up exactly.
- The numerics of the other applications, launch scripts and third-party code.
