/** The SSP consistency controller: what an application thread calls to read and update a table. */
module Consistency {
  import opened Options
  import opened Rows
  import opened RowOpLogs
  import opened TableOpLogs
  import opened ThreadTables

  /** What a row request brings: nothing yet, or a fresh copy of the row and its clock. */
  type Reply = Option<(int, Row)>

  /** The least clock that a row may have: one that is not negative and no more than the staleness behind. */
  function StalestClock(clock: int, staleness: nat): (stalest: int)
    ensures clock - staleness <= stalest && 0 <= stalest && (stalest == clock - staleness || stalest == 0)
  {
    if clock - staleness > 0 then clock - staleness else 0
  }

  /** The first of the replies that brings something, among the first n. */
  function FirstBrought(replies: seq<Reply>, n: nat): (got: Reply)
    requires n <= |replies|
    ensures got.None? <==> forall k :: 0 <= k < n ==> replies[k].None?
    ensures got.Some? ==>
      exists k :: 0 <= k < n && replies[k] == got && forall j :: 0 <= j < k ==> replies[j].None?
  {
    if n == 0 then None
    else if FirstBrought(replies, n - 1).Some? then FirstBrought(replies, n - 1) else replies[n - 1]
  }

  class SSPConsistencyController {
    const staleness: nat
    const threadCache: ThreadTable
    const processStorage: ProcessStorage
    const oplog: TableOpLog
    const oplogIndex: TableOpLogIndex

    ghost predicate Valid()
      reads this, threadCache, processStorage, oplog.SparseFrame(), oplog.VectorFrame(), oplogIndex
    {
      && threadCache.Valid() && oplog.Valid()
      && threadCache.Fits(oplog)
      && processStorage.clocks.Keys == processStorage.rows.Keys
      && |oplogIndex.shared| == |threadCache.oplogIndex|
    }

    constructor (staleness: nat, threadCache: ThreadTable, processStorage: ProcessStorage, oplog: TableOpLog,
                 oplogIndex: TableOpLogIndex)
      requires threadCache.Valid() && oplog.Valid() && threadCache.Fits(oplog)
      requires processStorage.clocks.Keys == processStorage.rows.Keys
      requires |oplogIndex.shared| == |threadCache.oplogIndex|
      ensures Valid() && this.staleness == staleness && this.threadCache == threadCache
      ensures this.processStorage == processStorage && this.oplog == oplog && this.oplogIndex == oplogIndex
    {
      this.staleness, this.threadCache, this.processStorage := staleness, threadCache, processStorage;
      this.oplog, this.oplogIndex := oplog, oplogIndex;
    }

    /** Where the row is cached, adds the items to it. */
    method UpdateProcessRow(row: int, items: Items)
      modifies processStorage`rows
      ensures processStorage.rows.Keys == old(processStorage.rows).Keys
      ensures processStorage.rows - {row} == old(processStorage.rows) - {row}
      ensures row in processStorage.rows ==> RowGrew(old(processStorage.rows)[row], items, processStorage.rows[row])
    {
      if row in processStorage.rows {
        var now := ApplyEach(processStorage.rows[row], items);
        processStorage.rows := processStorage.rows[row := now];
      }
    }

    /** The items were added to the row's oplog and to the cached row, and the row is in the thread's index. */
    twostate predicate Did(row: int, items: Items)
      reads this, threadCache, processStorage, oplog.SparseFrame(), oplog.VectorFrame()
    {
      && Updated(old(oplog.Logs()), old(processStorage.rows), row, items, oplog.Logs(), processStorage.rows)
      && IndexedRow(row)
    }

    twostate predicate IndexedRow(row: int)
      reads threadCache
    {
      && threadCache.channel(row) < |old(threadCache.oplogIndex)|
      && threadCache.oplogIndex == old(threadCache.oplogIndex)[threadCache.channel(row) :=
                                     old(threadCache.oplogIndex)[threadCache.channel(row)] + {row}]
    }

    /** Indexes the row, and finds its oplog or creates it. */
    method Begin(row: int) returns (log: RowOpLog, newCreate: bool)
      requires Valid() && oplog.HasPlace(row)
      modifies threadCache`oplogIndex, oplog.SparseFrame(), oplog.VectorFrame()
      ensures Valid() && IndexedRow(row) && log.Shaped(oplog.dense, oplog.capacity)
      ensures Found(old(oplog.Logs()), row, oplog.Logs(), log) && (newCreate <==> row !in old(oplog.Logs()))
    {
      hide ReadsOwnWrites, TableOpLog.Valid, TableOpLog.Logs;
      threadCache.IndexUpdate(row);
      newCreate := oplog.FindInsertOpLog(row);
      log := oplog.Get(row);
    }

    /** Stores what became of the oplog, and adds the items to the cached row. */
    method End(row: int, log: RowOpLog, items: Items, now: RowOpLog, ghost was: map<int, RowOpLog>)
      requires Valid() && oplog.HasPlace(row) && Found(was, row, oplog.Logs(), log)
      requires Grew(log, items, now) && now.Shaped(oplog.dense, oplog.capacity)
      modifies oplog.SparseFrame(), oplog.VectorFrame(), processStorage`rows
      ensures Valid() && Updated(was, old(processStorage.rows), row, items, oplog.Logs(), processStorage.rows)
    {
      hide ReadsOwnWrites, TableOpLog.Valid, TableOpLog.Logs, Grew, RowGrew;
      GrewFresh(was, row, oplog.Logs(), log, items, now);
      oplog.Put(row, now);
      UpdateProcessRow(row, items);
    }

    method Inc(row: int, col: int, delta: int)
      requires Valid() && oplog.HasPlace(row) && Fresh(oplog.dense, oplog.capacity).Has(col)
      modifies threadCache`oplogIndex, oplog.SparseFrame(), oplog.VectorFrame(), processStorage`rows
      ensures Valid() && Did(row, [(col, delta)])
    {
      hide Valid, TableOpLog.Logs, Grew, Found, Updated;
      ghost var was := oplog.Logs();
      var log, newCreate := Begin(row);
      AddGet(log, col, delta);
      GrewOne(log, col, delta);
      End(row, log, [(col, delta)], log.Add(col, delta), was);
    }

    /** As one Inc for each item. */
    method BatchInc(row: int, items: Items)
      requires Valid() && oplog.HasPlace(row) && AllHas(Fresh(oplog.dense, oplog.capacity), items)
      modifies threadCache`oplogIndex, oplog.SparseFrame(), oplog.VectorFrame(), processStorage`rows
      ensures Valid() && Did(row, items)
    {
      hide Valid, TableOpLog.Logs, Grew, Found, Updated;
      ghost var was := oplog.Logs();
      var log, newCreate := Begin(row);
      var now := AddEach(log, items, oplog.dense, oplog.capacity);
      End(row, log, items, now, was);
    }

    /** An oplog that was just created is overwritten, a dense one is walked over with a pointer, and in a sparse one
        every column is looked up. */
    method DenseBatchIncOpLog(log: RowOpLog, newCreate: bool, updates: seq<int>, st: int) returns (now: RowOpLog)
      requires log.Shaped(oplog.dense, oplog.capacity) && AllHas(log, Run(st, updates))
      requires newCreate ==> forall col :: log.Get(col) == 0
      ensures Grew(log, Run(st, updates), now) && now.Shaped(oplog.dense, oplog.capacity)
    {
      if newCreate {
        OverwriteFresh(log, st, updates, oplog.dense, oplog.capacity);
        now := log.Overwrite(st, updates);
      } else if oplog.dense {
        now := AddWalking(log, st, updates, oplog.capacity);
      } else {
        now := AddEach(log, Run(st, updates), oplog.dense, oplog.capacity);
      }
    }

    /** As one Inc for each column. */
    method DenseBatchInc(row: int, updates: seq<int>, st: int)
      requires Valid() && oplog.HasPlace(row) && AllHas(Fresh(oplog.dense, oplog.capacity), Run(st, updates))
      modifies threadCache`oplogIndex, oplog.SparseFrame(), oplog.VectorFrame(), processStorage`rows
      ensures Valid() && Did(row, Run(st, updates))
    {
      hide Valid, TableOpLog.Logs, Grew, Updated;
      ghost var was := oplog.Logs();
      var log, newCreate := Begin(row);
      var now := DenseBatchIncOpLog(log, newCreate, updates, st);
      End(row, log, Run(st, updates), now, was);
    }

    /** Flush, and only then publish the index: every row that the thread had updates for is in the shared index,
        its updates are in the table oplog, and the thread has nothing left. */
    method Clock()
      requires Valid() && threadCache.HavePlaces(oplog)
      modifies threadCache, processStorage`rows, oplog.SparseFrame(), oplog.VectorFrame(), oplogIndex
      ensures Valid() && threadCache.oplogMap == map[] && threadCache.rowStorage == map[]
      ensures threadCache.oplogIndex == seq(|old(threadCache.oplogIndex)|, p => {})
      ensures Flushed(old(threadCache.oplogMap), old(oplog.Logs()), old(processStorage.rows),
                      old(threadCache.oplogMap).Keys, oplog.Logs(), processStorage.rows)
      ensures forall r :: r in old(threadCache.oplogMap) && NonZero(old(threadCache.oplogMap)[r]) ==>
        r in oplogIndex.shared[threadCache.channel(r)]
      ensures forall p :: 0 <= p < |oplogIndex.shared| ==>
        old(oplogIndex.shared)[p] + old(threadCache.oplogIndex)[p] <= oplogIndex.shared[p]
    {
      hide ReadsOwnWrites, NonZero, LogPlus, RowPlus, TableOpLog.Valid, TableOpLog.Logs;
      threadCache.FlushCache(processStorage, oplog);
      threadCache.FlushOpLogIndex(oplogIndex);
    }

    /** The background worker puts what a reply brought into the process storage. */
    method Insert(row: int, reply: Reply)
      modifies processStorage
      ensures processStorage.rows
           == if reply.Some? then old(processStorage.rows)[row := reply.value.1] else old(processStorage.rows)
      ensures processStorage.clocks
           == if reply.Some? then old(processStorage.clocks)[row := reply.value.0] else old(processStorage.clocks)
    {
      if reply.Some? {
        processStorage.rows := processStorage.rows[row := reply.value.1];
        processStorage.clocks := processStorage.clocks[row := reply.value.0];
      }
    }

    /** What the requests for a row brought was stored; every other row is as it was. A row that is there already is
        asked for once, and one that is not until a reply brings it. */
    twostate predicate Fetched(row: int, got: Reply)
      reads processStorage
    {
      && processStorage.rows == (if got.Some? then old(processStorage.rows)[row := got.value.1]
                                 else old(processStorage.rows))
      && processStorage.clocks == (if got.Some? then old(processStorage.clocks)[row := got.value.0]
                                   else old(processStorage.clocks))
    }

    /** Asks for the row until it is there; None would be a fourth request, which fails a check. */
    method FetchRow(row: int, replies: seq<Reply>) returns (got: Reply)
      requires Valid() && |replies| == 3
      modifies processStorage
      ensures Valid()
      ensures Fetched(row, if row in old(processStorage.rows) then replies[0] else FirstBrought(replies, 3))
      ensures got == if row in processStorage.rows then Some((processStorage.clocks[row], processStorage.rows[row]))
                     else None
    {
      hide ReadsOwnWrites, FirstBrought;
      var numFetches := 0;
      while true
        invariant Valid() && numFetches <= 3
        invariant processStorage.rows == old(processStorage.rows) && processStorage.clocks == old(processStorage.clocks)
        invariant numFetches > 0 ==> row !in processStorage.rows && FirstBrought(replies, numFetches).None?
        decreases 3 - numFetches
      {
        if numFetches == 3 {
          return None;
        }
        Insert(row, replies[numFetches]);
        numFetches := numFetches + 1;
        if row in processStorage.rows {
          FirstIs(replies, numFetches);
          return Some((processStorage.clocks[row], processStorage.rows[row]));
        }
      }
    }

    /** A cached row that is fresh enough is returned as it is; otherwise the row is asked for, and what was brought is
        stored and returned. None is a failed check: a fourth request, or a row that is still too old. */
    method Get(row: int, clock: int, replies: seq<Reply>) returns (r: Option<Row>)
      requires Valid() && |replies| == 3
      modifies processStorage
      ensures Valid()
      ensures r.Some? ==>
        && row in processStorage.rows && r.value == processStorage.rows[row]
        && clock - staleness <= processStorage.clocks[row] && 0 <= processStorage.clocks[row]
      ensures
        if row in old(processStorage.rows)
           && clock - staleness <= old(processStorage.clocks)[row] && 0 <= old(processStorage.clocks)[row]
        then r.Some? && Fetched(row, None)
        else
          var got := if row in old(processStorage.rows) then replies[0] else FirstBrought(replies, 3);
          && Fetched(row, got)
          && (r.Some? <==> got.Some? && clock - staleness <= got.value.0 && 0 <= got.value.0)
    {
      hide ReadsOwnWrites, FirstBrought;
      var stalest := StalestClock(clock, staleness);
      if row in processStorage.rows && stalest <= processStorage.clocks[row] {
        return Some(processStorage.rows[row]);
      }
      var got := FetchRow(row, replies);
      r := if got.Some? && stalest <= got.value.0 then Some(got.value.1) else None;
    }

    /** As Get, but the row is read from the thread's own cache, where it is put first if need be. */
    method ThreadGet(row: int, clock: int, replies: seq<Reply>) returns (r: Option<Row>)
      requires Valid() && |replies| == 3
      modifies processStorage, threadCache`rowStorage, threadCache`base
      ensures Valid()
      ensures row in old(threadCache.rowStorage) ==>
        && r == Some(old(threadCache.rowStorage)[row])
        && threadCache.rowStorage == old(threadCache.rowStorage) && Fetched(row, None)
      ensures row !in old(threadCache.rowStorage) ==>
        if row in old(processStorage.rows)
           && clock - staleness <= old(processStorage.clocks)[row] && 0 <= old(processStorage.clocks)[row]
        then r.Some? && Fetched(row, None)
        else
          var got := if row in old(processStorage.rows) then replies[0] else FirstBrought(replies, 3);
          && Fetched(row, got)
          && (r.Some? <==> got.Some? && clock - staleness <= got.value.0 && 0 <= got.value.0)
      ensures row !in old(threadCache.rowStorage) && r.Some? ==>
        && row in processStorage.rows
        && clock - staleness <= processStorage.clocks[row] && 0 <= processStorage.clocks[row]
        && threadCache.rowStorage == old(threadCache.rowStorage)[row := r.value]
        && RowPlus(processStorage.rows[row], LogOf(threadCache.oplogMap, row), r.value)
      ensures r.None? ==> threadCache.rowStorage == old(threadCache.rowStorage)
    {
      hide ReadsOwnWrites, RowPlus, FirstBrought;
      if row in threadCache.rowStorage {
        return Some(threadCache.rowStorage[row]);
      }
      var found := Get(row, clock, replies);
      if found == None {
        return None;
      }
      ghost var was := threadCache.rowStorage;
      threadCache.InsertRow(row, found.value);
      r := Some(threadCache.rowStorage[row]);
      AddedRow(was, row, threadCache.rowStorage);
    }
  }

  const MAX_PENDING_ASYNC_GETS := 256

  /** Under SSPPush a read waits for the system clock of the process, and then takes the cached row whatever its
      clock, since the pushes keep all cached rows fresh. */
  class SSPPushConsistencyController {
    const ssp: SSPConsistencyController
    var cachedSystemClock: int
    var pendingAsyncGets: nat

    ghost predicate Valid()
      reads this, ssp, ssp.threadCache, ssp.processStorage, ssp.oplogIndex
      reads ssp.oplog.SparseFrame(), ssp.oplog.VectorFrame()
    {
      ssp.Valid() && pendingAsyncGets <= MAX_PENDING_ASYNC_GETS
    }

    constructor (ssp: SSPConsistencyController)
      requires ssp.Valid()
      ensures Valid() && this.ssp == ssp && cachedSystemClock == 0 && pendingAsyncGets == 0
    {
      this.ssp, cachedSystemClock, pendingAsyncGets := ssp, 0, 0;
    }

    /** `now` is the system clock, and `waited` what it is after a wait for the stalest clock, should one be needed. The
        clock that was looked up last is kept for as long as it is fresh enough. */
    method AwaitSystemClock(clock: int, now: int, waited: int)
      requires clock - ssp.staleness <= waited && 0 <= waited
      modifies this`cachedSystemClock
      ensures clock - ssp.staleness <= cachedSystemClock && 0 <= cachedSystemClock
      ensures cachedSystemClock ==
        if clock - ssp.staleness <= old(cachedSystemClock) && 0 <= old(cachedSystemClock) then old(cachedSystemClock)
        else if clock - ssp.staleness <= now && 0 <= now then now
        else waited
    {
      var stalest := StalestClock(clock, ssp.staleness);
      if cachedSystemClock < stalest {
        var systemClock := now;
        if systemClock < stalest {
          systemClock := waited;
        }
        cachedSystemClock := systemClock;
      }
    }

    /** A cached row is returned whatever its clock, and one that is not cached as it is brought. */
    method Get(row: int, clock: int, now: int, waited: int, replies: seq<Reply>) returns (r: Option<Row>)
      requires Valid() && clock - ssp.staleness <= waited && 0 <= waited && |replies| == 3
      modifies this`cachedSystemClock, ssp.processStorage
      ensures Valid() && clock - ssp.staleness <= cachedSystemClock && 0 <= cachedSystemClock
      ensures cachedSystemClock in {old(cachedSystemClock), now, waited}
      ensures ssp.Fetched(row, if row in old(ssp.processStorage.rows) then None else FirstBrought(replies, 3))
      ensures r == if row in ssp.processStorage.rows then Some(ssp.processStorage.rows[row]) else None
    {
      hide ReadsOwnWrites, FirstBrought;
      AwaitSystemClock(clock, now, waited);
      if row in ssp.processStorage.rows {
        return Some(ssp.processStorage.rows[row]);
      }
      var got := ssp.FetchRow(row, replies);
      r := if got.Some? then Some(got.value.1) else None;
    }

    /** The wait comes first, also for a row in the thread's own cache. A row that is not there is put there, with the
        thread's updates: the one in the process storage, or else the one that is brought. */
    method ThreadGet(row: int, clock: int, now: int, waited: int, replies: seq<Reply>) returns (r: Option<Row>)
      requires Valid() && clock - ssp.staleness <= waited && 0 <= waited && |replies| == 3
      modifies this`cachedSystemClock, ssp.processStorage, ssp.threadCache`rowStorage, ssp.threadCache`base
      ensures Valid() && clock - ssp.staleness <= cachedSystemClock && 0 <= cachedSystemClock
      ensures cachedSystemClock in {old(cachedSystemClock), now, waited}
      ensures row in old(ssp.threadCache.rowStorage) ==>
        && r == Some(old(ssp.threadCache.rowStorage)[row])
        && ssp.threadCache.rowStorage == old(ssp.threadCache.rowStorage) && ssp.Fetched(row, None)
      ensures row !in old(ssp.threadCache.rowStorage) ==>
        && ssp.Fetched(row, if row in old(ssp.processStorage.rows) then None else FirstBrought(replies, 3))
        && (r.Some? <==> row in old(ssp.processStorage.rows) || FirstBrought(replies, 3).Some?)
      ensures row !in old(ssp.threadCache.rowStorage) && r.Some? ==>
        && row in ssp.processStorage.rows
        && ssp.threadCache.rowStorage == old(ssp.threadCache.rowStorage)[row := r.value]
        && RowPlus(ssp.processStorage.rows[row], LogOf(ssp.threadCache.oplogMap, row), r.value)
      ensures r.None? ==> ssp.threadCache.rowStorage == old(ssp.threadCache.rowStorage)
    {
      hide ReadsOwnWrites, FirstBrought, RowPlus;
      AwaitSystemClock(clock, now, waited);
      if row in ssp.threadCache.rowStorage {
        return Some(ssp.threadCache.rowStorage[row]);
      }
      var found;
      if row in ssp.processStorage.rows {
        found := ssp.processStorage.rows[row];
      } else {
        var got := ssp.FetchRow(row, replies);
        if got.None? {
          return None;
        }
        found := got.value.1;
      }
      ghost var was := ssp.threadCache.rowStorage;
      ssp.threadCache.InsertRow(row, found);
      r := Some(ssp.threadCache.rowStorage[row]);
      AddedRow(was, row, ssp.threadCache.rowStorage);
    }

    /** One more request on its way; when too many are, one reply is awaited first. */
    method GetAsyncForced(row: int) returns (awaited: nat)
      requires Valid()
      modifies this`pendingAsyncGets
      ensures Valid() && pendingAsyncGets == old(pendingAsyncGets) + 1 - awaited
      ensures awaited == if old(pendingAsyncGets) == MAX_PENDING_ASYNC_GETS then 1 else 0
    {
      awaited := 0;
      if pendingAsyncGets == MAX_PENDING_ASYNC_GETS {
        pendingAsyncGets := pendingAsyncGets - 1;
        awaited := 1;
      }
      pendingAsyncGets := pendingAsyncGets + 1;
    }

    method WaitPendingAsyncGet() returns (awaited: nat)
      requires Valid()
      modifies this`pendingAsyncGets
      ensures Valid() && pendingAsyncGets == 0 && awaited == old(pendingAsyncGets)
    {
      awaited := 0;
      while pendingAsyncGets > 0
        invariant Valid() && awaited + pendingAsyncGets == old(pendingAsyncGets)
      {
        pendingAsyncGets := pendingAsyncGets - 1;
        awaited := awaited + 1;
      }
    }
  }

  /** The row's oplog was found, or created as zero; the others stay. */
  ghost predicate Found(was: map<int, RowOpLog>, row: int, now: map<int, RowOpLog>, log: RowOpLog) {
    && row in now && now[row] == log && now.Keys == was.Keys + {row} && now - {row} == was - {row}
    && (if row in was then log == was[row] else forall col :: log.Get(col) == 0)
  }

  /** An oplog that was just found or created grew by as much as the row's oplog did. */
  lemma GrewFresh(was: map<int, RowOpLog>, row: int, mid: map<int, RowOpLog>, log: RowOpLog, items: Items,
                  now: RowOpLog)
    requires Found(was, row, mid, log) && Grew(log, items, now)
    ensures Grew(LogOf(was, row), items, now)
  {
  }

  lemma FirstIs(replies: seq<Reply>, n: nat)
    requires 0 < n <= |replies| == 3 && FirstBrought(replies, n - 1).None?
    ensures replies[n - 1].Some? ==> FirstBrought(replies, 3) == replies[n - 1]
  {
  }

  lemma AddedRow(was: map<int, Row>, row: int, now: map<int, Row>)
    requires now.Keys == was.Keys + {row} && now - {row} == was - {row}
    ensures now == was[row := now[row]]
  {
    forall r | r in now && r != row ensures r in was && now[r] == was[r] {
      SameBut(now, was, row, r);
    }
  }
}
