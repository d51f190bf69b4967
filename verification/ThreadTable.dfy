/** The cache of one application thread: its rows, its updates that are not flushed yet, and its oplog index. */
module ThreadTables {
  import opened Rows
  import opened RowOpLogs
  import opened TableOpLogs

  /** The rows of one table that a process caches. Each has the server clock that its copy is known to reflect. */
  class ProcessStorage {
    var rows: map<int, Row>
    var clocks: map<int, int>

    constructor ()
      ensures rows == map[] && clocks == map[]
    {
      rows, clocks := map[], map[];
    }
  }

  /** A row that holds what `was` holds and what an oplog holds. */
  ghost predicate RowPlus(was: Row, log: RowOpLog, now: Row) {
    forall col :: Val(now, col) == Val(was, col) + log.Get(col)
  }

  ghost predicate LogPlus(was: RowOpLog, log: RowOpLog, now: RowOpLog) {
    forall col :: now.Get(col) == was.Get(col) + log.Get(col)
  }

  /** Every cached row is the process row it was cloned from and the thread's own unflushed updates. */
  ghost predicate ReadsOwnWrites(rows: map<int, Row>, base: map<int, Row>, logs: map<int, RowOpLog>) {
    rows.Keys == base.Keys && forall r :: r in rows ==> RowPlus(base[r], LogOf(logs, r), rows[r])
  }

  /** The items were added to the oplog of one row, and to the row where it is cached; nothing else changed. */
  ghost predicate Updated(wasLogs: map<int, RowOpLog>, wasRows: map<int, Row>, row: int, items: Items,
                          logs: map<int, RowOpLog>, rows: map<int, Row>)
  {
    && logs.Keys == wasLogs.Keys + {row} && logs - {row} == wasLogs - {row}
    && Grew(LogOf(wasLogs, row), items, logs[row])
    && rows.Keys == wasRows.Keys && rows - {row} == wasRows - {row}
    && (row in rows ==> RowGrew(wasRows[row], items, rows[row]))
  }

  /** One batch and then another are one batch of both: so a batch of any form is worth one Inc for each column. */
  lemma UpdatedTwice(logs0: map<int, RowOpLog>, rows0: map<int, Row>, row: int, a: Items,
                     logs1: map<int, RowOpLog>, rows1: map<int, Row>, b: Items,
                     logs2: map<int, RowOpLog>, rows2: map<int, Row>)
    requires Updated(logs0, rows0, row, a, logs1, rows1) && Updated(logs1, rows1, row, b, logs2, rows2)
    ensures Updated(logs0, rows0, row, a + b, logs2, rows2)
  {
    forall col ensures SumAt(a + b, col) == SumAt(a, col) + SumAt(b, col) {
      SumConcat(a, b, col);
    }
  }

  lemma UpdatedReads(wasLogs: map<int, RowOpLog>, wasRows: map<int, Row>, row: int, items: Items,
                     logs: map<int, RowOpLog>, rows: map<int, Row>, base: map<int, Row>)
    requires Updated(wasLogs, wasRows, row, items, logs, rows) && ReadsOwnWrites(wasRows, base, wasLogs)
    ensures ReadsOwnWrites(rows, base, logs)
  {
    hide RowGrew, Grew, RowPlus;
    forall r | r in rows ensures RowPlus(base[r], LogOf(logs, r), rows[r]) {
      assert RowPlus(base[r], LogOf(wasLogs, r), wasRows[r]);
      if r == row {
        RowPlusGrew(base[r], LogOf(wasLogs, r), wasRows[r], items, logs[r], rows[r]);
      } else {
        assert r in (logs - {row}) <==> r in (wasLogs - {row});
        assert r in logs ==> (logs - {row})[r] == (wasLogs - {row})[r];
        assert (rows - {row})[r] == (wasRows - {row})[r];
      }
    }
  }

  lemma RowPlusGrew(was: Row, log: RowOpLog, now: Row, items: Items, log2: RowOpLog, now2: Row)
    requires RowPlus(was, log, now) && Grew(log, items, log2) && RowGrew(now, items, now2)
    ensures RowPlus(was, log2, now2)
  {
  }

  class ThreadTable {
    const dense: bool
    const capacity: nat
    /** The channel of a row. */
    const channel: int -> nat
    var oplogMap: map<int, RowOpLog>
    var rowStorage: map<int, Row>
    var oplogIndex: seq<set<int>>
    /** The process row that each cached row was cloned from, and what was flushed since. */
    ghost var base: map<int, Row>

    ghost predicate Valid() reads this {
      && AllShaped(oplogMap, dense, capacity)
      && ReadsOwnWrites(rowStorage, base, oplogMap)
      && forall r :: channel(r) < |oplogIndex|
    }

    constructor (dense: bool, capacity: nat, channels: nat, channel: int -> nat)
      requires forall r :: channel(r) < channels
      ensures Valid() && oplogMap == map[] && rowStorage == map[] && oplogIndex == seq(channels, p => {})
      ensures this.dense == dense && this.capacity == capacity && this.channel == channel
    {
      this.dense, this.capacity, this.channel := dense, capacity, channel;
      oplogMap, rowStorage, oplogIndex, base := map[], map[], seq(channels, p => {}), map[];
    }

    method IndexUpdate(row: int)
      requires Valid()
      modifies this`oplogIndex
      ensures Valid() && oplogIndex == old(oplogIndex)[channel(row) := old(oplogIndex)[channel(row)] + {row}]
    {
      var p := channel(row);
      oplogIndex := oplogIndex[p := oplogIndex[p] + {row}];
    }

    /** The thread's index goes to the shared index, channel by channel. */
    method FlushOpLogIndex(tableIndex: TableOpLogIndex)
      requires Valid() && |tableIndex.shared| == |oplogIndex|
      modifies this`oplogIndex, tableIndex
      ensures Valid() && oplogIndex == seq(|old(oplogIndex)|, p => {})
      ensures |tableIndex.shared| == |old(oplogIndex)|
      ensures forall p :: 0 <= p < |tableIndex.shared| ==>
        tableIndex.shared[p] == old(tableIndex.shared)[p] + old(oplogIndex)[p]
    {
      var p := 0;
      while p < |oplogIndex|
        invariant p <= |oplogIndex| == |old(oplogIndex)| == |tableIndex.shared| && Valid()
        invariant forall q :: 0 <= q < |oplogIndex| ==>
          && oplogIndex[q] == (if q < p then {} else old(oplogIndex)[q])
          && tableIndex.shared[q] == old(tableIndex.shared)[q] + if q < p then old(oplogIndex)[q] else {}
      {
        tableIndex.AddIndex(p, oplogIndex[p]);
        oplogIndex := oplogIndex[p := {}];
        p := p + 1;
      }
      assert oplogIndex == seq(|old(oplogIndex)|, p => {});
    }

    /** Clones a process row, and applies the thread's oplog to the clone. */
    method InsertRow(row: int, toInsert: Row)
      requires Valid()
      modifies this`rowStorage, this`base
      ensures Valid() && base == old(base)[row := toInsert]
      ensures rowStorage.Keys == old(rowStorage).Keys + {row} && rowStorage - {row} == old(rowStorage) - {row}
      ensures RowPlus(toInsert, LogOf(oplogMap, row), rowStorage[row])
    {
      var clone := toInsert;
      if row in oplogMap {
        var items := Walk(oplogMap[row]);
        CoversSum(oplogMap[row], items);
        clone := ApplyEach(clone, items);
      }
      rowStorage := rowStorage[row := clone];
      base := base[row := toInsert];
    }

    /** The row's oplog, or a new one. */
    method FindOrCreate(row: int) returns (log: RowOpLog, created: bool)
      requires Valid()
      ensures log.Shaped(dense, capacity) && (created <==> row !in oplogMap)
      ensures forall col :: log.Get(col) == LogOf(oplogMap, row).Get(col)
    {
      created := row !in oplogMap;
      log := if created then Fresh(dense, capacity) else oplogMap[row];
    }

    /** Stores the oplog, and adds the items to the row if it is cached. */
    method Store(row: int, items: Items, log: RowOpLog)
      requires Valid() && log.Shaped(dense, capacity) && Grew(LogOf(oplogMap, row), items, log)
      modifies this`oplogMap, this`rowStorage
      ensures Valid() && Updated(old(oplogMap), old(rowStorage), row, items, oplogMap, rowStorage)
    {
      ghost var wasLogs, wasRows := oplogMap, rowStorage;
      hide Grew, RowGrew, ReadsOwnWrites;
      oplogMap := oplogMap[row := log];
      if row in rowStorage {
        var now := ApplyEach(rowStorage[row], items);
        rowStorage := rowStorage[row := now];
      }
      UpdatedReads(wasLogs, wasRows, row, items, oplogMap, rowStorage, base);
    }

    method Inc(row: int, col: int, delta: int)
      requires Valid() && Fresh(dense, capacity).Has(col)
      modifies this`oplogMap, this`rowStorage
      ensures Valid() && Updated(old(oplogMap), old(rowStorage), row, [(col, delta)], oplogMap, rowStorage)
    {
      var log, created := FindOrCreate(row);
      AddGet(log, col, delta);
      var items := [(col, delta)];
      assert items[..0] == [] && items[..1] == items;
      GrewNext(log, items, 0, log);
      Store(row, items, log.Add(col, delta));
    }

    /** As one Inc for each item. */
    method BatchInc(row: int, items: Items)
      requires Valid() && AllHas(Fresh(dense, capacity), items)
      modifies this`oplogMap, this`rowStorage
      ensures Valid() && Updated(old(oplogMap), old(rowStorage), row, items, oplogMap, rowStorage)
    {
      var log, created := FindOrCreate(row);
      log := AddEach(log, items, dense, capacity);
      Store(row, items, log);
    }

    /** As one Inc for each column, but a new oplog is overwritten. */
    method DenseBatchInc(row: int, updates: seq<int>, st: int)
      requires Valid() && AllHas(Fresh(dense, capacity), Run(st, updates))
      modifies this`oplogMap, this`rowStorage
      ensures Valid() && Updated(old(oplogMap), old(rowStorage), row, Run(st, updates), oplogMap, rowStorage)
    {
      var log, created := FindOrCreate(row);
      if created {
        OverwriteFresh(log, st, updates, dense, capacity);
        log := log.Overwrite(st, updates);
      } else {
        log := AddEach(log, Run(st, updates), dense, capacity);
      }
      Store(row, Run(st, updates), log);
    }

    /** The table's row oplogs are of the same kind as the thread's. */
    predicate Fits(tableOplog: TableOpLog) {
      tableOplog.dense == dense && tableOplog.capacity == capacity
    }

    /** The table oplog has a place of its own for every row that the thread has updated. */
    ghost predicate HavePlaces(tableOplog: TableOpLog)
      reads this`oplogMap
    {
      forall r :: r in oplogMap ==> tableOplog.HasPlace(r)
    }

    /** One thread oplog is added to the table oplog and to the process row, and its row is put into the index if
        there is anything to add. */
    method ApplyThreadOpLog(storage: ProcessStorage, tableOplog: TableOpLog, row: int)
      requires Valid() && tableOplog.Valid() && row in oplogMap && row in tableOplog.Logs()
      requires Fits(tableOplog) && tableOplog.HasPlace(row)
      modifies this`oplogIndex, storage`rows, tableOplog.SparseFrame(), tableOplog.VectorFrame()
      ensures Valid() && tableOplog.Valid()
      ensures tableOplog.Logs().Keys == old(tableOplog.Logs()).Keys
      ensures tableOplog.Logs() - {row} == old(tableOplog.Logs()) - {row}
      ensures LogPlus(old(tableOplog.Logs())[row], oplogMap[row], tableOplog.Logs()[row])
      ensures storage.rows.Keys == old(storage.rows).Keys && storage.rows - {row} == old(storage.rows) - {row}
      ensures row in storage.rows ==> RowPlus(old(storage.rows)[row], oplogMap[row], storage.rows[row])
      ensures oplogIndex == old(oplogIndex)
           || oplogIndex == old(oplogIndex)[channel(row) := old(oplogIndex)[channel(row)] + {row}]
      ensures (exists col :: oplogMap[row].Get(col) != 0) ==> row in oplogIndex[channel(row)]
    {
      hide ReadsOwnWrites, TableOpLog.Valid, TableOpLog.Logs, Grew, LogPlus, RowPlus, RowGrew, Covers;
      var items := Walk(oplogMap[row]);
      CoversSum(oplogMap[row], items);
      FreshHas(oplogMap[row], dense, capacity, items);
      ghost var was := tableOplog.Logs()[row];
      tableOplog.AddItems(row, items);
      GrewPlus(was, items, oplogMap[row], tableOplog.Logs()[row]);
      if items != [] {
        IndexUpdate(row);
      }
      if row in storage.rows {
        var now := ApplyEach(storage.rows[row], items);
        RowGrewPlus(storage.rows[row], items, oplogMap[row], now);
        storage.rows := storage.rows[row := now];
      }
    }

    method FlushNext(storage: ProcessStorage, tableOplog: TableOpLog, row: int, ghost wasTable: map<int, RowOpLog>,
                     ghost wasRows: map<int, Row>, ghost wasIndex: seq<set<int>>, ghost done: set<int>)
      requires Valid() && tableOplog.Valid() && Fits(tableOplog) && tableOplog.HasPlace(row)
      requires row in oplogMap && row !in done
      requires Flushed(oplogMap, wasTable, wasRows, done, tableOplog.Logs(), storage.rows)
      requires Indexed(oplogMap, channel, wasIndex, done, oplogIndex)
      modifies this`oplogIndex, storage`rows, tableOplog.SparseFrame(), tableOplog.VectorFrame()
      ensures Valid() && tableOplog.Valid()
      ensures Flushed(oplogMap, wasTable, wasRows, done + {row}, tableOplog.Logs(), storage.rows)
      ensures Indexed(oplogMap, channel, wasIndex, done + {row}, oplogIndex)
    {
      hide ReadsOwnWrites, Flushed, Indexed, LogPlus, RowPlus, TableOpLog.Valid, TableOpLog.Logs;
      ghost var table1, rows1, index1 := tableOplog.Logs(), storage.rows, oplogIndex;
      var newCreate := tableOplog.FindInsertOpLog(row);
      ghost var table2 := tableOplog.Logs();
      ApplyThreadOpLog(storage, tableOplog, row);
      FlushedNext(oplogMap, wasTable, wasRows, done, table1, rows1, row, table2, tableOplog.Logs(), storage.rows,
                  dense, capacity);
      IndexedNext(oplogMap, channel, wasIndex, done, index1, row, oplogIndex);
    }

    method FlushAll(storage: ProcessStorage, tableOplog: TableOpLog)
      requires Valid() && tableOplog.Valid() && Fits(tableOplog) && HavePlaces(tableOplog)
      modifies this`oplogIndex, storage`rows, tableOplog.SparseFrame(), tableOplog.VectorFrame()
      ensures Valid() && tableOplog.Valid()
      ensures Flushed(oplogMap, old(tableOplog.Logs()), old(storage.rows), oplogMap.Keys,
                      tableOplog.Logs(), storage.rows)
      ensures Indexed(oplogMap, channel, old(oplogIndex), oplogMap.Keys, oplogIndex)
    {
      hide Flushed, Indexed, Valid, TableOpLog.Valid, TableOpLog.Logs;
      ghost var wasTable, wasRows, wasIndex := tableOplog.Logs(), storage.rows, oplogIndex;
      NothingFlushed(oplogMap, wasTable, wasRows, channel, wasIndex);
      var left := oplogMap.Keys;
      ghost var done := {};
      while exists r :: r in left
        invariant left !! done && left + done == oplogMap.Keys && Valid() && tableOplog.Valid()
        invariant Flushed(oplogMap, wasTable, wasRows, done, tableOplog.Logs(), storage.rows)
        invariant Indexed(oplogMap, channel, wasIndex, done, oplogIndex)
        decreases |left|
      {
        var r :| r in left;
        FlushNext(storage, tableOplog, r, wasTable, wasRows, wasIndex, done);
        left := left - {r};
        done := done + {r};
      }
      assert done == oplogMap.Keys;
    }

    /** All thread oplogs go to the table oplog and to the process rows, and are gone here. */
    method FlushCacheOpLog(storage: ProcessStorage, tableOplog: TableOpLog)
      requires Valid() && tableOplog.Valid() && Fits(tableOplog) && HavePlaces(tableOplog)
      modifies this`oplogIndex, this`oplogMap, this`base, storage`rows
      modifies tableOplog.SparseFrame(), tableOplog.VectorFrame()
      ensures Valid() && tableOplog.Valid() && oplogMap == map[]
      ensures Flushed(old(oplogMap), old(tableOplog.Logs()), old(storage.rows), old(oplogMap).Keys,
                      tableOplog.Logs(), storage.rows)
      ensures Indexed(old(oplogMap), channel, old(oplogIndex), old(oplogMap).Keys, oplogIndex)
    {
      hide ReadsOwnWrites, Flushed, Indexed, TableOpLog.Valid, TableOpLog.Logs;
      FlushAll(storage, tableOplog);
      oplogMap := map[];
      base := rowStorage;
      ReadsBase(rowStorage);
    }

    method FlushCache(storage: ProcessStorage, tableOplog: TableOpLog)
      requires Valid() && tableOplog.Valid() && Fits(tableOplog) && HavePlaces(tableOplog)
      modifies this, storage`rows, tableOplog.SparseFrame(), tableOplog.VectorFrame()
      ensures Valid() && tableOplog.Valid() && oplogMap == map[] && rowStorage == map[]
      ensures Flushed(old(oplogMap), old(tableOplog.Logs()), old(storage.rows), old(oplogMap).Keys,
                      tableOplog.Logs(), storage.rows)
      ensures Indexed(old(oplogMap), channel, old(oplogIndex), old(oplogMap).Keys, oplogIndex)
    {
      hide Flushed, Indexed, TableOpLog.Valid, TableOpLog.Logs;
      FlushCacheOpLog(storage, tableOplog);
      rowStorage, base := map[], map[];
    }
  }

  /** The oplogs of the rows in `done` were added to the table's oplogs and to the cached process rows. */
  ghost predicate Flushed(mine: map<int, RowOpLog>, wasTable: map<int, RowOpLog>, wasRows: map<int, Row>,
                          done: set<int>,
                          table: map<int, RowOpLog>, rows: map<int, Row>)
  {
    && table.Keys == wasTable.Keys + done && rows.Keys == wasRows.Keys
    && (forall r :: r in done ==> LogPlus(LogOf(wasTable, r), LogOf(mine, r), LogOf(table, r)))
    && (forall r :: r !in done ==> LogOf(table, r) == LogOf(wasTable, r))
    && (forall r :: r in rows ==>
          if r in done then RowPlus(wasRows[r], LogOf(mine, r), rows[r]) else rows[r] == wasRows[r])
  }

  /** Rows in `done` that have something in their oplog are in the index of their channel, and nothing left it. */
  ghost predicate Indexed(mine: map<int, RowOpLog>, channel: int -> nat, was: seq<set<int>>, done: set<int>,
                          index: seq<set<int>>)
  {
    && |index| == |was|
    && (forall p :: 0 <= p < |was| ==> was[p] <= index[p] <= was[p] + done)
    && (forall r :: r in done && NonZero(LogOf(mine, r)) && channel(r) < |index| ==> r in index[channel(r)])
  }

  ghost predicate NonZero(log: RowOpLog) {
    exists col :: log.Get(col) != 0
  }

  lemma NothingFlushed(mine: map<int, RowOpLog>, table: map<int, RowOpLog>, rows: map<int, Row>, channel: int -> nat,
                       index: seq<set<int>>)
    ensures Flushed(mine, table, rows, {}, table, rows) && Indexed(mine, channel, index, {}, index)
  {
  }

  lemma ReadsBase(rows: map<int, Row>)
    ensures ReadsOwnWrites(rows, rows, map[])
  {
  }

  lemma FlushedNext(mine: map<int, RowOpLog>, wasTable: map<int, RowOpLog>, wasRows: map<int, Row>, done: set<int>,
                    table1: map<int, RowOpLog>, rows1: map<int, Row>, row: int, table2: map<int, RowOpLog>,
                    table: map<int, RowOpLog>, rows: map<int, Row>, dense: bool, capacity: nat)
    requires Flushed(mine, wasTable, wasRows, done, table1, rows1) && row in mine && row !in done
    requires table2 == if row in table1 then table1 else table1[row := Fresh(dense, capacity)]
    requires table.Keys == table2.Keys && table - {row} == table2 - {row} && LogPlus(table2[row], mine[row], table[row])
    requires rows.Keys == rows1.Keys && rows - {row} == rows1 - {row}
    requires row in rows ==> RowPlus(rows1[row], mine[row], rows[row])
    ensures Flushed(mine, wasTable, wasRows, done + {row}, table, rows)
  {
    hide RowPlus;
    forall r | r != row ensures LogOf(table, r) == LogOf(table1, r) && (r in rows ==> rows[r] == rows1[r]) {
      SameBut(table, table2, row, r);
      SameBut(rows, rows1, row, r);
    }
    assert LogOf(table1, row) == LogOf(wasTable, row);
    assert LogPlus(LogOf(wasTable, row), LogOf(mine, row), LogOf(table, row));
    hide LogPlus;
  }

  lemma SameBut<V>(a: map<int, V>, b: map<int, V>, row: int, r: int)
    requires a - {row} == b - {row} && r != row
    ensures (r in a <==> r in b) && (r in a ==> a[r] == b[r])
  {
    assert r in a - {row} <==> r in b - {row};
    assert r in a ==> (a - {row})[r] == (b - {row})[r];
  }

  lemma IndexedNext(mine: map<int, RowOpLog>, channel: int -> nat, was: seq<set<int>>, done: set<int>,
                    index1: seq<set<int>>, row: int, index: seq<set<int>>)
    requires Indexed(mine, channel, was, done, index1) && row in mine && channel(row) < |index1|
    requires index == index1 || index == index1[channel(row) := index1[channel(row)] + {row}]
    requires NonZero(mine[row]) ==> row in index[channel(row)]
    ensures Indexed(mine, channel, was, done + {row}, index)
  {
    hide NonZero;
  }

  lemma GrewPlus(was: RowOpLog, items: Items, log: RowOpLog, now: RowOpLog)
    requires Grew(was, items, now) && forall col :: SumAt(items, col) == log.Get(col)
    ensures LogPlus(was, log, now)
  {
  }

  lemma RowGrewPlus(was: Row, items: Items, log: RowOpLog, now: Row)
    requires RowGrew(was, items, now) && forall col :: SumAt(items, col) == log.Get(col)
    ensures RowPlus(was, log, now)
  {
  }

  /** Oplogs of the same shape have the same columns. */
  lemma FreshHas(log: RowOpLog, dense: bool, capacity: nat, items: Items)
    requires log.Shaped(dense, capacity) && Covers(log, items)
    ensures forall other: RowOpLog :: other.Shaped(dense, capacity) ==> AllHas(other, items)
  {
  }
}
