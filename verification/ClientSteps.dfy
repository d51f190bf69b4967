/** What the methods of the thread cache and of the consistency controllers do is what the steps of the protocol do. */
module ClientSteps {
  import opened Rows
  import opened RowOpLogs
  import opened TableOpLogs
  import opened ThreadTables
  import opened VectorClocks
  import opened Protocol

  /** A row oplog has the numbers of a cell, and a stored row has. */
  ghost predicate LogIs(log: RowOpLog, cell: Cell) {
    forall col :: log.Get(col) == Val(cell.vals, col)
  }

  ghost predicate RowIs(row: Row, cell: Cell) {
    forall col :: Val(row, col) == Val(cell.vals, col)
  }

  /** The oplogs that thread t has for table n. */
  ghost predicate ThreadLogs(s: State, t: Thread, n: nat, logs: map<int, RowOpLog>) {
    forall r: nat :: ThreadLog(s, t, Key(n, r), r in logs, LogOf(logs, r))
  }

  ghost predicate ThreadLog(s: State, t: Thread, key: Key, has: bool, log: RowOpLog) {
    (has <==> (t, key) in s.tOplog) && LogIs(log, Oplog(s.tOplog, (t, key)))
  }

  /** The rows of table n that thread t caches. */
  ghost predicate ThreadCache(s: State, t: Thread, n: nat, rows: map<int, Row>) {
    forall r: nat :: ThreadCached(s, t, Key(n, r), r in rows, if r in rows then rows[r] else map[])
  }

  ghost predicate ThreadCached(s: State, t: Thread, key: Key, has: bool, row: Row) {
    (has <==> (t, key) in s.tCache) && (has ==> RowIs(row, s.tCache[(t, key)]))
  }

  /** The thread's index of table n, all channels together. */
  ghost predicate ThreadIndex(s: State, t: Thread, n: nat, rows: set<int>) {
    forall r: nat :: r in rows <==> Key(n, r) in Index(s.tIndex, t)
  }

  /** The oplogs and the cached rows that process c has for table n. */
  ghost predicate Process(s: State, c: nat, n: nat, logs: map<int, RowOpLog>, rows: map<int, Row>) {
    forall r: nat ::
      ProcessRow(s, c, Key(n, r), r in logs, LogOf(logs, r), r in rows, if r in rows then rows[r] else map[])
  }

  ghost predicate ProcessRow(s: State, c: nat, key: Key, hasLog: bool, log: RowOpLog, has: bool, row: Row) {
    && (hasLog <==> (c, key) in s.pOplog) && LogIs(log, Oplog(s.pOplog, (c, key)))
    && (has <==> (c, key) in s.pRow) && (has ==> RowIs(row, s.pRow[(c, key)].cell))
  }

  /** The delta of an update is what its items add up to. */
  ghost predicate DeltaIs(items: Items, delta: Row) {
    forall col :: Val(delta, col) == SumAt(items, col)
  }

  lemma LogGrows(was: RowOpLog, cell: Cell, items: Items, now: RowOpLog, more: Cell)
    requires LogIs(was, cell) && Grew(was, items, now) && DeltaIs(items, more.vals)
    ensures LogIs(now, Merge(cell, more))
  {
    forall col ensures now.Get(col) == Val(Merge(cell, more).vals, col) {
      AddVal(cell.vals, more.vals, col);
    }
  }

  lemma RowGrows(was: Row, cell: Cell, items: Items, now: Row, more: Cell)
    requires RowIs(was, cell) && RowGrew(was, items, now) && DeltaIs(items, more.vals)
    ensures RowIs(now, Merge(cell, more))
  {
    forall col ensures Val(now, col) == Val(Merge(cell, more).vals, col) {
      AddVal(cell.vals, more.vals, col);
    }
  }

  lemma LogAdds(was: RowOpLog, cell: Cell, log: RowOpLog, now: RowOpLog, more: Cell)
    requires LogIs(was, cell) && LogPlus(was, log, now) && LogIs(log, more)
    ensures LogIs(now, Merge(cell, more))
  {
    forall col ensures now.Get(col) == Val(Merge(cell, more).vals, col) {
      AddVal(cell.vals, more.vals, col);
    }
  }

  lemma RowAdds(was: Row, cell: Cell, log: RowOpLog, now: Row, more: Cell)
    requires RowIs(was, cell) && RowPlus(was, log, now) && LogIs(log, more)
    ensures RowIs(now, Merge(cell, more))
  {
    forall col ensures Val(now, col) == Val(Merge(cell, more).vals, col) {
      AddVal(cell.vals, more.vals, col);
    }
  }

  lemma Others<V>(a: map<int, V>, b: map<int, V>, row: int)
    requires a - {row} == b - {row}
    ensures forall r :: r != row ==> ((r in a <==> r in b) && (r in a ==> a[r] == b[r]))
  {
    forall r | r != row ensures (r in a <==> r in b) && (r in a ==> a[r] == b[r]) {
      SameBut(a, b, row, r);
    }
  }

  /** What an update means for one row. */
  lemma UpdatedAt(logs: map<int, RowOpLog>, rows: map<int, Row>, row: int, items: Items, logs': map<int, RowOpLog>,
                  rows': map<int, Row>, r: int)
    requires Updated(logs, rows, row, items, logs', rows')
    ensures (r in rows' <==> r in rows) && (r in logs' <==> r in logs || r == row)
    ensures r != row ==> LogOf(logs', r) == LogOf(logs, r) && (r in rows ==> rows'[r] == rows[r])
    ensures r == row ==>
      Grew(LogOf(logs, r), items, LogOf(logs', r)) && (r in rows ==> RowGrew(rows[r], items, rows'[r]))
  {
    if r != row {
      SameBut(logs', logs, row, r);
      SameBut(rows', rows, row, r);
    }
  }

  lemma ThreadIncLog(s: State, t: Thread, n: nat, row: nat, items: Items, delta: Row, logs: map<int, RowOpLog>,
                     rows: map<int, Row>, logs': map<int, RowOpLog>, rows': map<int, Row>, r: nat)
    requires ThreadLog(s, t, Key(n, r), r in logs, LogOf(logs, r))
    requires Updated(logs, rows, row, items, logs', rows') && DeltaIs(items, delta)
    ensures ThreadLog(DoThreadInc(s, t, Key(n, row), delta), t, Key(n, r), r in logs', LogOf(logs', r))
  {
    hide LogIs, RowIs, Grew, RowGrew, DeltaIs, Merge;
    if r == row {
      LogGrows(LogOf(logs, row), Oplog(s.tOplog, (t, Key(n, row))), items, logs'[row], Cell(delta, {|s.log|}));
    } else {
      SameBut(logs', logs, row, r);
    }
  }

  lemma ThreadIncRow(s: State, t: Thread, n: nat, row: nat, items: Items, delta: Row, logs: map<int, RowOpLog>,
                     rows: map<int, Row>, logs': map<int, RowOpLog>, rows': map<int, Row>, r: nat)
    requires ThreadCached(s, t, Key(n, r), r in rows, if r in rows then rows[r] else map[])
    requires Updated(logs, rows, row, items, logs', rows') && DeltaIs(items, delta)
    ensures ThreadCached(DoThreadInc(s, t, Key(n, row), delta), t, Key(n, r), r in rows',
                         if r in rows' then rows'[r] else map[])
  {
    hide LogIs, RowIs, Grew, RowGrew, DeltaIs, Merge;
    if r != row {
      SameBut(rows', rows, row, r);
    } else if row in rows {
      RowGrows(rows[row], s.tCache[(t, Key(n, row))], items, rows'[row], Cell(delta, {|s.log|}));
    }
  }

  /** ThreadTable.Inc, BatchInc and DenseBatchInc are the step ThreadInc. */
  lemma ThreadIncMatches(s: State, t: Thread, n: nat, row: nat, items: Items, delta: Row,
                         logs: map<int, RowOpLog>, rows: map<int, Row>, logs': map<int, RowOpLog>, rows': map<int, Row>)
    requires ThreadLogs(s, t, n, logs) && ThreadCache(s, t, n, rows)
    requires Updated(logs, rows, row, items, logs', rows') && DeltaIs(items, delta)
    ensures ThreadLogs(DoThreadInc(s, t, Key(n, row), delta), t, n, logs')
    ensures ThreadCache(DoThreadInc(s, t, Key(n, row), delta), t, n, rows')
  {
    hide ThreadLog, ThreadCached, Updated, DeltaIs, DoThreadInc, LogOf;
    var s' := DoThreadInc(s, t, Key(n, row), delta);
    forall r: nat ensures ThreadLog(s', t, Key(n, r), r in logs', LogOf(logs', r)) {
      ThreadIncLog(s, t, n, row, items, delta, logs, rows, logs', rows', r);
    }
    forall r: nat ensures ThreadCached(s', t, Key(n, r), r in rows', if r in rows' then rows'[r] else map[]) {
      ThreadIncRow(s, t, n, row, items, delta, logs, rows, logs', rows', r);
    }
  }

  lemma IncRow(s: State, t: Thread, n: nat, row: nat, items: Items, delta: Row, logs: map<int, RowOpLog>,
               rows: map<int, Row>, logs': map<int, RowOpLog>, rows': map<int, Row>, r: nat)
    requires ProcessRow(s, t.client, Key(n, r), r in logs, LogOf(logs, r), r in rows,
                        if r in rows then rows[r] else map[])
    requires Updated(logs, rows, row, items, logs', rows') && DeltaIs(items, delta)
    ensures ProcessRow(DoInc(s, t, Key(n, row), delta), t.client, Key(n, r), r in logs', LogOf(logs', r), r in rows',
                       if r in rows' then rows'[r] else map[])
  {
    hide LogIs, RowIs, Grew, RowGrew, DeltaIs, Merge, Updated, LogOf, DoInc;
    var key, cell := Key(n, row), Cell(delta, {|s.log|});
    DoIncIs(s, t, key, delta);
    UpdatedAt(logs, rows, row, items, logs', rows', r);
    if r == row {
      LogGrows(LogOf(logs, row), Oplog(s.pOplog, (t.client, key)), items, LogOf(logs', row), cell);
      if row in rows {
        RowGrows(rows[row], s.pRow[(t.client, key)].cell, items, rows'[row], cell);
      }
    }
  }

  lemma DoIncIs(s: State, t: Thread, key: Key, delta: Row)
    ensures var s', cell := DoInc(s, t, key, delta), Cell(delta, {|s.log|});
      && (forall k :: Oplog(s'.pOplog, (t.client, k))
            == if k == key then Merge(Oplog(s.pOplog, (t.client, k)), cell) else Oplog(s.pOplog, (t.client, k)))
      && (forall k :: (t.client, k) in s'.pOplog <==> (t.client, k) in s.pOplog || k == key)
      && (forall k :: (t.client, k) in s'.pRow <==> (t.client, k) in s.pRow)
      && (forall k :: (t.client, k) in s.pRow ==>
            s'.pRow[(t.client, k)].cell
              == if k == key then Merge(s.pRow[(t.client, k)].cell, cell) else s.pRow[(t.client, k)].cell)
  {
    hide Merge;
  }

  /** The controller's Inc, BatchInc and DenseBatchInc are the step Inc, the index included. */
  lemma IncMatches(s: State, t: Thread, n: nat, row: nat, items: Items, delta: Row, index: set<int>,
                   logs: map<int, RowOpLog>, rows: map<int, Row>, logs': map<int, RowOpLog>, rows': map<int, Row>)
    requires Process(s, t.client, n, logs, rows) && ThreadIndex(s, t, n, index)
    requires Updated(logs, rows, row, items, logs', rows') && DeltaIs(items, delta)
    ensures Process(DoInc(s, t, Key(n, row), delta), t.client, n, logs', rows')
    ensures ThreadIndex(DoInc(s, t, Key(n, row), delta), t, n, index + {row})
  {
    hide ProcessRow, Updated, DeltaIs, LogOf, Merge;
    var s', c := DoInc(s, t, Key(n, row), delta), t.client;
    forall r: nat
      ensures ProcessRow(s', c, Key(n, r), r in logs', LogOf(logs', r), r in rows',
                         if r in rows' then rows'[r] else map[])
    {
      IncRow(s, t, n, row, items, delta, logs, rows, logs', rows', r);
    }
  }

  /** InsertRow with the process row is the step Fetch. */
  lemma FetchMatches(s: State, t: Thread, n: nat, row: nat, logs: map<int, RowOpLog>, toInsert: Row,
                     rows: map<int, Row>, rows': map<int, Row>)
    requires ThreadLogs(s, t, n, logs) && ThreadCache(s, t, n, rows)
    requires (t.client, Key(n, row)) in s.pRow && RowIs(toInsert, s.pRow[(t.client, Key(n, row))].cell)
    requires rows'.Keys == rows.Keys + {row} && rows' - {row} == rows - {row}
    requires RowPlus(toInsert, LogOf(logs, row), rows'[row])
    ensures ThreadCache(DoFetch(s, t, Key(n, row)), t, n, rows')
  {
    hide LogIs, RowIs, RowPlus, Merge;
    var s' := DoFetch(s, t, Key(n, row));
    Others(rows', rows, row);
    assert ThreadLog(s, t, Key(n, row), row in logs, LogOf(logs, row));
    RowAdds(toInsert, s.pRow[(t.client, Key(n, row))].cell, LogOf(logs, row), rows'[row],
            Oplog(s.tOplog, (t, Key(n, row))));
    forall r: nat ensures ThreadCached(s', t, Key(n, r), r in rows', if r in rows' then rows'[r] else map[]) {
      assert ThreadCached(s, t, Key(n, r), r in rows, if r in rows then rows[r] else map[]);
    }
  }

  /** The clocks of the rows of table n that process c caches. */
  ghost predicate RowClocks(s: State, c: nat, n: nat, clocks: map<int, int>) {
    forall r: nat :: RowClock(s, c, Key(n, r), r in clocks, if r in clocks then clocks[r] else 0)
  }

  ghost predicate RowClock(s: State, c: nat, key: Key, has: bool, clock: int) {
    (has <==> (c, key) in s.pRow) && (has ==> clock == s.pRow[(c, key)].clock)
  }

  /** Get lets exactly the cached rows through that may be read in the protocol, and the row it then returns is the
      protocol's. */
  lemma GetMatches(cfg: Config, s: State, t: Thread, n: nat, row: nat, logs: map<int, RowOpLog>, rows: map<int, Row>,
                   clocks: map<int, int>)
    requires !cfg.push && n < cfg.tables
    requires Process(s, t.client, n, logs, rows) && RowClocks(s, t.client, n, clocks) && clocks.Keys == rows.Keys
    ensures FreshEnough(cfg, s, t, Key(n, row)) <==>
      row in rows && Clock(s.clock, t) - cfg.staleness[n] <= clocks[row] && 0 <= clocks[row]
    ensures row in rows ==> (t.client, Key(n, row)) in s.pRow && RowIs(rows[row], s.pRow[(t.client, Key(n, row))].cell)
  {
    assert ProcessRow(s, t.client, Key(n, row), row in logs, LogOf(logs, row), row in rows,
                      if row in rows then rows[row] else map[]);
    assert RowClock(s, t.client, Key(n, row), row in clocks, if row in clocks then clocks[row] else 0);
  }

  /** Under SSPPush it is the system clock that counts. The cached one is never ahead of it. */
  lemma PushGetMatches(cfg: Config, s: State, t: Thread, n: nat, row: nat, logs: map<int, RowOpLog>,
                       rows: map<int, Row>, cached: int)
    requires cfg.push && n < cfg.tables && cached <= SysClockOf(s.sysClock, t.client)
    requires Process(s, t.client, n, logs, rows)
    ensures row in rows && Clock(s.clock, t) - cfg.staleness[n] <= cached && 0 <= cached ==>
      FreshEnough(cfg, s, t, Key(n, row))
    ensures FreshEnough(cfg, s, t, Key(n, row)) <==>
      && row in rows && Clock(s.clock, t) - cfg.staleness[n] <= SysClockOf(s.sysClock, t.client)
      && 0 <= SysClockOf(s.sysClock, t.client)
    ensures row in rows ==> (t.client, Key(n, row)) in s.pRow && RowIs(rows[row], s.pRow[(t.client, Key(n, row))].cell)
  {
    assert ProcessRow(s, t.client, Key(n, row), row in logs, LogOf(logs, row), row in rows,
                      if row in rows then rows[row] else map[]);
  }

  lemma AddsNothing(log: RowOpLog, was: RowOpLog, cell: Cell, now: RowOpLog)
    requires LogIs(was, cell) && LogPlus(was, log, now) && forall col :: log.Get(col) == 0
    ensures LogIs(now, Merge(cell, ZERO))
  {
    forall col ensures now.Get(col) == Val(Merge(cell, ZERO).vals, col) {
      AddVal(cell.vals, ZERO.vals, col);
    }
  }

  /** Flushing one row oplog is the step FlushRow: with the index if its walk gave anything, and otherwise it adds up to
      zero and is dropped. The row leaves the thread's oplogs and its cache; table oplog and process row grow by it. */
  lemma FlushMatches(s: State, t: Thread, n: nat, row: nat, items: Items, index: set<int>, mine: map<int, RowOpLog>,
                     cache: map<int, Row>, logs: map<int, RowOpLog>, rows: map<int, Row>, logs': map<int, RowOpLog>,
                     rows': map<int, Row>)
    requires ThreadLogs(s, t, n, mine) && ThreadCache(s, t, n, cache) && ThreadIndex(s, t, n, index)
    requires Process(s, t.client, n, logs, rows)
    requires row in mine && Covers(mine[row], items)
    requires logs'.Keys == logs.Keys + {row} && logs' - {row} == logs - {row}
    requires LogPlus(LogOf(logs, row), mine[row], LogOf(logs', row))
    requires rows'.Keys == rows.Keys && rows' - {row} == rows - {row}
    requires row in rows ==> RowPlus(rows[row], mine[row], rows'[row])
    ensures (t, Key(n, row)) in s.tOplog
    ensures items != [] || forall col :: Val(s.tOplog[(t, Key(n, row))].vals, col) == 0
    ensures var s' := DoFlushRow(s, t, Key(n, row), items != []);
      && ThreadLogs(s', t, n, mine - {row})
      && ThreadCache(s', t, n, cache - {row})
      && Process(s', t.client, n, logs', rows')
      && ThreadIndex(s', t, n, if items != [] then index + {row} else index)
  {
    hide ProcessRow, LogOf, LogPlus, RowPlus, Merge;
    var indexed := items != [];
    var s', c := DoFlushRow(s, t, Key(n, row), indexed), t.client;
    FlushedNothing(s, t, n, row, items, mine);
    FlushedLogs(s, t, n, row, indexed, mine);
    FlushedCache(s, t, n, row, indexed, cache);
    hide ThreadLog, ThreadCached, Covers;
    forall r: nat
      ensures ProcessRow(s', c, Key(n, r), r in logs', LogOf(logs', r), r in rows',
                         if r in rows' then rows'[r] else map[])
    {
      FlushedAt(s, t, n, row, indexed, mine, logs, rows, logs', rows', r);
    }
  }

  lemma FlushedNothing(s: State, t: Thread, n: nat, row: nat, items: Items, mine: map<int, RowOpLog>)
    requires ThreadLogs(s, t, n, mine) && row in mine && Covers(mine[row], items)
    ensures (t, Key(n, row)) in s.tOplog
    ensures items == [] ==> forall col :: mine[row].Get(col) == 0 && Val(s.tOplog[(t, Key(n, row))].vals, col) == 0
  {
    assert ThreadLog(s, t, Key(n, row), row in mine, LogOf(mine, row));
  }

  lemma FlushedAt(s: State, t: Thread, n: nat, row: nat, indexed: bool, mine: map<int, RowOpLog>,
                  logs: map<int, RowOpLog>, rows: map<int, Row>, logs': map<int, RowOpLog>, rows': map<int, Row>,
                  r: nat)
    requires ThreadLogs(s, t, n, mine) && row in mine && (!indexed ==> forall col :: mine[row].Get(col) == 0)
    requires ProcessRow(s, t.client, Key(n, r), r in logs, LogOf(logs, r), r in rows,
                        if r in rows then rows[r] else map[])
    requires logs'.Keys == logs.Keys + {row} && logs' - {row} == logs - {row}
    requires LogPlus(LogOf(logs, row), mine[row], LogOf(logs', row))
    requires rows'.Keys == rows.Keys && rows' - {row} == rows - {row}
    requires row in rows ==> RowPlus(rows[row], mine[row], rows'[row])
    ensures ProcessRow(DoFlushRow(s, t, Key(n, row), indexed), t.client, Key(n, r), r in logs', LogOf(logs', r),
                       r in rows', if r in rows' then rows'[r] else map[])
  {
    hide LogIs, RowIs, LogPlus, RowPlus, Merge;
    if r == row {
      assert ThreadLog(s, t, Key(n, row), row in mine, LogOf(mine, row));
      FlushedRow(s, t, Key(n, row), indexed, mine[row], row in logs, LogOf(logs, row), row in rows,
                 if row in rows then rows[row] else map[], LogOf(logs', row),
                 if row in rows' then rows'[row] else map[]);
    } else {
      SameBut(logs', logs, row, r);
      SameBut(rows', rows, row, r);
    }
  }

  lemma FlushedCache(s: State, t: Thread, n: nat, row: nat, indexed: bool, cache: map<int, Row>)
    requires ThreadCache(s, t, n, cache)
    ensures ThreadCache(DoFlushRow(s, t, Key(n, row), indexed), t, n, cache - {row})
  {
    hide Merge;
    var s', cache' := DoFlushRow(s, t, Key(n, row), indexed), cache - {row};
    forall r: nat ensures ThreadCached(s', t, Key(n, r), r in cache', if r in cache' then cache'[r] else map[]) {
      assert ThreadCached(s, t, Key(n, r), r in cache, if r in cache then cache[r] else map[]);
    }
  }

  lemma FlushedLogs(s: State, t: Thread, n: nat, row: nat, indexed: bool, mine: map<int, RowOpLog>)
    requires ThreadLogs(s, t, n, mine)
    ensures ThreadLogs(DoFlushRow(s, t, Key(n, row), indexed), t, n, mine - {row})
  {
    var s' := DoFlushRow(s, t, Key(n, row), indexed);
    forall r: nat ensures ThreadLog(s', t, Key(n, r), r in mine - {row}, LogOf(mine - {row}, r)) {
      assert ThreadLog(s, t, Key(n, r), r in mine, LogOf(mine, r));
    }
  }

  lemma FlushedRow(s: State, t: Thread, key: Key, indexed: bool, mine: RowOpLog, hasLog: bool, log: RowOpLog, has: bool,
                   row: Row, log': RowOpLog, row': Row)
    requires ProcessRow(s, t.client, key, hasLog, log, has, row) && LogIs(mine, Oplog(s.tOplog, (t, key)))
    requires (!indexed ==> forall col :: mine.Get(col) == 0) && LogPlus(log, mine, log')
    requires has ==> RowPlus(row, mine, row')
    ensures ProcessRow(DoFlushRow(s, t, key, indexed), t.client, key, true, log', has, row')
  {
    var cell := Oplog(s.tOplog, (t, key));
    if indexed {
      LogAdds(log, Oplog(s.pOplog, (t.client, key)), mine, log', cell);
      if has {
        RowAdds(row, s.pRow[(t.client, key)].cell, mine, row', cell);
      }
    } else {
      AddsNothing(mine, log, Oplog(s.pOplog, (t.client, key)), log');
    }
  }

  /** When all of a table's oplogs are flushed, dropping the cached rows ends the flush of the table. */
  lemma EndFlushMatches(cfg: Config, s: State, t: Thread, n: nat)
    requires cfg.HasThread(t) && PcOf(s.pc, t) == FlushCache(n) && ThreadLogs(s, t, n, map[])
    ensures MayEndFlush(cfg, s, t)
    ensures ThreadCache(DoEndFlush(s, t, n), t, n, map[]) && ThreadLogs(DoEndFlush(s, t, n), t, n, map[])
  {
    NothingHeld(s, t, n);
    var none: map<int, RowOpLog>, s' := map[], DoEndFlush(s, t, n);
    forall r: nat ensures ThreadLog(s', t, Key(n, r), false, NO_LOG) && ThreadCached(s', t, Key(n, r), false, map[]) {
      assert ThreadLog(s, t, Key(n, r), r in none, LogOf(none, r));
    }
  }

  lemma NothingHeld(s: State, t: Thread, n: nat)
    requires ThreadLogs(s, t, n, map[])
    ensures forall w :: w in s.tOplog && w.0 == t ==> w.1.table != n
  {
    var none: map<int, RowOpLog> := map[];
    forall w | w in s.tOplog && w.0 == t ensures w.1.table != n {
      assert w == (t, Key(w.1.table, w.1.row));
      assert w.1.table == n ==> ThreadLog(s, t, Key(n, w.1.row), w.1.row in none, LogOf(none, w.1.row));
    }
  }

  /** FlushThreadCache drops the cached rows of the table in mid-iteration, which is the step Forget. */
  lemma ForgetMatches(s: State, t: Thread, n: nat, o: Thread, m: nat, rows: map<int, Row>)
    requires ThreadCache(s, o, m, rows)
    ensures var s' := s.(tCache := Uncached(s.tCache, t, n));
      ThreadCache(s', o, m, if (o, m) == (t, n) then map[] else rows)
  {
    var s', rows' := s.(tCache := Uncached(s.tCache, t, n)), if (o, m) == (t, n) then map[] else rows;
    forall r: nat ensures ThreadCached(s', o, Key(m, r), r in rows', if r in rows' then rows'[r] else map[]) {
      assert ThreadCached(s, o, Key(m, r), r in rows, if r in rows then rows[r] else map[]);
    }
  }

  // ---- TableGroup.Clock ----

  /** The vector clock of client c has the number of iterations that each of its threads has finished. */
  ghost predicate ThreadClocks(cfg: Config, ticks: map<Thread, nat>, c: nat, v: VC) {
    && c < |cfg.threads| && v.Valid()
    && (forall i: int :: i in v.clk <==> 0 <= i < cfg.threads[c])
    && (forall i: nat {:trigger Clock(ticks, Thread(c, i))} ::
          i < cfg.threads[c] ==> v.clk[i] == Clock(ticks, Thread(c, i)))
  }

  lemma Least(v: VC) returns (i: int)
    requires v.Valid()
    ensures i in v.clk && v.clk[i] == v.min
  {
    i :| i in v.clk && v.clk[i] == v.min;
  }

  lemma SameUniqueMin(cfg: Config, ticks: map<Thread, nat>, t: Thread, v: VC)
    requires ThreadClocks(cfg, ticks, t.client, v) && cfg.HasThread(t)
    ensures v.UniqueMin(t.idx) <==> UniqueMin(cfg, ticks, t)
  {
    if v.UniqueMin(t.idx) {
      forall o | cfg.HasThread(o) && o.client == t.client && o != t ensures Clock(ticks, t) < Clock(ticks, o) {
        assert v.clk[o.idx] == Clock(ticks, Thread(t.client, o.idx));
        assert v.clk[t.idx] == Clock(ticks, Thread(t.client, t.idx));
      }
    }
    if UniqueMin(cfg, ticks, t) {
      var least := Least(v);
      var i: nat := least;
      assert cfg.HasThread(Thread(t.client, i));
      assert v.clk[t.idx] == Clock(ticks, Thread(t.client, t.idx));
      assert v.clk[i] == Clock(ticks, Thread(t.client, i));
      forall j | j in v.clk && j != t.idx ensures v.clk[j] != v.min {
        assert cfg.HasThread(Thread(t.client, j));
        assert v.clk[j] == Clock(ticks, Thread(t.client, j));
      }
    }
  }

  /** Ticking the thread's entry is the step TickClock; and the workers are told to clock, which is what the steps Post
      are, exactly if the least entry moved. */
  lemma TickMatches(cfg: Config, s: State, t: Thread, v: VC)
    requires ThreadClocks(cfg, s.ticks, t.client, v) && cfg.HasThread(t)
    ensures ThreadClocks(cfg, DoTick(cfg, s, t).ticks, t.client, v.Tick(t.idx))
    ensures PcOf(DoTick(cfg, s, t).pc, t) == if v.Tick(t.idx).min != v.min then Posting(0) else Running
  {
    hide UniqueMin, VC.UniqueMin, VC.Valid;
    TickValid(v, t.idx);
    SameUniqueMin(cfg, s.ticks, t, v);
    var ticks', w := DoTick(cfg, s, t).ticks, v.Tick(t.idx);
    forall i: nat | i < cfg.threads[t.client] ensures w.clk[i] == Clock(ticks', Thread(t.client, i)) {
      assert v.clk[i] == Clock(s.ticks, Thread(t.client, i));
    }
  }

  /** The iteration that each thread of client c is in. */
  ghost predicate Iterations(cfg: Config, s: State, c: nat, clocks: map<int, int>) {
    && c < |cfg.threads|
    && (forall i: nat {:trigger Clock(s.clock, Thread(c, i))} ::
          i < cfg.threads[c] ==> i in clocks && clocks[i] == Clock(s.clock, Thread(c, i)))
  }

  /** Clock begins with the thread's own clock, before anything is flushed. */
  lemma ClockBeginMatches(cfg: Config, s: State, t: Thread, clocks: map<int, int>)
    requires Iterations(cfg, s, t.client, clocks) && cfg.HasThread(t)
    ensures t.idx in clocks
    ensures Iterations(cfg, DoClockBegin(cfg, s, t), t.client, clocks[t.idx := clocks[t.idx] + 1])
  {
    assert Clock(s.clock, Thread(t.client, t.idx)) >= 0;
    assert t.idx in clocks;
    var s' := DoClockBegin(cfg, s, t);
    forall i: nat | i < cfg.threads[t.client]
      ensures i in clocks && clocks[t.idx := clocks[t.idx] + 1][i] == Clock(s'.clock, Thread(t.client, i))
    {
      assert Clock(s.clock, Thread(t.client, i)) >= 0;
    }
  }

  // ---- The oplog index ----

  /** The rows of table n in channel p that an index has. */
  ghost predicate IndexIs(cfg: Config, index: set<Key>, n: nat, p: nat, rows: set<int>) {
    forall r: nat :: r in rows <==> Key(n, r) in index && Chan(cfg, Key(n, r)) == p
  }

  /** One turn of the loop of FlushOpLogIndex is the step AddIndex: the channel's part of the thread's index is added to
      the shared index and emptied; other channels and tables stay as they are. */
  lemma AddIndexMatches(cfg: Config, s: State, t: Thread, n: nat, p: nat, mine: set<int>, shared: set<int>,
                        m: nat, q: nat, mine2: set<int>, shared2: set<int>)
    requires IndexIs(cfg, Index(s.tIndex, t), n, p, mine) && IndexIs(cfg, Index(s.sIndex, t.client), n, p, shared)
    requires IndexIs(cfg, Index(s.tIndex, t), m, q, mine2) && IndexIs(cfg, Index(s.sIndex, t.client), m, q, shared2)
    ensures var s' := DoAddIndex(cfg, s, t, n, p);
      && IndexIs(cfg, Index(s'.tIndex, t), n, p, {})
      && IndexIs(cfg, Index(s'.sIndex, t.client), n, p, shared + mine)
      && ((m, q) != (n, p) ==>
            IndexIs(cfg, Index(s'.tIndex, t), m, q, mine2) && IndexIs(cfg, Index(s'.sIndex, t.client), m, q, shared2))
  {
    var part := set k | k in Index(s.tIndex, t) && k.table == n && Chan(cfg, k) == p;
    var s' := DoAddIndex(cfg, s, t, n, p);
    assert Index(s'.tIndex, t) == Index(s.tIndex, t) - part;
    assert Index(s'.sIndex, t.client) == Index(s.sIndex, t.client) + part;
    hide DoAddIndex, Index;
  }
}
