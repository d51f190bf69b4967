/** The layout of oplog messages, and the cursor with which a server reads them back. */
module OpLogFormat {
  import opened Codec
  import opened Options

  type bytes = seq<byte>

  /** One row oplog. Sparse: the columns that were touched, each with its update. Dense: an update for every column. */
  datatype RowLog = Sparse(updates: seq<(int, bytes)>) | Dense(values: seq<bytes>)

  /** What a server knows of a table: how its oplogs are serialized. */
  datatype Info = Info(dense: bool, updateSize: nat, rowSize: nat)

  datatype Table = Table(id: int, rows: seq<(int, RowLog)>)

  datatype Entry = Entry(table: int, row: int, log: RowLog)

  predicate LogOk(info: Info, log: RowLog) {
    match log
    case Sparse(us) =>
      && !info.dense && |us| < 0x8000_0000
      && forall i :: 0 <= i < |us| ==> IsInt32(us[i].0) && |us[i].1| == info.updateSize
    case Dense(vs) => info.dense && |vs| == info.rowSize && forall i :: 0 <= i < |vs| ==> |vs[i]| == info.updateSize
  }

  predicate RowsOk(info: Info, rows: seq<(int, RowLog)>) {
    forall i :: 0 <= i < |rows| ==> IsInt32(rows[i].0) && LogOk(info, rows[i].1)
  }

  predicate TablesOk(infos: map<int, Info>, ts: seq<Table>) {
    forall i :: 0 <= i < |ts| ==> TableOk(infos, ts[i])
  }

  predicate TableOk(infos: map<int, Info>, t: Table) {
    && IsInt32(t.id) && t.id in infos && infos[t.id].updateSize < TWO_64
    && |t.rows| < 0x8000_0000 && RowsOk(infos[t.id], t.rows)
  }

  // ---- Writing ----

  function EncCols(us: seq<(int, bytes)>): bytes
    requires forall i :: 0 <= i < |us| ==> IsInt32(us[i].0)
  {
    if us == [] then [] else Enc32(us[0].0) + EncCols(us[1..])
  }

  function EncUpdates(us: seq<(int, bytes)>): bytes {
    if us == [] then [] else us[0].1 + EncUpdates(us[1..])
  }

  function EncValues(vs: seq<bytes>): bytes {
    if vs == [] then [] else vs[0] + EncValues(vs[1..])
  }

  /** Sparse: the number of updates, then all column ids, then all updates. */
  function EncLog(info: Info, log: RowLog): bytes
    requires LogOk(info, log)
  {
    match log
    case Sparse(us) => Enc32(|us|) + EncCols(us) + EncUpdates(us)
    case Dense(vs) => EncValues(vs)
  }

  function EncRows(info: Info, rows: seq<(int, RowLog)>): bytes
    requires RowsOk(info, rows)
  {
    if rows == [] then [] else Enc32(rows[0].0) + EncLog(info, rows[0].1) + EncRows(info, rows[1..])
  }

  function EncTable(infos: map<int, Info>, t: Table): bytes
    requires TableOk(infos, t)
  {
    Enc32(t.id) + EncSize(infos[t.id].updateSize) + (Enc32(|t.rows|) + EncRows(infos[t.id], t.rows))
  }

  function EncTables(infos: map<int, Info>, ts: seq<Table>): bytes
    requires TablesOk(infos, ts)
  {
    if ts == [] then [] else EncTable(infos, ts[0]) + EncTables(infos, ts[1..])
  }

  function EncMsg(infos: map<int, Info>, ts: seq<Table>): bytes
    requires TablesOk(infos, ts) && |ts| < 0x8000_0000
  {
    Enc32(|ts|) + EncTables(infos, ts)
  }

  // ---- Reading ----

  predicate At(mem: bytes, off: nat, b: bytes) {
    off + |b| <= |mem| && mem[off..off + |b|] == b
  }

  lemma AtSplit(mem: bytes, off: nat, a: bytes, b: bytes)
    requires At(mem, off, a + b)
    ensures At(mem, off, a) && At(mem, off + |a|, b)
  {
    assert (a + b)[..|a|] == a && (a + b)[|a|..] == b;
    assert mem[off..off + |a|] == mem[off..off + |a + b|][..|a|];
    assert mem[off + |a|..off + |a + b|] == mem[off..off + |a + b|][|a|..];
  }

  lemma AtInt32(mem: bytes, off: nat, x: int)
    requires IsInt32(x) && At(mem, off, Enc32(x))
    ensures off + 4 <= |mem| && Int32At(mem, off) == x
  {
    DecEnc32(x);
  }

  function Cols(mem: bytes, cols: nat, upds: nat, size: nat, n: nat): (us: seq<(int, bytes)>)
    requires cols + 4 * n <= |mem| && upds + Times(size, n) <= |mem|
    ensures |us| == n
    decreases n
  {
    if n == 0 then []
    else
      [(Int32At(mem, cols), mem[upds..upds + size])] + Cols(mem, cols + 4, upds + size, size, n - 1)
  }

  function Values(mem: bytes, off: nat, size: nat, n: nat): (vs: seq<bytes>)
    requires off + Times(size, n) <= |mem|
    ensures |vs| == n
    decreases n
  {
    if n == 0 then []
    else
      [mem[off..off + size]] + Values(mem, off + size, size, n - 1)
  }

  /** There is a whole row oplog at `off`. */
  predicate HasLog(info: Info, mem: bytes, off: nat) {
    if info.dense then off + Times(info.updateSize, info.rowSize) <= |mem|
    else
      && off + 4 <= |mem| && 0 <= Int32At(mem, off)
      && off + 4 + 4 * Int32At(mem, off) + Times(info.updateSize, Int32At(mem, off)) <= |mem|
  }

  function Times(size: nat, n: nat): nat {
    if n == 0 then 0 else Times(size, n - 1) + size
  }

  /** ParseDenseSerializedOpLog and ParseSparseSerializedOpLog: the row oplog and how many bytes it takes. */
  function ParseLog(info: Info, mem: bytes, off: nat): (r: (RowLog, nat))
    requires HasLog(info, mem, off)
    ensures off + r.1 <= |mem|
  {
    if info.dense then (Dense(Values(mem, off, info.updateSize, info.rowSize)), Times(info.updateSize, info.rowSize))
    else
      var n := Int32At(mem, off);
      (Sparse(Cols(mem, off + 4, off + 4 + 4 * n, info.updateSize, n)), 4 + 4 * n + Times(info.updateSize, n))
  }

  lemma {:induction false} ColsAt(mem: bytes, cols: nat, upds: nat, size: nat, us: seq<(int, bytes)>)
    requires forall i :: 0 <= i < |us| ==> IsInt32(us[i].0) && |us[i].1| == size
    requires At(mem, cols, EncCols(us)) && At(mem, upds, EncUpdates(us))
    ensures |EncCols(us)| == 4 * |us| && |EncUpdates(us)| == Times(size, |us|)
    ensures Cols(mem, cols, upds, size, |us|) == us
    decreases |us|
  {
    if us != [] {
      AtSplit(mem, cols, Enc32(us[0].0), EncCols(us[1..]));
      AtSplit(mem, upds, us[0].1, EncUpdates(us[1..]));
      AtInt32(mem, cols, us[0].0);
      ColsAt(mem, cols + 4, upds + size, size, us[1..]);
    }
  }

  lemma {:induction false} ValuesAt(mem: bytes, off: nat, size: nat, vs: seq<bytes>)
    requires (forall i :: 0 <= i < |vs| ==> |vs[i]| == size) && At(mem, off, EncValues(vs))
    ensures |EncValues(vs)| == Times(size, |vs|) && Values(mem, off, size, |vs|) == vs
    decreases |vs|
  {
    if vs != [] {
      AtSplit(mem, off, vs[0], EncValues(vs[1..]));
      ValuesAt(mem, off + size, size, vs[1..]);
    }
  }

  /** Parsing a row oplog that was serialized gives it back, and its size. */
  lemma LogAt(info: Info, mem: bytes, off: nat, log: RowLog)
    requires LogOk(info, log) && At(mem, off, EncLog(info, log))
    ensures HasLog(info, mem, off) && ParseLog(info, mem, off) == (log, |EncLog(info, log)|)
  {
    match log
    case Sparse(us) =>
      AtSplit(mem, off, Enc32(|us|) + EncCols(us), EncUpdates(us));
      AtSplit(mem, off, Enc32(|us|), EncCols(us));
      AtInt32(mem, off, |us|);
      ColsLength(us);
      ColsAt(mem, off + 4, off + 4 + 4 * |us|, info.updateSize, us);
    case Dense(vs) => ValuesAt(mem, off, info.updateSize, vs);
  }

  lemma {:induction false} ColsLength(us: seq<(int, bytes)>)
    requires forall i :: 0 <= i < |us| ==> IsInt32(us[i].0)
    ensures |EncCols(us)| == 4 * |us|
  {
    if us != [] {
      ColsLength(us[1..]);
    }
  }

  // ---- The cursor ----

  /** Where the reader is: how many tables are left, counting the one it is in; which table that is, and how many of its
      rows are left. */
  datatype Cursor = Cursor(off: nat, tablesLeft: int, table: int, rowsLeft: int)

  /** StartNewTable needs a whole header and a table that the server has. */
  predicate HasHeader(infos: map<int, Info>, mem: bytes, off: nat) {
    off + 16 <= |mem| && Int32At(mem, off) in infos
  }

  function AfterHeader(mem: bytes, off: nat, tablesLeft: int): Cursor
    requires off + 16 <= |mem|
  {
    Cursor(off + 16, tablesLeft, Int32At(mem, off), Int32At(mem, off + 12))
  }

  /** The reader can go on to the end without running over its memory. */
  ghost predicate Readable(infos: map<int, Info>, mem: bytes, c: Cursor)
    decreases |mem| - c.off, c.tablesLeft
  {
    c.tablesLeft == 0 ||
    (0 < c.tablesLeft && c.off <= |mem| &&
     if c.rowsLeft > 0 then
       && c.table in infos && c.off + 4 <= |mem| && HasLog(infos[c.table], mem, c.off + 4)
       && Readable(infos, mem, NextRow(infos, mem, c))
     else
       c.tablesLeft == 1 ||
       (HasHeader(infos, mem, c.off) && Readable(infos, mem, AfterHeader(mem, c.off, c.tablesLeft - 1))))
  }

  function NextRow(infos: map<int, Info>, mem: bytes, c: Cursor): (d: Cursor)
    requires c.table in infos && c.off + 4 <= |mem| && HasLog(infos[c.table], mem, c.off + 4)
    ensures c.off < d.off <= |mem|
  {
    c.(off := c.off + 4 + ParseLog(infos[c.table], mem, c.off + 4).1, rowsLeft := c.rowsLeft - 1)
  }

  /** The row oplogs that are still to be read. */
  ghost function Entries(infos: map<int, Info>, mem: bytes, c: Cursor): seq<Entry>
    requires Readable(infos, mem, c)
    decreases |mem| - c.off, c.tablesLeft
  {
    if c.tablesLeft == 0 then []
    else if c.rowsLeft > 0 then
      [Entry(c.table, Int32At(mem, c.off), ParseLog(infos[c.table], mem, c.off + 4).0)]
      + Entries(infos, mem, NextRow(infos, mem, c))
    else if c.tablesLeft == 1 then []
    else Entries(infos, mem, AfterHeader(mem, c.off, c.tablesLeft - 1))
  }

  /** All row oplogs of some tables, in order. */
  function AllEntries(ts: seq<Table>): seq<Entry> {
    if ts == [] then [] else RowEntries(ts[0].id, ts[0].rows) + AllEntries(ts[1..])
  }

  function RowEntries(table: int, rows: seq<(int, RowLog)>): (s: seq<Entry>)
    ensures |s| == |rows|
  {
    if rows == [] then [] else [Entry(table, rows[0].0, rows[0].1)] + RowEntries(table, rows[1..])
  }

  lemma EntriesRow(infos: map<int, Info>, mem: bytes, c: Cursor)
    requires 0 < c.tablesLeft && 0 < c.rowsLeft && c.table in infos && c.off + 4 <= |mem|
    requires HasLog(infos[c.table], mem, c.off + 4) && Readable(infos, mem, NextRow(infos, mem, c))
    ensures Readable(infos, mem, c)
    ensures Entries(infos, mem, c)
         == [Entry(c.table, Int32At(mem, c.off), ParseLog(infos[c.table], mem, c.off + 4).0)]
            + Entries(infos, mem, NextRow(infos, mem, c))
  {
    hide HasLog, ParseLog, Int32At;
  }

  lemma ReadRow(infos: map<int, Info>, mem: bytes, c: Cursor, row: int, log: RowLog)
    requires 0 < c.tablesLeft && 0 < c.rowsLeft && c.table in infos && IsInt32(row) && LogOk(infos[c.table], log)
    requires At(mem, c.off, Enc32(row)) && At(mem, c.off + 4, EncLog(infos[c.table], log))
    requires Readable(infos, mem, c.(off := c.off + 4 + |EncLog(infos[c.table], log)|, rowsLeft := c.rowsLeft - 1))
    ensures Readable(infos, mem, c)
    ensures Entries(infos, mem, c)
         == [Entry(c.table, row, log)]
            + Entries(infos, mem, c.(off := c.off + 4 + |EncLog(infos[c.table], log)|, rowsLeft := c.rowsLeft - 1))
  {
    hide Int32At, ParseLog, HasLog, EncLog, LogOk, Readable, Entries;
    AtInt32(mem, c.off, row);
    LogAt(infos[c.table], mem, c.off + 4, log);
    EntriesRow(infos, mem, c);
  }

  lemma SplitRows(info: Info, mem: bytes, off: nat, rows: seq<(int, RowLog)>, more: bytes)
    requires rows != [] && RowsOk(info, rows) && At(mem, off, EncRows(info, rows) + more)
    ensures At(mem, off, Enc32(rows[0].0)) && At(mem, off + 4, EncLog(info, rows[0].1))
    ensures RowsOk(info, rows[1..])
    ensures At(mem, off + 4 + |EncLog(info, rows[0].1)|, EncRows(info, rows[1..]) + more)
  {
    hide At, EncLog, LogOk;
    var head, log, rest := Enc32(rows[0].0), EncLog(info, rows[0].1), EncRows(info, rows[1..]) + more;
    assert EncRows(info, rows) + more == head + (log + rest);
    AtSplit(mem, off, head, log + rest);
    AtSplit(mem, off + 4, log, rest);
  }

  /** Inside a table: its remaining rows, then the tables that follow. */
  lemma {:induction false} ReadRows(infos: map<int, Info>, mem: bytes, off: nat, table: int,
                                    rows: seq<(int, RowLog)>, ts: seq<Table>)
    requires table in infos && RowsOk(infos[table], rows) && TablesOk(infos, ts)
    requires At(mem, off, EncRows(infos[table], rows) + EncTables(infos, ts))
    ensures var c := Cursor(off, |ts| + 1, table, |rows|);
      Readable(infos, mem, c) && Entries(infos, mem, c) == RowEntries(table, rows) + AllEntries(ts)
    decreases |ts|, |rows| + 2
  {
    hide EncLog, Readable, Entries, EncTables, EncRows, At, AllEntries, RowsOk, TablesOk, LogOk, HasHeader, EncTable;
    if rows == [] {
      ReadNoRows(infos, mem, off, table, ts);
    } else {
      RowFirst(infos[table], rows);
      SplitRows(infos[table], mem, off, rows, EncTables(infos, ts));
      ReadRows(infos, mem, off + 4 + |EncLog(infos[table], rows[0].1)|, table, rows[1..], ts);
      ReadRow(infos, mem, Cursor(off, |ts| + 1, table, |rows|), rows[0].0, rows[0].1);
      assert [Entry(table, rows[0].0, rows[0].1)] + (RowEntries(table, rows[1..]) + AllEntries(ts))
          == RowEntries(table, rows) + AllEntries(ts);
    }
  }

  /** A table without rows left is skipped. */
  lemma {:induction false} ReadNoRows(infos: map<int, Info>, mem: bytes, off: nat, table: int, ts: seq<Table>)
    requires table in infos && TablesOk(infos, ts)
    requires At(mem, off, EncRows(infos[table], []) + EncTables(infos, ts))
    ensures var c := Cursor(off, |ts| + 1, table, 0);
      Readable(infos, mem, c) && Entries(infos, mem, c) == AllEntries(ts)
    decreases |ts|, 1
  {
    hide EncTables, HasHeader, TablesOk;
    assert EncRows(infos[table], []) + EncTables(infos, ts) == EncTables(infos, ts);
    if ts != [] {
      ReadTable(infos, mem, off, ts);
    }
  }

  lemma RowFirst(info: Info, rows: seq<(int, RowLog)>)
    requires rows != [] && RowsOk(info, rows)
    ensures IsInt32(rows[0].0) && LogOk(info, rows[0].1)
  {
  }

  lemma {:induction false} ReadTable(infos: map<int, Info>, mem: bytes, off: nat, ts: seq<Table>)
    requires TablesOk(infos, ts) && ts != [] && At(mem, off, EncTables(infos, ts))
    ensures HasHeader(infos, mem, off)
    ensures var c := AfterHeader(mem, off, |ts|);
      Readable(infos, mem, c) && Entries(infos, mem, c) == AllEntries(ts)
    decreases |ts|, 0
  {
    hide Int32At, EncRows, Readable, Entries;
    var t, info := ts[0], infos[ts[0].id];
    var a, b, c, d := Enc32(t.id), EncSize(info.updateSize), Enc32(|t.rows|), EncRows(info, t.rows);
    assert EncTables(infos, ts) == a + (b + (c + (d + EncTables(infos, ts[1..]))));
    AtSplit(mem, off, a, b + (c + (d + EncTables(infos, ts[1..]))));
    AtSplit(mem, off + 4, b, c + (d + EncTables(infos, ts[1..])));
    AtSplit(mem, off + 12, c, d + EncTables(infos, ts[1..]));
    AtInt32(mem, off, t.id);
    AtInt32(mem, off + 12, |t.rows|);
    ReadRows(infos, mem, off + 16, t.id, t.rows, ts[1..]);
  }

  // ---- Whole messages ----

  /** A message starts with its number of tables; a message without tables has nothing after that. */
  ghost predicate MsgReadable(infos: map<int, Info>, mem: bytes) {
    && 4 <= |mem| && 0 <= Int32At(mem, 0)
    && (Int32At(mem, 0) != 0 ==> HasHeader(infos, mem, 4) && Readable(infos, mem, AfterHeader(mem, 4, Int32At(mem, 0))))
  }

  ghost function MsgEntries(infos: map<int, Info>, mem: bytes): seq<Entry>
    requires MsgReadable(infos, mem)
  {
    if Int32At(mem, 0) == 0 then [] else Entries(infos, mem, AfterHeader(mem, 4, Int32At(mem, 0)))
  }

  /** Round trip: reading a message gives every row oplog of every table, in order, whether or not tables are empty. */
  lemma ReadMsg(infos: map<int, Info>, ts: seq<Table>)
    requires TablesOk(infos, ts) && |ts| < 0x8000_0000
    ensures MsgReadable(infos, EncMsg(infos, ts))
    ensures MsgEntries(infos, EncMsg(infos, ts)) == AllEntries(ts)
  {
    hide EncTables, Readable, Entries, HasHeader, TablesOk, Int32At;
    var mem := EncMsg(infos, ts);
    assert At(mem, 0, Enc32(|ts|) + EncTables(infos, ts));
    AtSplit(mem, 0, Enc32(|ts|), EncTables(infos, ts));
    AtInt32(mem, 0, |ts|);
    if ts != [] {
      ReadTable(infos, mem, 4, ts);
    }
  }

  class SerializedOpLogReader {
    const mem: bytes
    const serverTables: map<int, Info>
    var offset: nat
    var numTablesLeft: int
    var currentTableId: int
    var numRowsLeft: int

    constructor (mem: bytes, serverTables: map<int, Info>)
      ensures this.mem == mem && this.serverTables == serverTables
    {
      this.mem, this.serverTables := mem, serverTables;
      offset, numTablesLeft, currentTableId, numRowsLeft := 0, 0, 0, 0;
    }

    ghost function Cur(): Cursor reads this {
      Cursor(offset, numTablesLeft, currentTableId, numRowsLeft)
    }

    ghost predicate Valid() reads this {
      Readable(serverTables, mem, Cur())
    }

    /** What Next has not returned yet. */
    ghost function Rest(): seq<Entry>
      reads this
      requires Valid()
    {
      Entries(serverTables, mem, Cur())
    }

    method StartNewTable()
      requires HasHeader(serverTables, mem, offset)
      modifies this
      ensures Cur() == AfterHeader(mem, old(offset), old(numTablesLeft))
    {
      currentTableId := Int32At(mem, offset);
      numRowsLeft := Int32At(mem, offset + 12);
      offset := offset + 16;
    }

    method Restart() returns (toRead: bool)
      requires MsgReadable(serverTables, mem)
      modifies this
      ensures Valid() && Rest() == MsgEntries(serverTables, mem)
      ensures !toRead ==> Rest() == []
    {
      numTablesLeft := Int32At(mem, 0);
      offset := 4;
      if numTablesLeft == 0 {
        return false;
      }
      StartNewTable();
      return true;
    }

    /** The next row oplog, if there is one, and whether this call entered a new table. */
    method Next() returns (next: Option<Entry>, startedNewTable: bool)
      requires Valid()
      modifies this
      ensures Valid()
      ensures old(Rest()) == [] ==> next == None && Rest() == []
      ensures old(Rest()) != [] ==> next == Some(old(Rest())[0]) && Rest() == old(Rest())[1..]
      ensures next.Some? ==> next.value.table == currentTableId && currentTableId in serverTables
      ensures !startedNewTable && next.Some? ==> next.value.table == old(currentTableId)
    {
      hide Int32At, HasLog, ParseLog;
      startedNewTable := false;
      if numTablesLeft == 0 {
        return None, false;
      }
      while true
        invariant 0 < numTablesLeft && Valid() && Rest() == old(Rest())
        invariant !startedNewTable ==> currentTableId == old(currentTableId)
        decreases numTablesLeft
      {
        if numRowsLeft > 0 {
          var row := Int32At(mem, offset);
          var log := ParseLog(serverTables[currentTableId], mem, offset + 4);
          assert Entries(serverTables, mem, Cur())
              == [Entry(currentTableId, row, log.0)] + Entries(serverTables, mem, NextRow(serverTables, mem, Cur()));
          offset := offset + 4 + log.1;
          numRowsLeft := numRowsLeft - 1;
          return Some(Entry(currentTableId, row, log.0)), startedNewTable;
        }
        numTablesLeft := numTablesLeft - 1;
        if numTablesLeft > 0 {
          StartNewTable();
          startedNewTable := true;
        } else {
          return None, startedNewTable;
        }
      }
    }
  }

  lemma {:induction false} ColsPlain(mem: bytes, cols: nat, upds: nat, size: nat, n: nat, i: nat)
    requires cols + 4 * n <= |mem| && upds + Times(size, n) <= |mem| && i < n
    ensures upds + Times(size, i) + size <= |mem|
    ensures Cols(mem, cols, upds, size, n)[i]
         == (Int32At(mem, cols + 4 * i), mem[upds + Times(size, i)..upds + Times(size, i) + size])
    decreases n
  {
    hide Int32At;
    TimesNext(size, n - 1);
    if i > 0 {
      ColsPlain(mem, cols + 4, upds + size, size, n - 1, i - 1);
      TimesNext(size, i - 1);
    }
  }

  lemma {:induction false} TimesNext(size: nat, n: nat)
    ensures Times(size, n + 1) == size + Times(size, n)
  {
    if n > 0 {
      TimesNext(size, n - 1);
    }
  }

  lemma {:induction false} TimesIs(size: nat, n: nat)
    ensures Times(size, n) == size * n
  {
    if n > 0 {
      TimesIs(size, n - 1);
    }
  }

  /** Where everything in a sparse row oplog is: the number of updates, the column ids from 4 on, and the updates behind
      them. */
  lemma SparseLayout(info: Info, mem: bytes, off: nat, us: seq<(int, bytes)>)
    requires LogOk(info, Sparse(us)) && At(mem, off, EncLog(info, Sparse(us)))
    ensures off + 4 + 4 * |us| + info.updateSize * |us| <= |mem| && Int32At(mem, off) == |us|
    ensures forall i :: 0 <= i < |us| ==>
      && Int32At(mem, off + 4 + 4 * i) == us[i].0
      && var at := off + 4 + 4 * |us| + Times(info.updateSize, i);
         at + info.updateSize <= |mem| && mem[at..at + info.updateSize] == us[i].1
  {
    hide EncLog, Int32At;
    LogAt(info, mem, off, Sparse(us));
    TimesIs(info.updateSize, |us|);
    assert Cols(mem, off + 4, off + 4 + 4 * |us|, info.updateSize, |us|) == us;
    forall i | 0 <= i < |us|
      ensures Int32At(mem, off + 4 + 4 * i) == us[i].0
      ensures var at := off + 4 + 4 * |us| + Times(info.updateSize, i);
        at + info.updateSize <= |mem| && mem[at..at + info.updateSize] == us[i].1
    {
      ColsPlain(mem, off + 4, off + 4 + 4 * |us|, info.updateSize, |us|, i);
    }
  }
}
