/** The client side of the oplog pipeline: a batch of row oplogs is split by server and serialized, one message for
    each server that has rows in it. All servers' messages are filled in one pass over the rows of a table. */
module OpLogSenders {
  import opened Codec
  import opened OpLogFormat
  import opened Options

  type RowLogs = seq<(int, RowLog)>

  /** A batch: the row oplogs of every table. `tables` are the table ids in the order of a std::map, and `home` is
      the server that stores a row. */
  datatype Job = Job(tables: seq<int>, infos: map<int, Info>, home: int -> int, batch: seq<RowLogs>)
  {
    ghost predicate Valid() {
      && |batch| == |tables| < 0x8000_0000
      && (forall i, j :: 0 <= i < j < |tables| ==> tables[i] < tables[j])
      && (forall k :: 0 <= k < |tables| ==> IsInt32(tables[k]) && HasInfo(k))
    }

    ghost predicate HasInfo(k: nat)
      requires k < |tables| == |batch|
    {
      && tables[k] in infos && infos[tables[k]].updateSize < TWO_64
      && |batch[k]| < 0x8000_0000 && RowsOk(infos[tables[k]], batch[k])
    }

    ghost function Part(v: int, k: nat): RowLogs
      requires k < |batch|
    {
      ForServer(home, batch[k], v)
    }

    /** The tables among the first n that have rows for server v, each with those rows. */
    ghost function Tabs(v: int, n: nat): (ts: seq<Table>)
      requires n <= |tables| == |batch|
      ensures |ts| <= n
    {
      if n == 0 then []
      else Tabs(v, n - 1) + if Part(v, n - 1) == [] then [] else [Table(tables[n - 1], Part(v, n - 1))]
    }
  }

  /** The rows stored by server v, in order. */
  ghost function ForServer(home: int -> int, rows: RowLogs, v: int): (part: RowLogs)
    ensures |part| <= |rows|
  {
    if rows == [] then []
    else
      var n := |rows| - 1;
      ForServer(home, rows[..n], v) + if home(rows[n].0) == v then [rows[n]] else []
  }

  lemma ForServerNext(home: int -> int, rows: RowLogs, i: nat, v: int)
    requires i < |rows|
    ensures ForServer(home, rows[..i + 1], v)
         == ForServer(home, rows[..i], v) + if home(rows[i].0) == v then [rows[i]] else []
  {
    assert rows[..i + 1][..i] == rows[..i];
  }

  lemma {:induction false} ForServerOk(home: int -> int, rows: RowLogs, v: int, info: Info)
    requires RowsOk(info, rows)
    ensures RowsOk(info, ForServer(home, rows, v))
    ensures forall e :: e in ForServer(home, rows, v) <==> e in rows && home(e.0) == v
  {
    if rows != [] {
      var n := |rows| - 1;
      ForServerOk(home, rows[..n], v, info);
      assert rows == rows[..n] + [rows[n]];
    }
  }

  lemma {:induction false} EncRowsAppend(info: Info, a: RowLogs, b: RowLogs)
    requires RowsOk(info, a) && RowsOk(info, b)
    ensures RowsOk(info, a + b) && EncRows(info, a + b) == EncRows(info, a) + EncRows(info, b)
  {
    hide EncLog, LogOk;
    if a == [] {
      assert a + b == b;
    } else {
      assert (a + b)[1..] == a[1..] + b;
      EncRowsAppend(info, a[1..], b);
    }
  }

  lemma EncOneRow(info: Info, e: (int, RowLog))
    requires IsInt32(e.0) && LogOk(info, e.1)
    ensures RowsOk(info, [e]) && EncRows(info, [e]) == Enc32(e.0) + EncLog(info, e.1)
  {
    hide EncLog;
    assert EncRows(info, [e][1..]) == [];
  }

  lemma {:induction false} EncTablesAppend(infos: map<int, Info>, a: seq<Table>, t: Table)
    requires TablesOk(infos, a) && TableOk(infos, t)
    ensures TablesOk(infos, a + [t])
    ensures EncTables(infos, a + [t]) == EncTables(infos, a) + EncTable(infos, t)
  {
    hide EncTable, TableOk;
    if a == [] {
      assert [t][1..] == [] && a + [t] == [t];
    } else {
      assert (a + [t])[1..] == a[1..] + [t];
      EncTablesAppend(infos, a[1..], t);
    }
  }

  lemma TabsOk(job: Job, v: int, n: nat)
    requires job.Valid() && n <= |job.tables|
    ensures TablesOk(job.infos, job.Tabs(v, n))
  {
    hide RowsOk;
    if n > 0 {
      TabsOk(job, v, n - 1);
      assert job.HasInfo(n - 1);
      ForServerOk(job.home, job.batch[n - 1], v, job.infos[job.tables[n - 1]]);
    }
  }

  lemma RowAt(info: Info, rows: RowLogs, i: nat)
    requires i < |rows| && RowsOk(info, rows)
    ensures IsInt32(rows[i].0) && LogOk(info, rows[i].1) && RowsOk(info, rows[..i]) && RowsOk(info, rows[..i + 1])
  {
  }

  // ---- Writing into a message ----

  function Splice(mem: bytes, off: nat, b: bytes): (m: bytes)
    requires off + |b| <= |mem|
    ensures |m| == |mem|
  {
    mem[..off] + b + mem[off + |b|..]
  }

  lemma SpliceAt(mem: bytes, off: nat, b: bytes)
    requires off + |b| <= |mem|
    ensures At(Splice(mem, off, b), off, b)
  {
  }

  lemma SpliceKeeps(mem: bytes, off: nat, b: bytes, at: nat, c: bytes)
    requires off + |b| <= |mem| && At(mem, at, c) && (at + |c| <= off || off + |b| <= at)
    ensures At(Splice(mem, off, b), at, c)
  {
    var m := Splice(mem, off, b);
    forall i | 0 <= i < |c| ensures m[at + i] == c[i] {
      assert mem[at..at + |c|][i] == c[i];
    }
    assert m[at..at + |c|] == c;
  }

  lemma SpliceMore(mem: bytes, off: nat, a: bytes, b: bytes)
    requires off + |a| + |b| <= |mem|
    ensures Splice(Splice(mem, off, a), off + |a|, b) == Splice(mem, off, a + b)
  {
  }

  lemma SpliceOver(mem: bytes, off: nat, a: bytes, b: bytes, c: bytes)
    requires |a| == |c| && off + |a| + |b| <= |mem|
    ensures Splice(Splice(mem, off, a + b), off, c) == Splice(mem, off, c + b)
  {
  }

  lemma AtJoin(mem: bytes, off: nat, a: bytes, b: bytes)
    requires At(mem, off, a) && At(mem, off + |a|, b)
    ensures At(mem, off, a + b)
  {
    assert mem[off..off + |a + b|] == mem[off..off + |a|] + mem[off + |a|..off + |a| + |b|];
  }

  // ---- The offset layout ----

  /** Where the table after `order` starts: the number of tables, then each table with its id and update size. */
  function Layout(order: seq<int>, sizes: map<int, nat>): nat {
    if order == [] then 4
    else
      var n := |order| - 1;
      Layout(order[..n], sizes) + if order[n] in sizes then 12 + sizes[order[n]] else 0
  }

  lemma {:induction false} LayoutAtLeast(order: seq<int>, sizes: map<int, nat>, k: nat)
    requires k <= |order|
    ensures 4 <= Layout(order[..k], sizes) <= Layout(order, sizes)
  {
    if k < |order| {
      var n := |order| - 1;
      assert order[..n][..k] == order[..k];
      LayoutAtLeast(order[..n], sizes, k);
    } else {
      assert order[..k] == order;
      if k > 0 {
        LayoutAtLeast(order[..k - 1], sizes, k - 1);
        assert order[..k - 1][..k - 1] == order[..k - 1];
      }
    }
  }

  class OpLogSerializer {
    var offsetMap: map<int, nat>
    var numTables: nat

    constructor ()
      ensures offsetMap == map[]
    {
      offsetMap, numTables := map[], 0;
    }

    /** Every table listed so far has its place. */
    ghost predicate Placed(order: seq<int>, sizes: map<int, nat>, k: nat)
      requires k <= |order|
      reads this`offsetMap
    {
      && (forall id :: id in offsetMap <==> id in sizes && id in order[..k])
      && (forall j: nat :: j < k && order[j] in sizes ==> offsetMap[order[j]] == Layout(order[..j], sizes))
    }

    /** Gives every table its place; `order` lists the keys in the order in which a std::map visits them. */
    method Init(order: seq<int>, sizes: map<int, nat>) returns (total: nat)
      requires offsetMap == map[]
      requires forall id :: id in sizes ==> id in order
      requires forall i, j :: 0 <= i < j < |order| ==> order[i] != order[j]
      modifies this
      ensures numTables == |sizes| && (total == 0 <==> sizes == map[])
      ensures Placed(order, sizes, |order|)
      ensures sizes != map[] ==> total == Layout(order, sizes)
    {
      numTables := |sizes|;
      if numTables == 0 {
        assert sizes == map[];
        return 0;
      }
      total := 4;
      var k := 0;
      while k < |order|
        invariant k <= |order| && numTables == |sizes|
        invariant total == Layout(order[..k], sizes)
        invariant Placed(order, sizes, k)
      {
        assert order[..k + 1] == order[..k] + [order[k]] && order[k] !in order[..k];
        assert order[..k + 1][..k] == order[..k];
        if order[k] in sizes {
          offsetMap := offsetMap[order[k] := total];
          total := total + sizes[order[k]] + 12;
        }
        k := k + 1;
      }
      assert order[..k] == order;
      LayoutAtLeast(order, sizes, 0);
    }

    method GetTablePtr(table: int) returns (ptr: Option<nat>)
      ensures ptr == if table in offsetMap then Some(offsetMap[table]) else None
    {
      if table !in offsetMap {
        return None;
      }
      return Some(offsetMap[table]);
    }
  }

  /** How many bytes GetSparseSerializedSize and GetDenseSerializedSize announce. */
  function LogSize(info: Info, log: RowLog): nat {
    match log
    case Sparse(us) => 4 + 4 * |us| + Times(info.updateSize, |us|)
    case Dense(vs) => Times(info.updateSize, info.rowSize)
  }

  /** The size announced for a row oplog is the number of bytes it is serialized to. */
  lemma LogSizeExact(info: Info, log: RowLog)
    requires LogOk(info, log)
    ensures LogSize(info, log) == |EncLog(info, log)|
  {
    match log
    case Sparse(us) =>
      UpdatesLength(us, info.updateSize);
      ColsLength(us);
    case Dense(vs) => ValuesAt(EncValues(vs), 0, info.updateSize, vs);
  }

  lemma {:induction false} UpdatesLength(us: seq<(int, bytes)>, size: nat)
    requires forall i :: 0 <= i < |us| ==> |us[i].1| == size
    ensures |EncUpdates(us)| == Times(size, |us|)
  {
    if us != [] {
      UpdatesLength(us[1..], size);
    }
  }

  /** The rows of server v among `rows` take n bytes. */
  ghost predicate RowBytes(home: int -> int, info: Info, rows: RowLogs, v: int, n: nat)
    requires RowsOk(info, rows)
  {
    ForServerOk(home, rows, v, info);
    n == |EncRows(info, ForServer(home, rows, v))|
  }

  lemma RowBytesNext(home: int -> int, info: Info, rows: RowLogs, i: nat, v: int, was: nat)
    requires i < |rows| && RowsOk(info, rows) && RowsOk(info, rows[..i]) && RowsOk(info, rows[..i + 1])
    requires RowBytes(home, info, rows[..i], v, was)
    ensures LogOk(info, rows[i].1)
    ensures RowBytes(home, info, rows[..i + 1], v,
                     was + if home(rows[i].0) == v then 4 + |EncLog(info, rows[i].1)| else 0)
  {
    hide EncLog, LogOk, EncRows, ForServer;
    RowAt(info, rows, i);
    ForServerNext(home, rows, i, v);
    ForServerOk(home, rows[..i], v, info);
    if home(rows[i].0) == v {
      EncOneRow(info, rows[i]);
      EncRowsAppend(info, ForServer(home, rows[..i], v), [rows[i]]);
    } else {
      assert ForServer(home, rows[..i + 1], v) == ForServer(home, rows[..i], v);
    }
  }

  lemma RowBytesNone(home: int -> int, info: Info, v: int)
    ensures RowBytes(home, info, [], v, 0)
  {
  }

  /** What a table takes in a server's message: nothing, or the number of rows and the rows. */
  function WithCount(rowBytes: nat): nat {
    if rowBytes == 0 then 0 else rowBytes + 4
  }

  function SizesAfter(sizes: map<int, nat>, id: int, n: nat): map<int, nat> {
    if n == 0 then sizes - {id} else sizes[id := n]
  }

  ghost predicate SizesOk(job: Job, v: int, n: nat, sizes: map<int, nat>)
    requires job.Valid() && n <= |job.tables|
  {
    forall k: nat :: k < n ==> SizeOk(job, v, k, sizes)
  }

  ghost predicate SizeOk(job: Job, v: int, k: nat, sizes: map<int, nat>)
    requires job.Valid() && k < |job.tables|
  {
    && RowsOk(job.infos[job.tables[k]], job.Part(v, k))
    && (job.tables[k] in sizes <==> job.Part(v, k) != [])
    && (job.Part(v, k) != [] ==> sizes[job.tables[k]] == 4 + |EncRows(job.infos[job.tables[k]], job.Part(v, k))|)
  }

  lemma {:induction false} TabsFrom(job: Job, v: int, k: nat, n: nat)
    requires job.Valid() && k <= n <= |job.tables|
    ensures |job.Tabs(v, k)| <= |job.Tabs(v, n)|
  {
    if k < n {
      TabsFrom(job, v, k, n - 1);
    }
  }

  ghost function Place(job: Job, v: int, n: nat): (off: nat)
    requires job.Valid() && n <= |job.tables|
    ensures 4 <= off
  {
    TabsOk(job, v, n);
    4 + |EncTables(job.infos, job.Tabs(v, n))|
  }

  function WithPtr(ptrs: map<int, nat>, v: int, ptr: nat): map<int, nat> {
    ptrs[v := ptr]
  }

  /** Behind the header of table k. */
  ghost function RowsStart(job: Job, v: int, k: nat): nat
    requires job.Valid() && k < |job.tables|
  {
    Place(job, v, k) + 12
  }

  ghost function TableBytes(job: Job, v: int, k: nat): bytes
    requires job.Valid() && k < |job.tables|
  {
    OneTable(job, v, k);
    EncTable(job.infos, Table(job.tables[k], job.Part(v, k)))
  }

  ghost function Header(job: Job, k: nat): (b: bytes)
    requires job.Valid() && k < |job.tables|
    ensures |b| == 12
  {
    assert job.HasInfo(k);
    Enc32(job.tables[k]) + EncSize(job.infos[job.tables[k]].updateSize)
  }

  ghost function Body(job: Job, v: int, k: nat): bytes
    requires job.Valid() && k < |job.tables|
  {
    OneTable(job, v, k);
    Enc32(|job.Part(v, k)|) + EncRows(job.infos[job.tables[k]], job.Part(v, k))
  }

  lemma OneTable(job: Job, v: int, k: nat)
    requires job.Valid() && k < |job.tables|
    ensures TableOk(job.infos, Table(job.tables[k], job.Part(v, k)))
  {
    assert job.HasInfo(k);
    ForServerOk(job.home, job.batch[k], v, job.infos[job.tables[k]]);
  }

  lemma HeaderBody(job: Job, v: int, k: nat)
    requires job.Valid() && k < |job.tables|
    ensures TableBytes(job, v, k) == Header(job, k) + Body(job, v, k)
    ensures |TableBytes(job, v, k)| == 12 + |Body(job, v, k)|
  {
    hide EncRows;
    OneTable(job, v, k);
  }

  lemma PlaceNext(job: Job, v: int, k: nat)
    requires job.Valid() && k < |job.tables|
    ensures Place(job, v, k + 1) == Place(job, v, k) + if job.Part(v, k) == [] then 0 else |TableBytes(job, v, k)|
  {
    hide EncTables, EncTable, Job.Part, TableOk, TablesOk, Job.HasInfo;
    TabsOk(job, v, k);
    OneTable(job, v, k);
    if job.Part(v, k) == [] {
      assert job.Tabs(v, k + 1) == job.Tabs(v, k);
    } else {
      EncTablesAppend(job.infos, job.Tabs(v, k), Table(job.tables[k], job.Part(v, k)));
    }
  }

  lemma {:induction false} PlaceGrows(job: Job, v: int, k: nat, n: nat)
    requires job.Valid() && k < n <= |job.tables|
    ensures Place(job, v, k) + (if job.Part(v, k) == [] then 0 else |TableBytes(job, v, k)|) <= Place(job, v, n)
    ensures n < |job.tables| && job.Part(v, n) != [] ==>
      Place(job, v, n) + |TableBytes(job, v, n)| <= Place(job, v, |job.tables|)
    decreases |job.tables| - k, n
  {
    hide Place, TableBytes, Job.Part, Job.HasInfo;
    if k + 1 < n {
      PlaceGrows(job, v, k, n - 1);
      PlaceNext(job, v, n - 1);
    } else {
      PlaceNext(job, v, k);
    }
    if n < |job.tables| {
      PlaceGrows(job, v, n, |job.tables|);
    }
  }

  /** The serializer's offsets are where the tables of the message lie. */
  lemma {:induction false} LayoutIsPlace(job: Job, v: int, n: nat, sizes: map<int, nat>)
    requires job.Valid() && n <= |job.tables| && SizesOk(job, v, n, sizes)
    ensures Layout(job.tables[..n], sizes) == Place(job, v, n)
  {
    if n == 0 {
      TabsOk(job, v, 0);
    } else {
      LayoutIsPlace(job, v, n - 1, sizes);
      assert job.tables[..n][..n - 1] == job.tables[..n - 1];
      assert SizeOk(job, v, n - 1, sizes);
      PlaceNext(job, v, n - 1);
      HeaderBody(job, v, n - 1);
    }
  }

  lemma SizeSays(job: Job, v: int, k: nat, sizes: map<int, nat>)
    requires job.Valid() && k < |job.tables| && SizesOk(job, v, k + 1, sizes)
    ensures SizesOk(job, v, k, sizes) && (job.tables[k] in sizes <==> job.Part(v, k) != [])
  {
    assert SizeOk(job, v, k, sizes);
  }

  lemma {:induction false} TabsCount(job: Job, v: int, n: nat, sizes: map<int, nat>)
    requires job.Valid() && n <= |job.tables| && SizesOk(job, v, n, sizes)
    ensures |job.Tabs(v, n)| == |set id | id in sizes && id in job.tables[..n]|
  {
    hide SizesOk, SizeOk, Job.Part, Job.HasInfo;
    var s := set id | id in sizes && id in job.tables[..n];
    if n == 0 {
      assert s == {};
    } else {
      SizeSays(job, v, n - 1, sizes);
      TabsCount(job, v, n - 1, sizes);
      var r := set id | id in sizes && id in job.tables[..n - 1];
      assert job.tables[..n] == job.tables[..n - 1] + [job.tables[n - 1]];
      assert job.tables[n - 1] !in job.tables[..n - 1];
      assert s == if job.tables[n - 1] in sizes then r + {job.tables[n - 1]} else r;
    }
  }

  // ---- The contents of one server's message ----

  /** Every table of the message has its header, and the tables before `done` have their rows too. */
  ghost predicate Laid(job: Job, v: int, msg: bytes, done: nat)
    requires job.Valid()
  {
    && |msg| == Place(job, v, |job.tables|) && |job.Tabs(v, |job.tables|)| < 0x8000_0000
    && At(msg, 0, Enc32(|job.Tabs(v, |job.tables|)|))
    && forall k: nat :: k < |job.tables| && job.Part(v, k) != [] ==> Stands(job, v, msg, k, k < done)
  }

  /** Table k is where it belongs. */
  ghost predicate Stands(job: Job, v: int, msg: bytes, k: nat, complete: bool)
    requires job.Valid() && k < |job.tables|
  {
    At(msg, Place(job, v, k), if complete then TableBytes(job, v, k) else Header(job, k))
  }

  /** Writing into the part of the message that belongs to table k leaves the other tables alone. */
  lemma StandsStill(job: Job, v: int, msg: bytes, j: nat, complete: bool, k: nat, off: nat, b: bytes)
    requires job.Valid() && j < |job.tables| && Stands(job, v, msg, j, complete) && job.Part(v, j) != []
    requires k < |job.tables| && j != k && job.Part(v, k) != [] && off + |b| <= |msg|
    requires Place(job, v, k) <= off && off + |b| <= Place(job, v, k) + |TableBytes(job, v, k)|
    ensures Stands(job, v, Splice(msg, off, b), j, complete)
  {
    hide TableBytes, Header, Body, Place, Job.Part, Job.HasInfo, Job.Tabs, At, Splice;
    HeaderBody(job, v, j);
    if j < k {
      PlaceGrows(job, v, j, k);
    } else {
      PlaceGrows(job, v, k, j);
    }
    SpliceKeeps(msg, off, b, Place(job, v, j), if complete then TableBytes(job, v, j) else Header(job, j));
  }

  lemma CountStill(job: Job, v: int, msg: bytes, off: nat, b: bytes)
    requires job.Valid() && |job.Tabs(v, |job.tables|)| < 0x8000_0000
    requires At(msg, 0, Enc32(|job.Tabs(v, |job.tables|)|)) && 4 <= off && off + |b| <= |msg|
    ensures At(Splice(msg, off, b), 0, Enc32(|job.Tabs(v, |job.tables|)|))
  {
    hide Job.Tabs, Job.HasInfo, At, Splice;
    SpliceKeeps(msg, off, b, 0, Enc32(|job.Tabs(v, |job.tables|)|));
  }

  /** Writing the rows of table k behind its header completes it. */
  lemma LaidNext(job: Job, v: int, msg: bytes, k: nat)
    requires job.Valid() && k < |job.tables| && Laid(job, v, msg, k) && job.Part(v, k) != []
    ensures Place(job, v, k) + 12 + |Body(job, v, k)| <= |msg|
    ensures Laid(job, v, Splice(msg, Place(job, v, k) + 12, Body(job, v, k)), k + 1)
  {
    hide TableBytes, Header, Body, Place, Job.Part, Job.HasInfo, Job.Tabs, At, Splice;
    HeaderBody(job, v, k);
    PlaceGrows(job, v, k, |job.tables|);
    var off, body := Place(job, v, k) + 12, Body(job, v, k);
    var m := Splice(msg, off, body);
    assert Stands(job, v, msg, k, false);
    SpliceAt(msg, off, body);
    SpliceKeeps(msg, off, body, Place(job, v, k), Header(job, k));
    AtJoin(m, Place(job, v, k), Header(job, k), body);
    assert Stands(job, v, m, k, true);
    CountStill(job, v, msg, off, body);
    hide Stands;
    forall j: nat | j < |job.tables| && job.Part(v, j) != [] ensures Stands(job, v, m, j, j < k + 1) {
      if j != k {
        StandsStill(job, v, msg, j, j < k, k, off, body);
      }
    }
  }

  lemma LaidSkip(job: Job, v: int, msg: bytes, k: nat)
    requires job.Valid() && k < |job.tables| && Laid(job, v, msg, k) && job.Part(v, k) == []
    ensures Laid(job, v, msg, k + 1)
  {
    hide Place, Job.Tabs, At, Stands, Job.Part, Job.HasInfo;
    forall j: nat | j < |job.tables| && job.Part(v, j) != [] ensures Stands(job, v, msg, j, j < k + 1) {
      assert (j < k) == (j < k + 1);
    }
  }

  lemma {:induction false} LaidPrefix(job: Job, v: int, msg: bytes, n: nat)
    requires job.Valid() && n <= |job.tables| && Laid(job, v, msg, |job.tables|)
    ensures TablesOk(job.infos, job.Tabs(v, n)) && At(msg, 4, EncTables(job.infos, job.Tabs(v, n)))
  {
    hide EncTables, EncTable, Job.Part, Job.Tabs, TableOk, TablesOk, Job.HasInfo, At, Stands, Place;
    TabsOk(job, v, n);
    if n == 0 {
      LaidNone(job, v, msg);
    } else {
      LaidPrefix(job, v, msg, n - 1);
      if job.Part(v, n - 1) != [] {
        assert Stands(job, v, msg, n - 1, n - 1 < |job.tables|);
        LaidOne(job, v, msg, n - 1);
      } else {
        NoTable(job, v, n - 1);
      }
    }
  }

  lemma NoTable(job: Job, v: int, k: nat)
    requires job.Valid() && k < |job.tables| && job.Part(v, k) == []
    ensures job.Tabs(v, k + 1) == job.Tabs(v, k)
  {
  }

  lemma LaidNone(job: Job, v: int, msg: bytes)
    requires job.Valid() && |job.Tabs(v, |job.tables|)| < 0x8000_0000
    requires At(msg, 0, Enc32(|job.Tabs(v, |job.tables|)|))
    ensures TablesOk(job.infos, job.Tabs(v, 0)) && At(msg, 4, EncTables(job.infos, job.Tabs(v, 0)))
  {
    assert msg[4..4] == [];
  }

  lemma LaidOne(job: Job, v: int, msg: bytes, k: nat)
    requires job.Valid() && k < |job.tables| && Stands(job, v, msg, k, true) && job.Part(v, k) != []
    requires TablesOk(job.infos, job.Tabs(v, k)) && At(msg, 4, EncTables(job.infos, job.Tabs(v, k)))
    ensures TablesOk(job.infos, job.Tabs(v, k + 1)) && At(msg, 4, EncTables(job.infos, job.Tabs(v, k + 1)))
  {
    hide EncTables, EncTable, Job.Part, TableOk, TablesOk, Job.HasInfo, At;
    OneTable(job, v, k);
    var t := Table(job.tables[k], job.Part(v, k));
    EncTablesAppend(job.infos, job.Tabs(v, k), t);
    AtJoin(msg, 4, EncTables(job.infos, job.Tabs(v, k)), EncTable(job.infos, t));
  }

  /** When every table is complete, the message is the encoding of server v's tables, with nothing left over. */
  lemma LaidIsMessage(job: Job, v: int, msg: bytes)
    requires job.Valid() && Laid(job, v, msg, |job.tables|)
    ensures TablesOk(job.infos, job.Tabs(v, |job.tables|))
    ensures msg == EncMsg(job.infos, job.Tabs(v, |job.tables|))
  {
    hide EncTables, TablesOk, Job.Tabs;
    var n := |job.tables|;
    LaidPrefix(job, v, msg, n);
    AtJoin(msg, 0, Enc32(|job.Tabs(v, n)|), EncTables(job.infos, job.Tabs(v, n)));
  }

  // ---- What SerializeByServer writes for one server ----

  ghost function Out(home: int -> int, info: Info, rows: RowLogs, v: int): (b: bytes)
    requires RowsOk(info, rows) && |rows| < 0x8000_0000
    ensures 4 <= |b|
  {
    ForServerOk(home, rows, v, info);
    Enc32(|ForServer(home, rows, v)|) + EncRows(info, ForServer(home, rows, v))
  }

  lemma OutNone(home: int -> int, info: Info, v: int)
    ensures Out(home, info, [], v) == Enc32(0)
  {
  }

  lemma OutNext(home: int -> int, info: Info, rows: RowLogs, i: nat, v: int)
    requires i < |rows| < 0x8000_0000 && RowsOk(info, rows)
    ensures RowsOk(info, rows[..i]) && RowsOk(info, rows[..i + 1]) && IsInt32(rows[i].0) && LogOk(info, rows[i].1)
    ensures home(rows[i].0) != v ==> Out(home, info, rows[..i + 1], v) == Out(home, info, rows[..i], v)
    ensures home(rows[i].0) == v ==>
      exists n: nat :: n < 0x7FFF_FFFF && OutIs(home, info, rows, i, v, n)
  {
    hide EncLog, LogOk, EncRows, ForServer;
    RowAt(info, rows, i);
    ForServerNext(home, rows, i, v);
    ForServerOk(home, rows[..i], v, info);
    var part := ForServer(home, rows[..i], v);
    if home(rows[i].0) == v {
      EncOneRow(info, rows[i]);
      EncRowsAppend(info, part, [rows[i]]);
      assert OutIs(home, info, rows, i, v, |part|);
    } else {
      assert part + [] == part;
    }
  }

  /** The bytes before and after one more row for the server: the count goes up, and the row comes last. */
  ghost predicate OutIs(home: int -> int, info: Info, rows: RowLogs, i: nat, v: int, n: nat)
    requires i < |rows| < 0x8000_0000 && n < 0x7FFF_FFFF && RowsOk(info, rows[..i]) && RowsOk(info, rows[..i + 1])
    requires IsInt32(rows[i].0) && LogOk(info, rows[i].1)
  {
    ForServerOk(home, rows[..i], v, info);
    var x := EncRows(info, ForServer(home, rows[..i], v));
    && Out(home, info, rows[..i], v) == Enc32(n) + x
    && Out(home, info, rows[..i + 1], v) == Enc32(n + 1) + (x + Enc32(rows[i].0) + EncLog(info, rows[i].1))
  }

  lemma {:induction false} OutGrows(home: int -> int, info: Info, rows: RowLogs, i: nat, v: int)
    requires i <= |rows| < 0x8000_0000 && RowsOk(info, rows)
    ensures RowsOk(info, rows[..i]) && |Out(home, info, rows[..i], v)| <= |Out(home, info, rows, v)|
    decreases |rows| - i
  {
    hide EncLog, LogOk, EncRows, ForServer, Out;
    if i == |rows| {
      assert rows[..i] == rows;
    } else {
      OutNext(home, info, rows, i, v);
      OutGrows(home, info, rows, i + 1, v);
    }
  }

  /** A row is appended behind the running offset, and the count in front is put up by one. */
  function AppendRow(msg: bytes, ptr: nat, off: nat, row: bytes, log: bytes): bytes
    requires 4 <= off && ptr + off + |row| + |log| <= |msg| && -0x8000_0000 <= Int32At(msg, ptr) < 0x7FFF_FFFF
  {
    var m1 := Splice(msg, ptr + off, row);
    var m2 := Splice(m1, ptr + off + |row|, log);
    Splice(m2, ptr, Enc32(Int32At(msg, ptr) + 1))
  }

  lemma Regroup(a: bytes, b: bytes, c: bytes, d: bytes)
    ensures a + b + c + d == a + (b + c + d)
  {
  }

  lemma AppendRowIs(was: bytes, ptr: nat, n: nat, x: bytes, row: bytes, log: bytes)
    requires n < 0x7FFF_FFFF && ptr + 4 + |x| + |row| + |log| <= |was|
    ensures var msg := Splice(was, ptr, Enc32(n) + x);
      && ptr + 4 <= |msg| && Int32At(msg, ptr) == n
      && AppendRow(msg, ptr, 4 + |x|, row, log) == Splice(was, ptr, Enc32(n + 1) + (x + row + log))
  {
    var msg := Splice(was, ptr, Enc32(n) + x);
    hide Splice, Int32At, At, Enc32;
    SpliceAt(was, ptr, Enc32(n) + x);
    AtSplit(msg, ptr, Enc32(n), x);
    AtInt32(msg, ptr, n);
    SpliceMore(was, ptr, Enc32(n) + x, row);
    SpliceMore(was, ptr, Enc32(n) + x + row, log);
    assert Enc32(n) + x + row + log == Enc32(n) + (x + row + log) by { Regroup(Enc32(n), x, row, log); }
    SpliceOver(was, ptr, Enc32(n), x + row + log, Enc32(n + 1));
  }

  lemma AppendRowWrites(home: int -> int, info: Info, rows: RowLogs, i: nat, was: bytes, ptr: nat)
    requires i < |rows| < 0x8000_0000 && RowsOk(info, rows) && RowsOk(info, rows[..i]) && RowsOk(info, rows[..i + 1])
    requires IsInt32(rows[i].0) && LogOk(info, rows[i].1)
    requires ptr + |Out(home, info, rows, home(rows[i].0))| <= |was|
    ensures var v, row, log := home(rows[i].0), Enc32(rows[i].0), EncLog(info, rows[i].1);
      var out, more := Out(home, info, rows[..i], v), Out(home, info, rows[..i + 1], v);
      && |more| == |out| + 4 + |log| && ptr + |more| <= |was|
      && 0 <= Int32At(Splice(was, ptr, out), ptr) < 0x7FFF_FFFF
      && AppendRow(Splice(was, ptr, out), ptr, |out|, row, log) == Splice(was, ptr, more)
  {
    hide EncLog, LogOk, Splice, Int32At, AppendRow, Out, RowsOk;
    var v := home(rows[i].0);
    OutNext(home, info, rows, i, v);
    OutGrows(home, info, rows, i + 1, v);
    var n: nat :| n < 0x7FFF_FFFF && OutIs(home, info, rows, i, v, n);
    ForServerOk(home, rows[..i], v, info);
    var x := EncRows(info, ForServer(home, rows[..i], v));
    AppendRowIs(was, ptr, n, x, Enc32(rows[i].0), EncLog(info, rows[i].1));
  }

  lemma SizeStill(job: Job, v: int, k: nat, j: nat, sizes: map<int, nat>, n: nat)
    requires job.Valid() && j < |job.tables| && k < |job.tables| && j != k && SizeOk(job, v, j, sizes)
    ensures SizeOk(job, v, j, SizesAfter(sizes, job.tables[k], n))
  {
    assert job.tables[j] != job.tables[k];
  }

  /** The part of the background worker that turns a batch into messages. */
  class OpLogSender {
    const tables: seq<int>
    const infos: map<int, Info>
    const home: int -> int
    const servers: seq<int>
    var numBytes: map<int, nat>
    var sizeMap: map<int, map<int, nat>>
    var msgs: map<int, bytes>

    constructor (tables: seq<int>, infos: map<int, Info>, home: int -> int, servers: seq<int>)
      requires forall i, j :: 0 <= i < j < |servers| ==> servers[i] != servers[j]
      ensures this.tables == tables && this.infos == infos && this.home == home && this.servers == servers
      ensures Valid() && msgs == map[]
    {
      this.tables, this.infos, this.home, this.servers := tables, infos, home, servers;
      numBytes, msgs := map[], map[];
      sizeMap := map v | v in servers :: map[];
    }

    ghost predicate Valid()
      reads this`sizeMap
    {
      && (forall i, j :: 0 <= i < j < |servers| ==> servers[i] != servers[j])
      && (forall v :: v in sizeMap <==> v in servers)
      && (forall v, id :: v in sizeMap && id in sizeMap[v] ==> id in tables)
    }

    ghost function JobOf(batch: seq<RowLogs>): Job {
      Job(tables, infos, home, batch)
    }

    /** Every row of the batch is stored by one of the servers. */
    ghost predicate Served(rows: RowLogs) {
      forall i :: 0 <= i < |rows| ==> home(rows[i].0) in servers
    }

    method CountRowOpLogToSend(info: Info, row: int, log: RowLog)
      requires home(row) in numBytes && LogOk(info, log)
      modifies this`numBytes
      ensures numBytes == old(numBytes)[home(row) := old(numBytes)[home(row)] + 4 + |EncLog(info, log)|]
    {
      LogSizeExact(info, log);
      numBytes := numBytes[home(row) := numBytes[home(row)] + 4 + LogSize(info, log)];
    }

    ghost predicate Counted(info: Info, rows: RowLogs)
      reads this`numBytes
      requires RowsOk(info, rows)
    {
      forall v :: v in servers ==> v in numBytes && RowBytes(home, info, rows, v, numBytes[v])
    }

    method CountNext(info: Info, rows: RowLogs, i: nat)
      requires RowsOk(info, rows) && Served(rows) && i < |rows| && RowsOk(info, rows[..i])
      requires numBytes.Keys == (set v | v in servers) && Counted(info, rows[..i])
      modifies this`numBytes
      ensures numBytes.Keys == (set v | v in servers) && RowsOk(info, rows[..i + 1]) && Counted(info, rows[..i + 1])
    {
      hide EncLog, LogOk, RowBytes;
      RowAt(info, rows, i);
      ghost var was := numBytes;
      CountRowOpLogToSend(info, rows[i].0, rows[i].1);
      forall v | v in servers ensures v in numBytes && RowBytes(home, info, rows[..i + 1], v, numBytes[v]) {
        RowBytesNext(home, info, rows, i, v, was[v]);
      }
    }

    method ClearCounts(info: Info, rows: RowLogs)
      requires RowsOk(info, rows[..0])
      modifies this`numBytes
      ensures numBytes.Keys == (set v | v in servers) && Counted(info, rows[..0])
    {
      hide EncLog, LogOk, EncRows, RowBytes;
      numBytes := map v | v in servers :: 0;
      forall v | v in servers ensures RowBytes(home, info, rows[..0], v, 0) {
        RowBytesNone(home, info, v);
      }
    }

    /** Adds up what the rows of one table take in each server's message. */
    method CountTable(info: Info, rows: RowLogs)
      requires RowsOk(info, rows) && Served(rows)
      modifies this`numBytes
      ensures numBytes.Keys == (set v | v in servers) && Counted(info, rows)
    {
      hide EncLog, LogOk, EncRows, RowBytes, Counted;
      ClearCounts(info, rows);
      var i := 0;
      while i < |rows|
        invariant i <= |rows| && RowsOk(info, rows[..i])
        invariant numBytes.Keys == (set v | v in servers) && Counted(info, rows[..i])
      {
        CountNext(info, rows, i);
        i := i + 1;
      }
      assert rows[..i] == rows;
    }

    /** Every server that gets rows of the table also gets their number. */
    method AddRowCounts()
      requires numBytes.Keys == (set v | v in servers) && Valid()
      modifies this`numBytes
      ensures numBytes.Keys == (set v | v in servers)
      ensures forall v :: v in servers ==> numBytes[v] == WithCount(old(numBytes)[v])
    {
      ghost var was := numBytes;
      var i := 0;
      while i < |servers|
        invariant i <= |servers| && numBytes.Keys == (set v | v in servers)
        invariant forall j :: 0 <= j < |servers| ==>
          numBytes[servers[j]] == was[servers[j]] + if j < i && was[servers[j]] != 0 then 4 else 0
      {
        if numBytes[servers[i]] != 0 {
          numBytes := numBytes[servers[i] := numBytes[servers[i]] + 4];
        }
        i := i + 1;
      }
    }

    method PutSize(v: int, id: int)
      requires Valid() && v in servers && v in numBytes && id in tables
      modifies this`sizeMap
      ensures Valid()
      ensures sizeMap == old(sizeMap)[v := SizesAfter(old(sizeMap)[v], id, numBytes[v])]
    {
      if numBytes[v] == 0 {
        sizeMap := sizeMap[v := sizeMap[v] - {id}];
      } else {
        sizeMap := sizeMap[v := sizeMap[v][id := numBytes[v]]];
      }
    }

    /** A server's message holds the table only if the server has rows of it. */
    method FinalizeOpLogMsgStats(id: int)
      requires Valid() && numBytes.Keys == (set v | v in servers) && id in tables
      modifies this`numBytes, this`sizeMap
      ensures Valid()
      ensures forall v :: v in servers ==> sizeMap[v] == SizesAfter(old(sizeMap)[v], id, WithCount(old(numBytes)[v]))
    {
      ghost var was, sizes := numBytes, sizeMap;
      AddRowCounts();
      ghost var bytes := numBytes;
      assert forall v :: v in sizeMap <==> v in servers;
      assert forall i, j :: 0 <= i < j < |servers| ==> servers[i] != servers[j];
      hide Valid, SizesAfter, WithCount;
      var i := 0;
      while i < |servers|
        invariant i <= |servers| && Valid() && numBytes == bytes && sizeMap.Keys == sizes.Keys
        invariant forall j :: 0 <= j < i ==>
          sizeMap[servers[j]] == SizesAfter(sizes[servers[j]], id, WithCount(was[servers[j]]))
        invariant forall j :: i <= j < |servers| ==> sizeMap[servers[j]] == sizes[servers[j]]
      {
        PutSize(servers[i], id);
        i := i + 1;
      }
    }

    ghost predicate JobOk(batch: seq<RowLogs>) {
      JobOf(batch).Valid() && forall k :: 0 <= k < |batch| ==> Served(batch[k])
    }

    /** The sizes of the first n tables are known for every server. */
    ghost predicate Sized(batch: seq<RowLogs>, n: nat)
      requires JobOk(batch) && n <= |tables|
      reads this`sizeMap
    {
      forall v :: v in servers ==> v in sizeMap && SizesOk(JobOf(batch), v, n, sizeMap[v])
    }

    method PrepareTable(batch: seq<RowLogs>, k: nat)
      requires Valid() && JobOk(batch) && k < |tables| && Sized(batch, k)
      modifies this`numBytes, this`sizeMap
      ensures Valid() && Sized(batch, k + 1)
    {
      hide LogOk, EncRows, ForServer, SizesAfter;
      ghost var job := JobOf(batch);
      assert job.HasInfo(k) && Served(batch[k]);
      CountTable(infos[tables[k]], batch[k]);
      ghost var bytes, was := numBytes, sizeMap;
      FinalizeOpLogMsgStats(tables[k]);
      forall v | v in servers ensures v in sizeMap && SizesOk(job, v, k + 1, sizeMap[v]) {
        SizeNew(job, v, k, was[v], bytes[v]);
        forall j: nat | j < k ensures SizeOk(job, v, j, sizeMap[v]) {
          SizeStill(job, v, k, j, was[v], WithCount(bytes[v]));
        }
      }
    }

    method PrepareOpLogs(batch: seq<RowLogs>)
      requires Valid() && JobOk(batch)
      modifies this`numBytes, this`sizeMap
      ensures Valid() && Sized(batch, |tables|)
    {
      hide SizeOk;
      var k := 0;
      while k < |tables|
        invariant k <= |tables| && Valid() && Sized(batch, k)
      {
        PrepareTable(batch, k);
        k := k + 1;
      }
    }

    /** Every server that gets rows has a message whose region at its pointer holds the rows written so far. */
    ghost predicate Wrote(was: map<int, bytes>, ptrs: map<int, nat>, offs: map<int, nat>, info: Info, rows: RowLogs)
      requires RowsOk(info, rows) && |rows| < 0x8000_0000
      reads this`msgs
    {
      && msgs.Keys == was.Keys && ptrs.Keys <= was.Keys && offs.Keys == ptrs.Keys
      && (forall v :: v in was && v !in ptrs ==> msgs[v] == was[v])
      && (forall v :: v in ptrs ==>
            && offs[v] == |Out(home, info, rows, v)| && ptrs[v] + offs[v] <= |was[v]|
            && msgs[v] == Splice(was[v], ptrs[v], Out(home, info, rows, v)))
    }

    method StartCounts(ptrs: map<int, nat>, info: Info) returns (offs: map<int, nat>)
      requires ptrs.Keys <= msgs.Keys && forall v :: v in ptrs ==> ptrs[v] + 4 <= |msgs[v]|
      modifies this`msgs
      ensures Wrote(old(msgs), ptrs, offs, info, [])
    {
      hide Splice, Out, Enc32;
      ghost var was := msgs;
      offs := map[];
      var left := ptrs.Keys;
      while exists v :: v in left
        invariant left <= ptrs.Keys && offs.Keys == ptrs.Keys - left && msgs.Keys == was.Keys
        invariant forall v :: v in offs ==> offs[v] == 4 && msgs[v] == Splice(was[v], ptrs[v], Enc32(0))
        invariant forall v :: v in was && v !in offs ==> msgs[v] == was[v]
        decreases |left|
      {
        var v :| v in left;
        left := left - {v};
        offs := offs[v := 4];
        msgs := msgs[v := Splice(msgs[v], ptrs[v], Enc32(0))];
      }
      forall v | v in ptrs ensures Out(home, info, [], v) == Enc32(0) {
        OutNone(home, info, v);
      }
    }

    /** One row goes to the server that stores it. */
    method SerializeRow(ghost was: map<int, bytes>, ptrs: map<int, nat>, offs: map<int, nat>, info: Info,
                        ghost rows: RowLogs,
                        ghost i: nat, row: int, log: RowLog) returns (next: map<int, nat>)
      requires i < |rows| < 0x8000_0000 && rows[i] == (row, log) && RowsOk(info, rows) && home(row) in ptrs
      requires RowsOk(info, rows[..i]) && Wrote(was, ptrs, offs, info, rows[..i])
      requires forall v :: v in ptrs && v in was ==> ptrs[v] + |Out(home, info, rows, v)| <= |was[v]|
      modifies this`msgs
      ensures RowsOk(info, rows[..i + 1]) && Wrote(was, ptrs, next, info, rows[..i + 1])
    {
      hide EncLog, LogOk, Splice, Int32At, AppendRow, Out, RowsOk;
      var v := home(row);
      OutNext(home, info, rows, i, v);
      AppendRowWrites(home, info, rows, i, was[v], ptrs[v]);
      msgs := msgs[v := AppendRow(msgs[v], ptrs[v], offs[v], Enc32(row), EncLog(info, log))];
      next := offs[v := offs[v] + 4 + |EncLog(info, log)|];
      forall u | u in ptrs && u != v ensures Out(home, info, rows[..i + 1], u) == Out(home, info, rows[..i], u) {
        OutNext(home, info, rows, i, u);
      }
    }

    method SerializeByServer(ptrs: map<int, nat>, info: Info, rows: RowLogs)
      requires RowsOk(info, rows) && |rows| < 0x8000_0000
      requires forall i :: 0 <= i < |rows| ==> home(rows[i].0) in ptrs
      requires ptrs.Keys <= msgs.Keys
      requires forall v :: v in ptrs ==> ptrs[v] + |Out(home, info, rows, v)| <= |msgs[v]|
      modifies this`msgs
      ensures msgs.Keys == old(msgs).Keys
      ensures forall v :: v in msgs && v !in ptrs ==> msgs[v] == old(msgs)[v]
      ensures forall v :: v in ptrs ==> msgs[v] == Splice(old(msgs)[v], ptrs[v], Out(home, info, rows, v))
    {
      hide Out, Splice, LogOk;
      ghost var was := msgs;
      var offs := StartCounts(ptrs, info);
      var i := 0;
      while i < |rows|
        invariant i <= |rows| && RowsOk(info, rows[..i]) && Wrote(was, ptrs, offs, info, rows[..i])
      {
        offs := SerializeRow(was, ptrs, offs, info, rows, i, rows[i].0, rows[i].1);
        i := i + 1;
      }
      assert rows[..i] == rows;
    }

    /** Where the rows of the tables go: for each table, the servers that get rows and the position in their message.
        The servers in `done` are through, and server v is for the tables before k. */
    ghost predicate PtrsOk(batch: seq<RowLogs>, ptrs: map<int, map<int, nat>>, done: set<int>, v: int, k: nat)
      requires JobOf(batch).Valid()
    {
      forall j: nat :: j < |tables| ==>
        tables[j] in ptrs && PtrOk(batch, j, ptrs[tables[j]], if j < k then done + {v} else done)
    }

    ghost predicate PtrOk(batch: seq<RowLogs>, k: nat, ptr: map<int, nat>, done: set<int>)
      requires JobOf(batch).Valid() && k < |tables|
    {
      && (forall v :: v in ptr <==> v in done && JobOf(batch).Part(v, k) != [])
      && (forall v :: v in ptr ==> ptr[v] == RowsStart(JobOf(batch), v, k))
    }

    /** A table without rows for server v gets no pointer into its message. */
    lemma PtrsSkip(batch: seq<RowLogs>, ptrs: map<int, map<int, nat>>, done: set<int>, v: int, k: nat)
      requires JobOf(batch).Valid() && k < |tables| && PtrsOk(batch, ptrs, done, v, k) && JobOf(batch).Part(v, k) == []
      ensures PtrsOk(batch, ptrs, done, v, k + 1)
    {
      hide Job.Part, Job.HasInfo, Place;
      forall j: nat | j < |tables|
        ensures tables[j] in ptrs && PtrOk(batch, j, ptrs[tables[j]], if j < k + 1 then done + {v} else done)
      {
        assert PtrOk(batch, j, ptrs[tables[j]], if j < k then done + {v} else done);
      }
    }

    lemma {:induction false} PtrsNone(batch: seq<RowLogs>, ptrs: map<int, map<int, nat>>, done: set<int>, v: int,
                                      k: nat)
      requires JobOf(batch).Valid() && k <= |tables| && JobOf(batch).Tabs(v, |tables|) == []
      requires PtrsOk(batch, ptrs, done, v, 0)
      ensures PtrsOk(batch, ptrs, done, v, k)
    {
      if k > 0 {
        PtrsNone(batch, ptrs, done, v, k - 1);
        NoPart(JobOf(batch), v, k - 1);
        PtrsSkip(batch, ptrs, done, v, k - 1);
      }
    }

    lemma PtrsPut(batch: seq<RowLogs>, ptrs: map<int, map<int, nat>>, done: set<int>, v: int, k: nat)
      requires JobOf(batch).Valid() && k < |tables| && PtrsOk(batch, ptrs, done, v, k) && JobOf(batch).Part(v, k) != []
      ensures tables[k] in ptrs
      ensures var next := ptrs[tables[k] := WithPtr(ptrs[tables[k]], v, RowsStart(JobOf(batch), v, k))];
        PtrsOk(batch, next, done, v, k + 1)
    {
      hide Job.Part, Job.HasInfo, Place;
      assert PtrOk(batch, k, ptrs[tables[k]], done);
      var next := ptrs[tables[k] := WithPtr(ptrs[tables[k]], v, RowsStart(JobOf(batch), v, k))];
      forall j: nat | j < |tables|
        ensures tables[j] in next && PtrOk(batch, j, next[tables[j]], if j < k + 1 then done + {v} else done)
      {
        assert PtrOk(batch, j, ptrs[tables[j]], if j < k then done + {v} else done);
        assert j != k ==> tables[j] != tables[k];
      }
    }

    /** The message of one server, with the header of every table in it. */
    method WriteHeaders(ghost batch: seq<RowLogs>, v: int, serializer: OpLogSerializer, msg: bytes,
                        ptrs: map<int, map<int, nat>>, ghost done: set<int>)
      returns (full: bytes, next: map<int, map<int, nat>>)
      requires JobOf(batch).Valid() && v in sizeMap && SizesOk(JobOf(batch), v, |tables|, sizeMap[v])
      requires serializer.Placed(tables, sizeMap[v], |tables|)
      requires PtrsOk(batch, ptrs, done, v, 0) && Headed(JobOf(batch), v, msg, 0)
      ensures PtrsOk(batch, next, done, v, |tables|) && Headed(JobOf(batch), v, full, |tables|)
    {
      hide Layout, PtrsOk, Headed, Job.Tabs, Job.HasInfo, Splice, Enc32, Place, Job.Part, EncRows;
      ghost var job := JobOf(batch);
      full, next := msg, ptrs;
      var k := 0;
      while k < |tables|
        invariant k <= |tables|
        invariant PtrsOk(batch, next, done, v, k) && Headed(job, v, full, k)
      {
        assert SizeOk(job, v, k, sizeMap[v]);
        LayoutIsPlace(job, v, k, sizeMap[v]);
        var ptr := serializer.GetTablePtr(tables[k]);
        if ptr == None {
          PtrsSkip(batch, next, done, v, k);
          HeadedSkip(job, v, full, k);
        } else {
          PtrsPut(batch, next, done, v, k);
          HeadedNext(job, v, full, k);
          full := Splice(full, ptr.value, Enc32(tables[k]));
          full := Splice(full, ptr.value + 4, EncSize(infos[tables[k]].updateSize));
          next := next[tables[k] := WithPtr(next[tables[k]], v, ptr.value + 12)];
        }
        k := k + 1;
      }
    }

    method NewMsg(ghost batch: seq<RowLogs>, v: int, serializer: OpLogSerializer, size: nat,
                  ptrs: map<int, map<int, nat>>, ghost done: set<int>)
      returns (msg: bytes, next: map<int, map<int, nat>>)
      requires JobOf(batch).Valid() && v in sizeMap && SizesOk(JobOf(batch), v, |tables|, sizeMap[v])
      requires serializer.Placed(tables, sizeMap[v], |tables|) && PtrsOk(batch, ptrs, done, v, 0)
      requires size == Place(JobOf(batch), v, |tables|) && serializer.numTables == |JobOf(batch).Tabs(v, |tables|)|
      ensures PtrsOk(batch, next, done, v, |tables|) && Laid(JobOf(batch), v, msg, 0)
    {
      hide SizesOk, Layout, PtrsOk, Laid, Job.Tabs, Job.HasInfo, At, Enc32, Place, Job.Part, Headed, Splice,
           OpLogSerializer.Placed;
      msg := FreshMem(size);
      HeadedNone(JobOf(batch), v, msg);
      msg := Splice(msg, 0, Enc32(serializer.numTables));
      msg, next := WriteHeaders(batch, v, serializer, msg, ptrs, done);
      HeadedIsLaid(JobOf(batch), v, msg);
    }

    /** The message of one server, unless there is nothing to send to it. */
    method BuildMsg(ghost batch: seq<RowLogs>, v: int, ptrs: map<int, map<int, nat>>, ghost done: set<int>)
      returns (msg: Option<bytes>, next: map<int, map<int, nat>>)
      requires JobOf(batch).Valid() && v in sizeMap && SizesOk(JobOf(batch), v, |tables|, sizeMap[v])
      requires PtrsOk(batch, ptrs, done, v, 0) && forall id :: id in sizeMap[v] ==> id in tables
      ensures PtrsOk(batch, next, done, v, |tables|)
      ensures msg == None <==> JobOf(batch).Tabs(v, |tables|) == []
      ensures msg.Some? ==> Laid(JobOf(batch), v, msg.value, 0)
    {
      hide SizesOk, Layout, PtrsOk, Laid, Job.Tabs, Job.HasInfo, At, Enc32, Place, Job.Part, Headed,
           OpLogSerializer.Placed;
      SizesFit(JobOf(batch), v, sizeMap[v]);
      var serializer := new OpLogSerializer();
      var size := serializer.Init(tables, sizeMap[v]);
      if size == 0 {
        PtrsNone(batch, ptrs, done, v, |tables|);
        return None, ptrs;
      }
      var m;
      m, next := NewMsg(batch, v, serializer, size, ptrs, done);
      msg := Some(m);
    }

    /** Afterwards server v is among the servers that are through. */
    method CreateMsg(ghost batch: seq<RowLogs>, v: int, ptrs: map<int, map<int, nat>>, ghost done: set<int>)
      returns (next: map<int, map<int, nat>>)
      requires Valid() && JobOk(batch) && Sized(batch, |tables|) && v in servers
      requires PtrsOk(batch, ptrs, done, v, 0)
      modifies this`msgs
      ensures PtrsOk(batch, next, done + {v}, v, 0)
      ensures msgs - {v} == old(msgs) - {v}
      ensures MsgIn(batch, msgs, v, 0)
    {
      hide SizesOk, Laid, Job.Tabs, Job.HasInfo, Served, PtrOk;
      var msg;
      msg, next := BuildMsg(batch, v, ptrs, done);
      if msg == None {
        msgs := msgs - {v};
      } else {
        msgs := msgs[v := msg.value];
      }
    }

    /** Server v has a message exactly if it gets rows; and there the tables before k are complete. */
    ghost predicate MsgIn(batch: seq<RowLogs>, ms: map<int, bytes>, v: int, k: nat)
      requires JobOf(batch).Valid()
    {
      && (v in ms <==> JobOf(batch).Tabs(v, |tables|) != [])
      && (v in ms ==> Laid(JobOf(batch), v, ms[v], k))
    }

    ghost predicate MsgsOk(batch: seq<RowLogs>, k: nat)
      requires JobOf(batch).Valid()
      reads this`msgs
    {
      forall v :: v in servers ==> MsgIn(batch, msgs, v, k)
    }

    /** Allocates the messages of all servers. */
    method CreateMsgs(ghost batch: seq<RowLogs>) returns (ptrs: map<int, map<int, nat>>)
      requires Valid() && JobOk(batch) && Sized(batch, |tables|)
      modifies this`msgs
      ensures PtrsOk(batch, ptrs, set v | v in servers, 0, 0) && MsgsOk(batch, 0)
    {
      hide PtrsOk, Job.HasInfo, Served, SizesOk, MsgIn;
      ptrs := map id | id in tables :: map[];
      NoPtrs(batch, ptrs);
      ghost var done := {};
      var i := 0;
      while i < |servers|
        invariant i <= |servers| && done == set v | v in servers[..i]
        invariant PtrsOk(batch, ptrs, done, 0, 0)
        invariant forall j :: 0 <= j < i ==> MsgIn(batch, msgs, servers[j], 0)
      {
        ghost var was := msgs;
        PtrsAny(batch, ptrs, done, 0, servers[i]);
        ptrs := CreateMsg(batch, servers[i], ptrs, done);
        forall j | 0 <= j < i ensures MsgIn(batch, msgs, servers[j], 0) {
          assert servers[j] in msgs - {servers[i]} <==> servers[j] in was - {servers[i]};
          assert servers[j] in msgs ==> (msgs - {servers[i]})[servers[j]] == (was - {servers[i]})[servers[j]];
          MsgStill(batch, was, msgs, servers[j], 0);
        }
        done := done + {servers[i]};
        PtrsAny(batch, ptrs, done, servers[i], 0);
        i := i + 1;
      }
      assert servers[..i] == servers;
    }

    lemma MsgStill(batch: seq<RowLogs>, was: map<int, bytes>, ms: map<int, bytes>, v: int, k: nat)
      requires JobOf(batch).Valid() && MsgIn(batch, was, v, k)
      requires (v in ms <==> v in was) && (v in ms ==> ms[v] == was[v])
      ensures MsgIn(batch, ms, v, k)
    {
    }

    lemma NoPtrs(batch: seq<RowLogs>, ptrs: map<int, map<int, nat>>)
      requires JobOf(batch).Valid() && ptrs == map id | id in tables :: map[]
      ensures PtrsOk(batch, ptrs, {}, 0, 0)
    {
      hide Job.Part, Place;
    }

    lemma PtrsAny(batch: seq<RowLogs>, ptrs: map<int, map<int, nat>>, done: set<int>, u: int, v: int)
      requires JobOf(batch).Valid() && PtrsOk(batch, ptrs, done, u, 0)
      ensures PtrsOk(batch, ptrs, done, v, 0)
    {
      hide PtrOk, Job.HasInfo;
      forall j: nat | j < |tables|
        ensures tables[j] in ptrs && PtrOk(batch, j, ptrs[tables[j]], if j < 0 then done + {v} else done)
      {
        assert PtrOk(batch, j, ptrs[tables[j]], if j < 0 then done + {u} else done);
      }
    }

    /** The rows of one table go into the messages of all servers. */
    method SerializeTable(batch: seq<RowLogs>, k: nat, ptr: map<int, nat>)
      requires JobOk(batch) && k < |tables| && MsgsOk(batch, k) && PtrOk(batch, k, ptr, set v | v in servers)
      modifies this`msgs
      ensures MsgsOk(batch, k + 1)
    {
      ghost var job, was := JobOf(batch), msgs;
      assert job.HasInfo(k) && Served(batch[k]);
      hide Job.HasInfo, Laid, Place, Job.Part, LogOk, Job.Tabs, Splice, MsgIn, RowsOk, Out;
      forall v | v in ptr ensures v in msgs && Laid(job, v, msgs[v], k) {
        assert MsgIn(batch, msgs, v, k);
        PartTabs(job, v, k);
        MsgIs(batch, was, v, k);
      }
      forall v | v in ptr ensures ptr[v] + |Out(home, infos[tables[k]], batch[k], v)| <= |msgs[v]| {
        LaidNext(job, v, was[v], k);
        BodyIsOut(job, v, k);
      }
      forall i | 0 <= i < |batch[k]| ensures home(batch[k][i].0) in ptr {
        HasPart(job, k, i);
      }
      SerializeByServer(ptr, infos[tables[k]], batch[k]);
      forall v | v in servers ensures MsgIn(batch, msgs, v, k + 1) {
        assert MsgIn(batch, was, v, k);
        if v in ptr {
          LaidNext(job, v, was[v], k);
          BodyIsOut(job, v, k);
          MsgNext(batch, was, msgs, v, k);
        } else {
          MsgSkip(batch, was, msgs, v, k);
        }
      }
    }

    lemma MsgIs(batch: seq<RowLogs>, ms: map<int, bytes>, v: int, k: nat)
      requires JobOf(batch).Valid() && MsgIn(batch, ms, v, k) && JobOf(batch).Tabs(v, |tables|) != []
      ensures v in ms && Laid(JobOf(batch), v, ms[v], k)
    {
    }

    lemma MsgNext(batch: seq<RowLogs>, was: map<int, bytes>, ms: map<int, bytes>, v: int, k: nat)
      requires JobOf(batch).Valid() && MsgIn(batch, was, v, k) && v in was && v in ms
      requires Laid(JobOf(batch), v, ms[v], k + 1)
      ensures MsgIn(batch, ms, v, k + 1)
    {
    }

    lemma MsgSkip(batch: seq<RowLogs>, was: map<int, bytes>, ms: map<int, bytes>, v: int, k: nat)
      requires JobOf(batch).Valid() && MsgIn(batch, was, v, k) && k < |tables| && JobOf(batch).Part(v, k) == []
      requires (v in ms <==> v in was) && (v in ms ==> ms[v] == was[v])
      ensures MsgIn(batch, ms, v, k + 1)
    {
      if v in ms {
        LaidSkip(JobOf(batch), v, ms[v], k);
      }
    }

    /** What is sent: nothing to a server without rows, and otherwise the encoding of its part of the batch. */
    ghost predicate Packed(batch: seq<RowLogs>, v: int)
      requires JobOf(batch).Valid()
      reads this`msgs
    {
      TabsOk(JobOf(batch), v, |tables|);
      var part := JobOf(batch).Tabs(v, |tables|);
      (v in msgs <==> part != []) && (v in msgs ==> msgs[v] == EncMsg(infos, part))
    }

    method CreateOpLogMsgs(batch: seq<RowLogs>)
      requires Valid() && JobOk(batch) && Sized(batch, |tables|)
      modifies this`msgs
      ensures forall v :: v in servers ==> Packed(batch, v)
    {
      hide PtrOk, Job.HasInfo, Served, SizesOk, MsgIn, Sized;
      var ptrs := CreateMsgs(batch);
      var k := 0;
      while k < |tables|
        invariant k <= |tables| && MsgsOk(batch, k)
      {
        assert PtrOk(batch, k, ptrs[tables[k]], if k < 0 then (set v | v in servers) + {0} else set v | v in servers);
        SerializeTable(batch, k, ptrs[tables[k]]);
        k := k + 1;
      }
      forall v | v in servers ensures Packed(batch, v) {
        MsgIsPacked(batch, v);
      }
    }

    lemma MsgIsPacked(batch: seq<RowLogs>, v: int)
      requires JobOf(batch).Valid() && MsgIn(batch, msgs, v, |tables|)
      ensures Packed(batch, v)
    {
      if v in msgs {
        LaidIsMessage(JobOf(batch), v, msgs[v]);
      }
    }

    /** A batch becomes one message for each server that has rows in it. */
    method HandleClockMsg(batch: seq<RowLogs>)
      requires Valid() && JobOk(batch)
      modifies this
      ensures Valid() && forall v :: v in servers ==> Packed(batch, v)
    {
      hide SizesOk, Packed;
      PrepareOpLogs(batch);
      CreateOpLogMsgs(batch);
    }
  }

  lemma PartTabs(job: Job, v: int, k: nat)
    requires job.Valid() && k < |job.tables| && job.Part(v, k) != []
    ensures job.Tabs(v, |job.tables|) != []
  {
    TabsFrom(job, v, k + 1, |job.tables|);
  }

  lemma BodyIsOut(job: Job, v: int, k: nat)
    requires job.Valid() && k < |job.tables|
    requires RowsOk(job.infos[job.tables[k]], job.batch[k]) && |job.batch[k]| < 0x8000_0000
    ensures Body(job, v, k) == Out(job.home, job.infos[job.tables[k]], job.batch[k], v)
  {
  }

  lemma HasPart(job: Job, k: nat, i: nat)
    requires job.Valid() && k < |job.tables| && i < |job.batch[k]|
    ensures job.Part(job.home(job.batch[k][i].0), k) != []
  {
    assert job.HasInfo(k);
    ForServerOk(job.home, job.batch[k], job.home(job.batch[k][i].0), job.infos[job.tables[k]]);
    assert job.batch[k][i] in job.batch[k];
  }

  /** Memory that was just allocated holds anything. */
  method FreshMem(size: nat) returns (mem: bytes)
    ensures |mem| == size
  {
    assert |seq(size, i => 0 as byte)| == size;
    var m: bytes :| |m| == size;
    mem := m;
  }

  lemma SizeNew(job: Job, v: int, k: nat, sizes: map<int, nat>, n: nat)
    requires job.Valid() && k < |job.tables| && RowsOk(job.infos[job.tables[k]], job.batch[k])
    requires RowBytes(job.home, job.infos[job.tables[k]], job.batch[k], v, n)
    ensures SizeOk(job, v, k, SizesAfter(sizes, job.tables[k], WithCount(n)))
  {
    assert job.HasInfo(k);
    ForServerOk(job.home, job.batch[k], v, job.infos[job.tables[k]]);
  }

  /** What OpLogSerializer.Init says about a server agrees with where its tables belong. */
  lemma SizesFit(job: Job, v: int, sizes: map<int, nat>)
    requires job.Valid() && SizesOk(job, v, |job.tables|, sizes) && forall id :: id in sizes ==> id in job.tables
    ensures sizes == map[] <==> job.Tabs(v, |job.tables|) == []
    ensures |sizes| == |job.Tabs(v, |job.tables|)|
    ensures Layout(job.tables, sizes) == Place(job, v, |job.tables|)
  {
    hide SizeOk, Place, Layout, Job.Part, Job.HasInfo, Job.Tabs;
    var n := |job.tables|;
    assert job.tables[..n] == job.tables;
    TabsCount(job, v, n, sizes);
    LayoutIsPlace(job, v, n, sizes);
    var ids := set id | id in sizes && id in job.tables[..n];
    assert forall id :: id in ids <==> id in sizes.Keys;
    assert ids == sizes.Keys;
  }

  lemma NoPart(job: Job, v: int, k: nat)
    requires job.Valid() && k < |job.tables| && job.Tabs(v, |job.tables|) == []
    ensures job.Part(v, k) == []
  {
    TabsFrom(job, v, k + 1, |job.tables|);
  }

  /** The message has its number of tables and the headers of the tables before k. */
  ghost predicate Headed(job: Job, v: int, msg: bytes, k: nat)
    requires job.Valid()
  {
    && |msg| == Place(job, v, |job.tables|) && |job.Tabs(v, |job.tables|)| < 0x8000_0000
    && At(msg, 0, Enc32(|job.Tabs(v, |job.tables|)|))
    && forall j: nat :: j < k && j < |job.tables| && job.Part(v, j) != [] ==> Stands(job, v, msg, j, false)
  }

  lemma HeadedNone(job: Job, v: int, msg: bytes)
    requires job.Valid() && |msg| == Place(job, v, |job.tables|)
    ensures |job.Tabs(v, |job.tables|)| < 0x8000_0000
    ensures Headed(job, v, Splice(msg, 0, Enc32(|job.Tabs(v, |job.tables|)|)), 0)
  {
    SpliceAt(msg, 0, Enc32(|job.Tabs(v, |job.tables|)|));
  }

  lemma HeadedSkip(job: Job, v: int, msg: bytes, k: nat)
    requires job.Valid() && k < |job.tables| && Headed(job, v, msg, k) && job.Part(v, k) == []
    ensures Headed(job, v, msg, k + 1)
  {
    hide Place, Job.Tabs, At, Stands, Job.Part, Job.HasInfo;
  }

  lemma HeadedIsLaid(job: Job, v: int, msg: bytes)
    requires job.Valid() && Headed(job, v, msg, |job.tables|)
    ensures Laid(job, v, msg, 0)
  {
    hide Place, Job.Tabs, At, Stands, Job.Part, Job.HasInfo;
    forall j: nat | j < |job.tables| && job.Part(v, j) != [] ensures Stands(job, v, msg, j, j < 0) {
      assert Stands(job, v, msg, j, false);
    }
  }

  /** Writing table k's id and update size at its place. */
  lemma HeadedNext(job: Job, v: int, msg: bytes, k: nat)
    requires job.Valid() && k < |job.tables| && Headed(job, v, msg, k) && job.Part(v, k) != []
    ensures IsInt32(job.tables[k]) && job.tables[k] in job.infos && job.infos[job.tables[k]].updateSize < TWO_64
    ensures Place(job, v, k) + 12 <= |msg|
    ensures var m := Splice(msg, Place(job, v, k), Enc32(job.tables[k]));
      Headed(job, v, Splice(m, Place(job, v, k) + 4, EncSize(job.infos[job.tables[k]].updateSize)), k + 1)
  {
    assert job.HasInfo(k);
    hide TableBytes, Header, Body, Place, Job.Part, Job.HasInfo, Job.Tabs, At, Splice;
    HeaderBody(job, v, k);
    PlaceGrows(job, v, k, |job.tables|);
    var off, header := Place(job, v, k), Header(job, k);
    var m := Splice(msg, off, header);
    HeaderIs(job, k);
    SpliceMore(msg, off, Enc32(job.tables[k]), EncSize(job.infos[job.tables[k]].updateSize));
    SpliceAt(msg, off, header);
    assert Stands(job, v, m, k, false);
    CountStill(job, v, msg, off, header);
    hide Stands;
    forall j: nat | j < k + 1 && j < |job.tables| && job.Part(v, j) != [] ensures Stands(job, v, m, j, false) {
      if j != k {
        StandsStill(job, v, msg, j, false, k, off, header);
      }
    }
  }

  lemma HeaderIs(job: Job, k: nat)
    requires job.Valid() && k < |job.tables|
    ensures IsInt32(job.tables[k]) && job.tables[k] in job.infos && job.infos[job.tables[k]].updateSize < TWO_64
    ensures Header(job, k) == Enc32(job.tables[k]) + EncSize(job.infos[job.tables[k]].updateSize)
  {
    assert job.HasInfo(k);
  }

  // ---- What the servers read ----

  ghost function BatchEntries(job: Job, n: nat): seq<Entry>
    requires n <= |job.tables| == |job.batch|
  {
    if n == 0 then [] else BatchEntries(job, n - 1) + RowEntries(job.tables[n - 1], job.batch[n - 1])
  }

  ghost function OfServer(home: int -> int, es: seq<Entry>, v: int): seq<Entry> {
    if es == [] then []
    else
      var n := |es| - 1;
      OfServer(home, es[..n], v) + if home(es[n].row) == v then [es[n]] else []
  }

  lemma {:induction false} OfServerConcat(home: int -> int, a: seq<Entry>, b: seq<Entry>, v: int)
    ensures OfServer(home, a + b, v) == OfServer(home, a, v) + OfServer(home, b, v)
  {
    if b == [] {
      assert a + b == a;
    } else {
      OfServerConcat(home, a, b[..|b| - 1], v);
      assert (a + b)[..|a + b| - 1] == a + b[..|b| - 1];
    }
  }

  lemma {:induction false} RowEntriesConcat(table: int, a: RowLogs, b: RowLogs)
    ensures RowEntries(table, a + b) == RowEntries(table, a) + RowEntries(table, b)
  {
    if a == [] {
      assert a + b == b;
    } else {
      RowEntriesConcat(table, a[1..], b);
      assert (a + b)[1..] == a[1..] + b && (a + b)[0] == a[0];
      var e := Entry(table, a[0].0, a[0].1);
      assert RowEntries(table, a + b) == [e] + RowEntries(table, a[1..] + b);
      assert RowEntries(table, a) == [e] + RowEntries(table, a[1..]);
    }
  }

  lemma {:induction false} AllEntriesAppend(ts: seq<Table>, t: Table)
    ensures AllEntries(ts + [t]) == AllEntries(ts) + RowEntries(t.id, t.rows)
  {
    hide RowEntries;
    if ts == [] {
      assert ts + [t] == [t] && AllEntries([t][1..]) == [];
    } else {
      AllEntriesAppend(ts[1..], t);
      assert (ts + [t])[1..] == ts[1..] + [t];
    }
  }

  lemma {:induction false} PartEntries(home: int -> int, table: int, rows: RowLogs, v: int)
    ensures RowEntries(table, ForServer(home, rows, v)) == OfServer(home, RowEntries(table, rows), v)
  {
    if rows != [] {
      var n := |rows| - 1;
      PartEntries(home, table, rows[..n], v);
      assert rows == rows[..n] + [rows[n]];
      RowEntriesConcat(table, rows[..n], [rows[n]]);
      OneEntry(table, rows[n]);
      OfServerConcat(home, RowEntries(table, rows[..n]), RowEntries(table, [rows[n]]), v);
      if home(rows[n].0) == v {
        RowEntriesConcat(table, ForServer(home, rows[..n], v), [rows[n]]);
      } else {
        assert ForServer(home, rows, v) == ForServer(home, rows[..n], v);
      }
    }
  }

  lemma OneEntry(table: int, e: (int, RowLog))
    ensures RowEntries(table, [e]) == [Entry(table, e.0, e.1)]
  {
    assert RowEntries(table, [e][1..]) == [];
  }

  /** The tables sent to server v hold exactly the row oplogs of the rows it stores, in the batch's order. */
  lemma {:induction false} TabsEntries(job: Job, v: int, n: nat)
    requires job.Valid() && n <= |job.tables|
    ensures AllEntries(job.Tabs(v, n)) == OfServer(job.home, BatchEntries(job, n), v)
  {
    if n > 0 {
      TabsEntries(job, v, n - 1);
      var rows := RowEntries(job.tables[n - 1], job.batch[n - 1]);
      OfServerConcat(job.home, BatchEntries(job, n - 1), rows, v);
      PartEntries(job.home, job.tables[n - 1], job.batch[n - 1], v);
      if job.Part(v, n - 1) == [] {
        assert job.Tabs(v, n) == job.Tabs(v, n - 1);
      } else {
        AllEntriesAppend(job.Tabs(v, n - 1), Table(job.tables[n - 1], job.Part(v, n - 1)));
      }
    }
  }

  /** From batch to server: what a server reads from its message is what the batch has for it, and a server without
      a message has nothing in the batch. */
  lemma ServersReadTheirRows(sender: OpLogSender, batch: seq<RowLogs>, v: int)
    requires sender.JobOf(batch).Valid() && sender.Packed(batch, v)
    ensures var mine := OfServer(sender.home, BatchEntries(sender.JobOf(batch), |sender.tables|), v);
      if v in sender.msgs
      then MsgReadable(sender.infos, sender.msgs[v]) && MsgEntries(sender.infos, sender.msgs[v]) == mine
      else mine == []
  {
    hide EncMsg, MsgReadable, MsgEntries, TablesOk, Job.Tabs;
    var job := sender.JobOf(batch);
    TabsOk(job, v, |job.tables|);
    TabsEntries(job, v, |job.tables|);
    ReadMsg(sender.infos, job.Tabs(v, |job.tables|));
  }

  /** Every row oplog of the batch is read by the server that stores its row and by no other. */
  lemma {:induction false} ReadOnce(home: int -> int, es: seq<Entry>, e: Entry, v: int)
    ensures multiset(OfServer(home, es, v))[e] == if home(e.row) == v then multiset(es)[e] else 0
  {
    if es != [] {
      var n := |es| - 1;
      ReadOnce(home, es[..n], e, v);
      assert es == es[..n] + [es[n]];
    }
  }

  lemma {:induction false} RowEntriesCount(table: int, rows: RowLogs, row: int, log: RowLog)
    ensures multiset(RowEntries(table, rows))[Entry(table, row, log)] == multiset(rows)[(row, log)]
    ensures forall e :: e in RowEntries(table, rows) ==> e.table == table
  {
    if rows != [] {
      RowEntriesCount(table, rows[1..], row, log);
      assert rows == [rows[0]] + rows[1..];
    }
  }

  /** The entries of the first n tables of a batch are its row oplogs, each under the id of its table. */
  lemma {:induction false} BatchEntriesCount(job: Job, n: nat, k: nat, row: int, log: RowLog)
    requires job.Valid() && n <= |job.tables| && k < |job.tables|
    ensures multiset(BatchEntries(job, n))[Entry(job.tables[k], row, log)]
         == if k < n then multiset(job.batch[k])[(row, log)] else 0
  {
    hide RowEntries;
    if n > 0 {
      BatchEntriesCount(job, n - 1, k, row, log);
      RowEntriesCount(job.tables[n - 1], job.batch[n - 1], row, log);
      var e := Entry(job.tables[k], row, log);
      if k != n - 1 {
        assert job.tables[k] != job.tables[n - 1];
        assert e !in RowEntries(job.tables[n - 1], job.batch[n - 1]);
      }
    }
  }

  /** Counted one by one: a server reads a row oplog of table k as often as it is in the batch for that table if it
      stores the row, and not at all otherwise; and it has a message if there is anything for it to read. */
  lemma RowsArriveOnce(sender: OpLogSender, batch: seq<RowLogs>, v: int, k: nat, row: int, log: RowLog)
    requires sender.JobOf(batch).Valid() && sender.Packed(batch, v) && k < |batch|
    ensures var count := if sender.home(row) == v then multiset(batch[k])[(row, log)] else 0;
      if v in sender.msgs
      then MsgReadable(sender.infos, sender.msgs[v])
           && multiset(MsgEntries(sender.infos, sender.msgs[v]))[Entry(sender.tables[k], row, log)] == count
      else count == 0
  {
    hide MsgReadable, MsgEntries, BatchEntries, OfServer;
    var job, e := sender.JobOf(batch), Entry(sender.tables[k], row, log);
    ServersReadTheirRows(sender, batch, v);
    BatchEntriesCount(job, |job.tables|, k, row, log);
    ReadOnce(sender.home, BatchEntries(job, |job.tables|), e, v);
  }
}
