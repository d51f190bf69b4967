/** Row oplogs: the updates that are waiting for one row, and how they are walked over. */
module RowOpLogs {
  import opened Rows

  /** A sparse row oplog has the columns that were touched; a dense one has every column from 0 on. */
  datatype RowOpLog = SparseLog(cols: map<int, int>) | DenseLog(vals: seq<int>) {

    function Get(col: int): int {
      match this
      case SparseLog(cols) => if col in cols then cols[col] else 0
      case DenseLog(vals) => if 0 <= col < |vals| then vals[col] else 0
    }

    /** A dense row oplog has no place for other columns. */
    predicate Has(col: int) {
      DenseLog? ==> 0 <= col < |vals|
    }

    /** FindCreate, and AddUpdates on the update found. */
    function Add(col: int, x: int): (log: RowOpLog)
      requires Has(col)
    {
      match this
      case SparseLog(cols) => SparseLog(cols[col := Get(col) + x])
      case DenseLog(vals) => DenseLog(vals[col := vals[col] + x])
    }

    /** OverwriteWithDenseUpdate. */
    function Overwrite(st: int, updates: seq<int>): RowOpLog
      requires updates != [] ==> Has(st) && Has(st + |updates| - 1)
    {
      match this
      case SparseLog(cols) => SparseLog(cols + Segment(st, updates))
      case DenseLog(vals) =>
        DenseLog(seq(|vals|, c requires 0 <= c < |vals| =>
          if st <= c < st + |updates| then updates[c - st] else vals[c]))
    }

    predicate Shaped(dense: bool, capacity: nat) {
      DenseLog? == dense && (dense ==> |vals| == capacity)
    }
  }

  lemma {:induction false} SumConcat(a: Items, b: Items, col: int)
    ensures SumAt(a + b, col) == SumAt(a, col) + SumAt(b, col)
  {
    if b == [] {
      assert a + b == a;
    } else {
      SumConcat(a, b[..|b| - 1], col);
      assert (a + b)[..|a + b| - 1] == a + b[..|b| - 1];
    }
  }

  /** Consecutive columns, from `st` on. */
  function Segment(st: int, updates: seq<int>): (m: map<int, int>)
    ensures forall c :: c in m <==> st <= c < st + |updates|
    ensures forall c :: c in m ==> m[c] == updates[c - st]
  {
    if updates == [] then map[] else Segment(st, updates[..|updates| - 1])[st + |updates| - 1 := updates[|updates| - 1]]
  }

  /** CreateRowOpLog: all zero. */
  function Fresh(dense: bool, capacity: nat): (log: RowOpLog)
    ensures log.Shaped(dense, capacity) && forall col :: log.Get(col) == 0
  {
    if dense then DenseLog(seq(capacity, c => 0)) else SparseLog(map[])
  }

  type Items = seq<(int, int)>

  /** What one Inc for each item adds to a column. */
  function SumAt(items: Items, col: int): int {
    if items == [] then 0
    else
      var n := |items| - 1;
      SumAt(items[..n], col) + if items[n].0 == col then items[n].1 else 0
  }

  lemma SumAtNext(items: Items, i: nat, col: int)
    requires i < |items|
    ensures SumAt(items[..i + 1], col) == SumAt(items[..i], col) + if items[i].0 == col then items[i].1 else 0
  {
    assert items[..i + 1][..i] == items[..i];
  }

  /** The items of a dense update. */
  function Run(st: int, updates: seq<int>): (items: Items)
    ensures |items| == |updates|
    ensures forall i :: 0 <= i < |updates| ==> items[i] == (st + i, updates[i])
  {
    seq(|updates|, i requires 0 <= i < |updates| => (st + i, updates[i]))
  }

  lemma {:induction false} RunAt(st: int, updates: seq<int>, n: nat, col: int)
    requires n <= |updates|
    ensures SumAt(Run(st, updates)[..n], col) == if st <= col < st + n then updates[col - st] else 0
  {
    if n > 0 {
      RunAt(st, updates, n - 1, col);
      SumAtNext(Run(st, updates), n - 1, col);
    }
  }

  predicate AllHas(log: RowOpLog, items: Items) {
    forall i :: 0 <= i < |items| ==> log.Has(items[i].0)
  }

  /** The oplog `now` holds what `was` held and the items. */
  ghost predicate Grew(was: RowOpLog, items: Items, now: RowOpLog) {
    forall col :: now.Get(col) == was.Get(col) + SumAt(items, col)
  }

  lemma AddGet(log: RowOpLog, col: int, x: int)
    requires log.Has(col)
    ensures forall c :: log.Add(col, x).Get(c) == log.Get(c) + if c == col then x else 0
    ensures forall c :: log.Add(col, x).Has(c) == log.Has(c)
    ensures forall dense, capacity :: log.Shaped(dense, capacity) ==> log.Add(col, x).Shaped(dense, capacity)
  {
  }

  lemma OneItem(col: int, x: int, c: int)
    ensures SumAt([(col, x)], c) == if c == col then x else 0
  {
    assert [(col, x)][..0] == [];
  }

  /** One Inc. */
  lemma GrewOne(log: RowOpLog, col: int, x: int)
    requires log.Has(col)
    ensures Grew(log, [(col, x)], log.Add(col, x))
  {
    AddGet(log, col, x);
    forall c ensures log.Add(col, x).Get(c) == log.Get(c) + SumAt([(col, x)], c) {
      OneItem(col, x, c);
    }
  }

  lemma GrewNext(was: RowOpLog, items: Items, i: nat, now: RowOpLog)
    requires i < |items| && Grew(was, items[..i], now) && now.Has(items[i].0)
    ensures Grew(was, items[..i + 1], now.Add(items[i].0, items[i].1))
  {
    AddGet(now, items[i].0, items[i].1);
    forall col ensures now.Add(items[i].0, items[i].1).Get(col) == was.Get(col) + SumAt(items[..i + 1], col) {
      SumAtNext(items, i, col);
    }
  }

  /** One FindCreate for each column: the loop of BatchInc and of DenseBatchIncNonDenseOpLog. */
  method AddEach(log: RowOpLog, items: Items, ghost dense: bool, ghost capacity: nat) returns (now: RowOpLog)
    requires AllHas(log, items) && log.Shaped(dense, capacity)
    ensures Grew(log, items, now) && now.Shaped(dense, capacity)
  {
    now := log;
    var i := 0;
    while i < |items|
      invariant i <= |items| && Grew(log, items[..i], now) && now.Shaped(dense, capacity) && AllHas(now, items)
    {
      GrewNext(log, items, i, now);
      AddGet(now, items[i].0, items[i].1);
      now := now.Add(items[i].0, items[i].1);
      i := i + 1;
    }
    assert items[..i] == items;
  }

  /** DenseBatchIncDenseOpLog: finds the first column only, and then walks on from update to update. */
  method AddWalking(log: RowOpLog, st: int, updates: seq<int>, ghost capacity: nat) returns (now: RowOpLog)
    requires log.Shaped(true, capacity) && AllHas(log, Run(st, updates))
    ensures Grew(log, Run(st, updates), now) && now.Shaped(true, capacity)
  {
    ghost var items := Run(st, updates);
    var vals := log.vals;
    var ptr, i := st, 0;
    while i < |updates|
      invariant i <= |updates| && ptr == st + i && |vals| == |log.vals|
      invariant Grew(log, items[..i], DenseLog(vals))
    {
      assert log.Has(items[i].0);
      GrewNext(log, items, i, DenseLog(vals));
      vals := vals[ptr := vals[ptr] + updates[i]];
      ptr := ptr + 1;
      i := i + 1;
    }
    assert items[..i] == items;
    now := DenseLog(vals);
  }

  lemma OverwriteGet(log: RowOpLog, st: int, updates: seq<int>, col: int)
    requires AllHas(log, Run(st, updates))
    ensures updates != [] ==> log.Has(st) && log.Has(st + |updates| - 1)
    ensures log.Overwrite(st, updates).Get(col)
         == if st <= col < st + |updates| then updates[col - st] else log.Get(col)
  {
    var items := Run(st, updates);
    if updates != [] {
      assert log.Has(items[0].0) && log.Has(items[|updates| - 1].0);
    }
  }

  /** On an oplog that was just created, overwriting is adding. */
  lemma OverwriteFresh(log: RowOpLog, st: int, updates: seq<int>, dense: bool, capacity: nat)
    requires log.Shaped(dense, capacity) && (forall col :: log.Get(col) == 0) && AllHas(log, Run(st, updates))
    ensures updates != [] ==> log.Has(st) && log.Has(st + |updates| - 1)
    ensures Grew(log, Run(st, updates), log.Overwrite(st, updates))
    ensures log.Overwrite(st, updates).Shaped(dense, capacity)
  {
    OverwriteGet(log, st, updates, 0);
    hide SumAt;
    forall col ensures log.Overwrite(st, updates).Get(col) == log.Get(col) + SumAt(Run(st, updates), col) {
      OverwriteGet(log, st, updates, col);
      RunSum(st, updates, col);
    }
  }

  lemma RunSum(st: int, updates: seq<int>, col: int)
    ensures SumAt(Run(st, updates), col) == if st <= col < st + |updates| then updates[col - st] else 0
  {
    RunAt(st, updates, |updates|, col);
    assert Run(st, updates)[..|updates|] == Run(st, updates);
  }

  /** On any oplog, overwriting adds the updates exactly if it was zero in all those columns. */
  lemma OverwriteAddsIff(log: RowOpLog, st: int, updates: seq<int>)
    requires AllHas(log, Run(st, updates))
    ensures updates != [] ==> log.Has(st) && log.Has(st + |updates| - 1)
    ensures Grew(log, Run(st, updates), log.Overwrite(st, updates))
        <==> forall col :: st <= col < st + |updates| ==> log.Get(col) == 0
  {
    OverwriteGet(log, st, updates, 0);
    hide SumAt;
    forall col
      ensures log.Overwrite(st, updates).Get(col) == log.Get(col) + SumAt(Run(st, updates), col)
          <==> (st <= col < st + |updates| ==> log.Get(col) == 0)
    {
      OverwriteGet(log, st, updates, col);
      RunSum(st, updates, col);
    }
  }

  // ---- Walking over an oplog ----

  predicate Lists(items: Items, col: int) {
    exists i :: 0 <= i < |items| && items[i].0 == col
  }

  lemma ListsNone(col: int)
    ensures !Lists([], col)
  {
  }

  lemma ListsMore(items: Items, item: (int, int))
    ensures forall col :: Lists(items + [item], col) <==> Lists(items, col) || col == item.0
  {
    var more := items + [item];
    assert more[|items|].0 == item.0;
    forall col | Lists(items, col) ensures Lists(more, col) {
      var i :| 0 <= i < |items| && items[i].0 == col;
      assert more[i].0 == col;
    }
  }

  /** Every column once, with its update; columns left out hold zero. */
  ghost predicate Covers(log: RowOpLog, items: Items) {
    && (forall i, j :: 0 <= i < j < |items| ==> items[i].0 != items[j].0)
    && (forall i :: 0 <= i < |items| ==> log.Has(items[i].0) && items[i].1 == log.Get(items[i].0))
    && (forall col :: log.Get(col) != 0 ==> Lists(items, col))
  }

  /** BeginIterate and Next of a sparse oplog give all its columns, zeros too. */
  method WalkSparse(log: RowOpLog) returns (items: Items)
    requires log.SparseLog?
    ensures Covers(log, items) && (items == [] <==> log.cols == map[])
  {
    hide Lists;
    items := [];
    forall c {
      ListsNone(c);
    }
    var left := log.cols.Keys;
    while exists c :: c in left
      invariant left <= log.cols.Keys
      invariant forall c :: c in log.cols ==> (c in left <==> !Lists(items, c))
      invariant forall i :: 0 <= i < |items| ==> items[i].0 in log.cols && items[i].1 == log.cols[items[i].0]
      invariant forall i :: 0 <= i < |items| ==> Lists(items, items[i].0)
      invariant forall i, j :: 0 <= i < j < |items| ==> items[i].0 != items[j].0
      decreases |left|
    {
      var c :| c in left;
      left := left - {c};
      ListsMore(items, (c, log.cols[c]));
      items := items + [(c, log.cols[c])];
    }
    if items == [] {
      assert forall c :: c !in log.cols;
    } else {
      assert items[0].0 in log.cols;
    }
  }

  /** BeginIterate and Next of a dense oplog skip zeros. */
  method WalkDense(log: RowOpLog) returns (items: Items)
    requires log.DenseLog?
    ensures Covers(log, items) && (items == [] <==> forall col :: log.Get(col) == 0)
  {
    hide Lists;
    items := [];
    var col := 0;
    while col < |log.vals|
      invariant col <= |log.vals|
      invariant forall i :: 0 <= i < |items| ==> 0 <= items[i].0 < col && items[i].1 == log.vals[items[i].0] != 0
      invariant forall i, j :: 0 <= i < j < |items| ==> items[i].0 != items[j].0
      invariant forall c :: 0 <= c < col && log.vals[c] != 0 ==> Lists(items, c)
      invariant items == [] ==> forall c :: 0 <= c < col ==> log.vals[c] == 0
    {
      if log.vals[col] != 0 {
        ListsMore(items, (col, log.vals[col]));
        items := items + [(col, log.vals[col])];
      }
      col := col + 1;
    }
    assert items != [] ==> log.Get(items[0].0) != 0;
  }

  method Walk(log: RowOpLog) returns (items: Items)
    ensures Covers(log, items)
    ensures items == [] ==> forall col :: log.Get(col) == 0
  {
    if log.SparseLog? {
      items := WalkSparse(log);
    } else {
      items := WalkDense(log);
    }
  }

  lemma {:induction false} SumAbsent(items: Items, col: int)
    requires forall i :: 0 <= i < |items| ==> items[i].0 != col
    ensures SumAt(items, col) == 0
  {
    if items != [] {
      SumAbsent(items[..|items| - 1], col);
    }
  }

  lemma {:induction false} SumPresent(items: Items, i: nat)
    requires i < |items| && forall i, j :: 0 <= i < j < |items| ==> items[i].0 != items[j].0
    ensures SumAt(items, items[i].0) == items[i].1
  {
    var n := |items| - 1;
    if i == n {
      SumAbsent(items[..n], items[n].0);
    } else {
      SumPresent(items[..n], i);
    }
  }

  /** Adding up what the walk gives is the oplog. */
  lemma CoversSum(log: RowOpLog, items: Items)
    requires Covers(log, items)
    ensures forall col :: SumAt(items, col) == log.Get(col)
  {
    forall col ensures SumAt(items, col) == log.Get(col) {
      if Lists(items, col) {
        var i :| 0 <= i < |items| && items[i].0 == col;
        SumPresent(items, i);
      } else {
        SumAbsent(items, col);
      }
    }
  }

  // ---- Rows ----

  /** ApplyInc. */
  function Inc(row: Row, col: int, x: int): Row {
    row[col := Val(row, col) + x]
  }

  /** The row `now` is `was` and the items. */
  ghost predicate RowGrew(was: Row, items: Items, now: Row) {
    forall col :: Val(now, col) == Val(was, col) + SumAt(items, col)
  }

  method ApplyEach(row: Row, items: Items) returns (now: Row)
    ensures RowGrew(row, items, now)
  {
    now := row;
    var i := 0;
    while i < |items|
      invariant i <= |items| && RowGrew(row, items[..i], now)
    {
      ghost var was := now;
      now := Inc(now, items[i].0, items[i].1);
      forall col ensures Val(now, col) == Val(row, col) + SumAt(items[..i + 1], col) {
        SumAtNext(items, i, col);
        assert Val(was, col) == Val(row, col) + SumAt(items[..i], col);
      }
      i := i + 1;
    }
    assert items[..i] == items;
  }
}
