/** Row values, and the sums of logged updates that they stand for. */
module Rows {

  /** A row: the columns that were ever touched. Every other column is zero. */
  type Row = map<int, int>

  function Val(r: Row, col: int): int {
    if col in r then r[col] else 0
  }

  /** Pointwise addition, which is what AddUpdates, ApplyInc and ApplyBatchInc do column by column. */
  function Add(a: Row, b: Row): Row {
    map col | col in a.Keys + b.Keys :: Val(a, col) + Val(b, col)
  }

  lemma AddVal(a: Row, b: Row, col: int)
    ensures Val(Add(a, b), col) == Val(a, col) + Val(b, col)
  {
  }

  /** Two rows with the same number in every column. */
  ghost predicate SameNumbers(a: Row, b: Row) {
    forall col :: Val(a, col) == Val(b, col)
  }

  datatype Thread = Thread(client: nat, idx: nat)

  datatype Key = Key(table: nat, row: nat)

  /** One call of Inc, BatchInc or DenseBatchInc by a thread in iteration `clock`. */
  datatype Upd = Upd(thread: Thread, clock: nat, key: Key, delta: Row)

  /** The sum, in one column, of the logged updates whose position is in `ids`. */
  function Sum(log: seq<Upd>, ids: set<nat>, col: int): int {
    if log == [] then 0
    else
      var n := |log| - 1;
      Sum(log[..n], ids, col) + if n in ids then Val(log[n].delta, col) else 0
  }

  lemma {:induction false} SumUnion(log: seq<Upd>, a: set<nat>, b: set<nat>, col: int)
    requires a !! b
    ensures Sum(log, a + b, col) == Sum(log, a, col) + Sum(log, b, col)
  {
    if log != [] {
      SumUnion(log[..|log| - 1], a, b, col);
    }
  }

  lemma {:induction false} SumOutside(log: seq<Upd>, ids: set<nat>, col: int)
    requires forall i :: i in ids ==> |log| <= i
    ensures Sum(log, ids, col) == 0
  {
    if log != [] {
      SumOutside(log[..|log| - 1], ids, col);
    }
  }

  lemma SumAppend(log: seq<Upd>, u: Upd, ids: set<nat>, col: int)
    ensures Sum(log + [u], ids, col) == Sum(log, ids, col) + if |log| in ids then Val(u.delta, col) else 0
  {
    assert (log + [u])[..|log|] == log;
  }

  /** A stored row together with the set of updates it is meant to hold. */
  datatype Cell = Cell(vals: Row, ids: set<nat>)

  const ZERO := Cell(map[], {})

  function Merge(a: Cell, b: Cell): Cell {
    Cell(Add(a.vals, b.vals), a.ids + b.ids)
  }

  /** Every column of the row is the sum of exactly the updates in `ids`, each counted once. */
  ghost predicate CellOk(log: seq<Upd>, cell: Cell) {
    && (forall i :: i in cell.ids ==> i < |log|)
    && (forall col :: Val(cell.vals, col) == Sum(log, cell.ids, col))
  }

  lemma ZeroOk(log: seq<Upd>)
    ensures CellOk(log, ZERO)
  {
    forall col ensures Sum(log, {}, col) == 0 {
      SumOutside(log, {}, col);
    }
  }

  lemma MergeOk(log: seq<Upd>, a: Cell, b: Cell)
    requires CellOk(log, a) && CellOk(log, b)
    requires a.ids !! b.ids
    ensures CellOk(log, Merge(a, b))
  {
    forall col ensures Val(Merge(a, b).vals, col) == Sum(log, a.ids + b.ids, col) {
      AddVal(a.vals, b.vals, col);
      SumUnion(log, a.ids, b.ids, col);
    }
  }

  lemma AppendOk(log: seq<Upd>, u: Upd)
    ensures forall cell :: CellOk(log, cell) ==> CellOk(log + [u], cell)
    ensures CellOk(log + [u], Cell(u.delta, {|log|}))
  {
    forall cell | CellOk(log, cell) ensures CellOk(log + [u], cell) {
      forall col ensures Val(cell.vals, col) == Sum(log + [u], cell.ids, col) {
        SumAppend(log, u, cell.ids, col);
      }
    }
    forall col ensures Val(u.delta, col) == Sum(log + [u], {|log|}, col) {
      SumAppend(log, u, {|log|}, col);
      SumOutside(log, {|log|}, col);
    }
  }
}
