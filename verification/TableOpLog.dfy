/** The oplogs and the oplog index that all threads of a process share. */
module TableOpLogs {
  import opened Options
  import opened Rows
  import opened RowOpLogs

  const NO_LOG := SparseLog(map[])

  /** The oplog of a row; none is as good as zero. */
  function LogOf(logs: map<int, RowOpLog>, row: int): RowOpLog {
    if row in logs then logs[row] else NO_LOG
  }

  predicate AllShaped(logs: map<int, RowOpLog>, dense: bool, capacity: nat) {
    forall r :: r in logs ==> logs[r].Shaped(dense, capacity)
  }

  /** The table oplog kept in a hash map. */
  class SparseOpLog {
    const dense: bool
    const capacity: nat
    var oplogMap: map<int, RowOpLog>

    ghost predicate Valid() reads this {
      AllShaped(oplogMap, dense, capacity)
    }

    constructor (dense: bool, capacity: nat)
      ensures Valid() && this.dense == dense && this.capacity == capacity && oplogMap == map[]
    {
      this.dense, this.capacity, oplogMap := dense, capacity, map[];
    }

    /** The row's oplog, created as zero if there is none. */
    method FindInsertOpLog(row: int) returns (newCreate: bool)
      requires Valid()
      modifies this
      ensures Valid() && row in oplogMap && (newCreate <==> row !in old(oplogMap))
      ensures oplogMap == if newCreate then old(oplogMap)[row := Fresh(dense, capacity)] else old(oplogMap)
    {
      newCreate := false;
      if row !in oplogMap {
        newCreate := true;
        oplogMap := oplogMap[row := Fresh(dense, capacity)];
      }
    }

    /** Stores what was done to the oplog through an accessor. */
    method Put(row: int, log: RowOpLog)
      requires Valid() && row in oplogMap && log.Shaped(dense, capacity)
      modifies this
      ensures Valid() && oplogMap == old(oplogMap)[row := log]
    {
      oplogMap := oplogMap[row := log];
    }

    method Inc(row: int, col: int, delta: int)
      requires Valid() && Fresh(dense, capacity).Has(col)
      modifies this
      ensures Valid() && row in oplogMap && oplogMap.Keys == old(oplogMap).Keys + {row}
      ensures oplogMap - {row} == old(oplogMap) - {row}
      ensures Grew(LogOf(old(oplogMap), row), [(col, delta)], oplogMap[row])
    {
      var log := if row in oplogMap then oplogMap[row] else Fresh(dense, capacity);
      GrewOne(log, col, delta);
      AddGet(log, col, delta);
      oplogMap := oplogMap[row := log.Add(col, delta)];
    }

    method BatchInc(row: int, items: Items)
      requires Valid() && AllHas(Fresh(dense, capacity), items)
      modifies this
      ensures Valid() && row in oplogMap && oplogMap.Keys == old(oplogMap).Keys + {row}
      ensures oplogMap - {row} == old(oplogMap) - {row}
      ensures Grew(LogOf(old(oplogMap), row), items, oplogMap[row])
    {
      var log := if row in oplogMap then oplogMap[row] else Fresh(dense, capacity);
      log := AddEach(log, items, dense, capacity);
      oplogMap := oplogMap[row := log];
    }

    /** Hands the row's oplog over; the next update of the row starts from zero. */
    method GetEraseOpLog(row: int) returns (log: Option<RowOpLog>)
      requires Valid()
      modifies this
      ensures Valid() && oplogMap == old(oplogMap) - {row}
      ensures log == if row in old(oplogMap) then Some(old(oplogMap)[row]) else None
    {
      if row !in oplogMap {
        return None;
      }
      log := Some(oplogMap[row]);
      oplogMap := oplogMap - {row};
    }
  }

  /** The table oplog kept in a vector, where a row has the slot of its id modulo the capacity. */
  class DenseOpLog {
    const dense: bool
    const rowCapacity: nat
    const oplogVec: array<Option<RowOpLog>>

    ghost predicate Valid()
      reads oplogVec
    {
      && oplogVec.Length > 0
      && forall i :: 0 <= i < oplogVec.Length && oplogVec[i].Some? ==> oplogVec[i].value.Shaped(dense, rowCapacity)
    }

    constructor (dense: bool, rowCapacity: nat, capacity: nat)
      requires capacity > 0
      ensures Valid() && fresh(oplogVec) && oplogVec.Length == capacity && Logs() == map[]
      ensures this.dense == dense && this.rowCapacity == rowCapacity
    {
      this.dense, this.rowCapacity := dense, rowCapacity;
      oplogVec := new Option<RowOpLog>[capacity](i => None);
    }

    function GetVecIndex(row: nat): (i: nat)
      requires oplogVec.Length > 0
      ensures i < oplogVec.Length
    {
      row % oplogVec.Length
    }

    /** The oplogs in use, by slot. For rows below the capacity, a slot is the row. */
    ghost function Logs(): map<int, RowOpLog>
      reads oplogVec
    {
      map i | 0 <= i < oplogVec.Length && oplogVec[i].Some? :: oplogVec[i].value
    }

    method FindInsertOpLog(row: nat) returns (newCreate: bool)
      requires Valid()
      modifies oplogVec
      ensures Valid()
      ensures var i := GetVecIndex(row);
        && i in Logs() && (newCreate <==> i !in old(Logs()))
        && Logs() == if newCreate then old(Logs())[i := Fresh(dense, rowCapacity)] else old(Logs())
    {
      newCreate := false;
      if oplogVec[GetVecIndex(row)] == None {
        newCreate := true;
        oplogVec[GetVecIndex(row)] := Some(Fresh(dense, rowCapacity));
      }
    }

    /** Stores what was done to the oplog through an accessor. */
    method Put(row: nat, log: RowOpLog)
      requires Valid() && GetVecIndex(row) in Logs() && log.Shaped(dense, rowCapacity)
      modifies oplogVec
      ensures Valid() && Logs() == old(Logs())[GetVecIndex(row) := log]
    {
      oplogVec[GetVecIndex(row)] := Some(log);
    }

    method Inc(row: nat, col: int, delta: int)
      requires Valid() && Fresh(dense, rowCapacity).Has(col)
      modifies oplogVec
      ensures Valid()
      ensures var i := GetVecIndex(row);
        && Logs().Keys == old(Logs()).Keys + {i} && Logs() - {i} == old(Logs()) - {i}
        && Grew(LogOf(old(Logs()), i), [(col, delta)], Logs()[i])
    {
      var i := GetVecIndex(row);
      var log := if oplogVec[i].Some? then oplogVec[i].value else Fresh(dense, rowCapacity);
      GrewOne(log, col, delta);
      AddGet(log, col, delta);
      oplogVec[i] := Some(log.Add(col, delta));
    }

    method BatchInc(row: nat, items: Items)
      requires Valid() && AllHas(Fresh(dense, rowCapacity), items)
      modifies oplogVec
      ensures Valid()
      ensures var i := GetVecIndex(row);
        && Logs().Keys == old(Logs()).Keys + {i} && Logs() - {i} == old(Logs()) - {i}
        && Grew(LogOf(old(Logs()), i), items, Logs()[i])
    {
      var i := GetVecIndex(row);
      var log := if oplogVec[i].Some? then oplogVec[i].value else Fresh(dense, rowCapacity);
      log := AddEach(log, items, dense, rowCapacity);
      oplogVec[i] := Some(log);
    }

    method GetEraseOpLog(row: nat) returns (log: Option<RowOpLog>)
      requires Valid()
      modifies oplogVec
      ensures Valid()
      ensures var i := GetVecIndex(row);
        Logs() == old(Logs()) - {i} && log == if i in old(Logs()) then Some(old(Logs())[i]) else None
    {
      log := oplogVec[GetVecIndex(row)];
      if log.Some? {
        oplogVec[GetVecIndex(row)] := None;
      }
    }
  }

  /** Exactly the rows below the capacity have the slot of their own id; any other row shares the slot, and so the
      oplog, of a row below the capacity. */
  lemma OwnSlotIff(log: DenseOpLog, row: nat)
    requires log.oplogVec.Length > 0
    ensures log.GetVecIndex(row) == row <==> row < log.oplogVec.Length
    ensures log.GetVecIndex(log.GetVecIndex(row)) == log.GetVecIndex(row)
  {
    if row < log.oplogVec.Length {
      assert row % log.oplogVec.Length == row;
    }
  }

  /** What sharing a slot does: with two slots, an update of row 1 is handed over as one of row 3. */
  method SharedSlot() returns (log: Option<RowOpLog>)
    ensures log.Some? && log.value.Get(0) == 5
  {
    var oplog := new DenseOpLog(false, 0, 2);
    oplog.Inc(1, 0, 5);
    OneItem(0, 5, 0);
    log := oplog.GetEraseOpLog(3);
  }

  /** The table oplog of either kind. */
  class TableOpLog {
    const dense: bool
    const capacity: nat
    const sparse: SparseOpLog?
    const vector: DenseOpLog?

    ghost predicate Valid()
      reads SparseFrame(), VectorFrame()
    {
      if sparse != null
      then vector == null && sparse.Valid() && sparse.dense == dense && sparse.capacity == capacity
      else vector != null && vector.Valid() && vector.dense == dense && vector.rowCapacity == capacity
    }

    ghost function SparseFrame(): set<SparseOpLog> {
      if sparse == null then {} else {sparse}
    }

    ghost function VectorFrame(): set<array<Option<RowOpLog>>> {
      if vector == null then {} else {vector.oplogVec}
    }

    /** The oplog of each row that has one. */
    ghost function Logs(): map<int, RowOpLog>
      reads SparseFrame(), VectorFrame()
    {
      if sparse != null then sparse.oplogMap else if vector != null then vector.Logs() else map[]
    }

    /** A vector has a slot of its own for rows below its capacity (OwnSlotIff); a hash map for every row. */
    predicate HasPlace(row: int) {
      vector != null ==> 0 <= row < vector.oplogVec.Length
    }

    constructor Sparse(log: SparseOpLog)
      requires log.Valid()
      ensures Valid() && Logs() == log.oplogMap && dense == log.dense && capacity == log.capacity
      ensures sparse == log && forall row :: HasPlace(row)
    {
      dense, capacity, sparse, vector := log.dense, log.capacity, log, null;
    }

    constructor Vector(log: DenseOpLog)
      requires log.Valid()
      ensures Valid() && Logs() == log.Logs() && dense == log.dense && capacity == log.rowCapacity
      ensures vector == log && forall row :: HasPlace(row) <==> 0 <= row < log.oplogVec.Length
    {
      dense, capacity, sparse, vector := log.dense, log.rowCapacity, null, log;
    }

    /** The row's oplog, created as zero if there is none. */
    method FindInsertOpLog(row: int) returns (newCreate: bool)
      requires Valid() && HasPlace(row)
      modifies SparseFrame(), VectorFrame()
      ensures Valid() && row in Logs() && (newCreate <==> row !in old(Logs()))
      ensures Logs() == if newCreate then old(Logs())[row := Fresh(dense, capacity)] else old(Logs())
    {
      if sparse != null {
        newCreate := sparse.FindInsertOpLog(row);
      } else {
        OwnSlotIff(vector, row);
        newCreate := vector.FindInsertOpLog(row);
      }
    }

    /** What an accessor points to. */
    method Get(row: int) returns (log: RowOpLog)
      requires Valid() && HasPlace(row) && row in Logs()
      ensures log == Logs()[row] && log.Shaped(dense, capacity)
    {
      if sparse != null {
        log := sparse.oplogMap[row];
      } else {
        OwnSlotIff(vector, row);
        log := vector.oplogVec[vector.GetVecIndex(row)].value;
      }
    }

    /** Stores what was done to the oplog through an accessor. */
    method Put(row: int, log: RowOpLog)
      requires Valid() && HasPlace(row) && row in Logs() && log.Shaped(dense, capacity)
      modifies SparseFrame(), VectorFrame()
      ensures Valid() && Logs() == old(Logs())[row := log]
    {
      if sparse != null {
        sparse.Put(row, log);
      } else {
        OwnSlotIff(vector, row);
        vector.Put(row, log);
      }
    }

    /** Adds one update after another through an accessor. */
    method AddItems(row: int, items: Items)
      requires Valid() && HasPlace(row) && row in Logs() && AllHas(Fresh(dense, capacity), items)
      modifies SparseFrame(), VectorFrame()
      ensures Valid() && Logs().Keys == old(Logs()).Keys && Logs() - {row} == old(Logs()) - {row}
      ensures Grew(old(Logs())[row], items, Logs()[row])
    {
      hide Valid, Logs, Grew;
      var log := Get(row);
      log := AddEach(log, items, dense, capacity);
      Put(row, log);
    }

    method Inc(row: int, col: int, delta: int)
      requires Valid() && HasPlace(row) && Fresh(dense, capacity).Has(col)
      modifies SparseFrame(), VectorFrame()
      ensures Valid() && Logs().Keys == old(Logs()).Keys + {row} && Logs() - {row} == old(Logs()) - {row}
      ensures Grew(LogOf(old(Logs()), row), [(col, delta)], Logs()[row])
    {
      if sparse != null {
        sparse.Inc(row, col, delta);
      } else {
        OwnSlotIff(vector, row);
        vector.Inc(row, col, delta);
      }
    }

    method BatchInc(row: int, items: Items)
      requires Valid() && HasPlace(row) && AllHas(Fresh(dense, capacity), items)
      modifies SparseFrame(), VectorFrame()
      ensures Valid() && Logs().Keys == old(Logs()).Keys + {row} && Logs() - {row} == old(Logs()) - {row}
      ensures Grew(LogOf(old(Logs()), row), items, Logs()[row])
    {
      if sparse != null {
        sparse.BatchInc(row, items);
      } else {
        OwnSlotIff(vector, row);
        vector.BatchInc(row, items);
      }
    }

    /** Hands the row's oplog over; the next update of the row starts from zero. */
    method GetEraseOpLog(row: int) returns (log: Option<RowOpLog>)
      requires Valid() && HasPlace(row)
      modifies SparseFrame(), VectorFrame()
      ensures Valid() && Logs() == old(Logs()) - {row}
      ensures log == if row in old(Logs()) then Some(old(Logs())[row]) else None
    {
      if sparse != null {
        log := sparse.GetEraseOpLog(row);
      } else {
        OwnSlotIff(vector, row);
        log := vector.GetEraseOpLog(row);
      }
    }
  }

  /** For each channel, the rows that have been updated since the background worker last took the index. */
  class TableOpLogIndex {
    var shared: seq<set<int>>

    constructor (channels: nat)
      ensures shared == seq(channels, p => {})
    {
      shared := seq(channels, p => {});
    }

    method AddIndex(p: nat, rows: set<int>)
      requires p < |shared|
      modifies this
      ensures shared == old(shared)[p := old(shared)[p] + rows]
    {
      var left := rows;
      assert old(shared)[p] + (rows - left) == shared[p];
      while exists r :: r in left
        invariant left <= rows && |shared| == |old(shared)|
        invariant shared == old(shared)[p := old(shared)[p] + (rows - left)]
        decreases |left|
      {
        var r :| r in left;
        left := left - {r};
        assert old(shared)[p] + (rows - left) == shared[p] + {r};
        shared := shared[p := shared[p] + {r}];
      }
      assert rows - left == rows;
    }

    /** Takes the index of one channel, and starts an empty one. */
    method ResetPartition(p: nat) returns (rows: set<int>)
      requires p < |shared|
      modifies this
      ensures rows == old(shared)[p] && shared == old(shared)[p := {}]
    {
      rows := shared[p];
      shared := shared[p := {}];
    }
  }
}
