/** What a background worker does with the oplog index, the table oplogs and its batch is what the steps of the protocol
    do. */
module WorkerSteps {
  import opened Rows
  import opened RowOpLogs
  import opened TableOpLogs
  import opened Protocol
  import opened ClientSteps
  import F = OpLogFormat
  import O = OpLogSenders
  import T = ServerThreads
  import OpLogPipeline

  /** ResetPartition is the step BgTake: the worker has the rows of the channel's index of that table, the index is
      empty, and the others stay as they are. */
  lemma TakeMatches(cfg: Config, s: State, c: nat, p: nat, rows: set<int>, m: nat, q: nat, rows2: set<int>)
    requires BgOf(s.bg, c, p).pc.Drain?
    requires IndexIs(cfg, Index(s.sIndex, c), BgOf(s.bg, c, p).pc.table, p, rows)
    requires IndexIs(cfg, Index(s.sIndex, c), m, q, rows2)
    ensures var s', n := DoTake(cfg, s, c, p), BgOf(s.bg, c, p).pc.table;
      && BgOf(s'.bg, c, p).pc.Drain?
      && (forall key {:trigger key in BgOf(s'.bg, c, p).pc.taken} ::
            key in BgOf(s'.bg, c, p).pc.taken <==> key.table == n && key.row in rows)
      && IndexIs(cfg, Index(s'.sIndex, c), n, p, {})
      && ((m, q) != (n, p) ==> IndexIs(cfg, Index(s'.sIndex, c), m, q, rows2))
  {
    var s', n := DoTake(cfg, s, c, p), BgOf(s.bg, c, p).pc.table;
    var part := set k | k in Index(s.sIndex, c) && k.table == n && Chan(cfg, k) == p;
    assert Index(s'.sIndex, c) == Index(s.sIndex, c) - part;
    assert BgOf(s'.bg, c, p).pc.taken == part;
    hide DoTake, Index;
    forall key ensures key in part <==> key.table == n && key.row in rows {
      assert key == Key(key.table, key.row);
    }
  }

  /** The oplogs of table n that the worker has gathered. */
  ghost predicate GotIs(got: map<Key, Cell>, n: nat, logs: map<int, RowOpLog>) {
    forall r: nat :: GotRow(got, Key(n, r), r in logs, LogOf(logs, r))
  }

  ghost predicate GotRow(got: map<Key, Cell>, key: Key, has: bool, log: RowOpLog) {
    (has <==> key in got) && (has ==> LogIs(log, got[key]))
  }

  /** GetEraseOpLog is the step BgErase: the table oplog has nothing of the row, and what it had the worker has. */
  lemma EraseMatches(s: State, c: nat, p: nat, n: nat, row: nat, logs: map<int, RowOpLog>, rows: map<int, Row>,
                     got: map<int, RowOpLog>)
    requires BgOf(s.bg, c, p).pc.Drain? && GotIs(BgOf(s.bg, c, p).pc.got, n, got) && Process(s, c, n, logs, rows)
    ensures var s' := DoErase(s, c, p, Key(n, row));
      && Process(s', c, n, logs - {row}, rows)
      && BgOf(s'.bg, c, p).pc.Drain?
      && BgOf(s'.bg, c, p).pc.taken == BgOf(s.bg, c, p).pc.taken - {Key(n, row)}
      && GotIs(BgOf(s'.bg, c, p).pc.got, n, if row in logs then got[row := logs[row]] else got)
  {
    hide LogIs, RowIs;
    var s', logs' := DoErase(s, c, p, Key(n, row)), logs - {row};
    assert BgOf(s'.bg, c, p) == Erase(BgOf(s.bg, c, p), s.pOplog, c, Key(n, row));
    assert s'.pOplog == s.pOplog - {(c, Key(n, row))} && s'.pRow == s.pRow;
    hide DoErase, BgOf;
    forall r: nat
      ensures ProcessRow(s', c, Key(n, r), r in logs', LogOf(logs', r), r in rows, if r in rows then rows[r] else map[])
    {
      assert ProcessRow(s, c, Key(n, r), r in logs, LogOf(logs, r), r in rows, if r in rows then rows[r] else map[]);
      NothingIsZero();
    }
    var got' := if row in logs then got[row := logs[row]] else got;
    assert ProcessRow(s, c, Key(n, row), row in logs, LogOf(logs, row), row in rows,
                      if row in rows then rows[row] else map[]);
    forall r: nat ensures GotRow(BgOf(s'.bg, c, p).pc.got, Key(n, r), r in got', LogOf(got', r)) {
      assert GotRow(BgOf(s.bg, c, p).pc.got, Key(n, r), r in got, LogOf(got, r));
    }
  }

  lemma NothingIsZero()
    ensures LogIs(NO_LOG, ZERO)
  {
  }

  // ---- From a batch to the messages for the servers ----

  ghost predicate DistinctKeys(es: seq<F.Entry>) {
    T.HaveKeys(es) && forall i, j :: 0 <= i < j < |es| ==> T.KeyOf(es[i]) != T.KeyOf(es[j])
  }

  /** The serialized row oplogs of a batch: one for each row, with the row's numbers. */
  ghost predicate Lists(val: F.bytes -> int, es: seq<F.Entry>, batch: map<Key, Cell>) {
    && DistinctKeys(es)
    && (forall i :: 0 <= i < |es| ==>
          T.KeyOf(es[i]) in batch && SameNumbers(T.Delta(val, es[i].log), batch[T.KeyOf(es[i])].vals))
    && (forall key :: key in batch ==> exists i :: 0 <= i < |es| && T.KeyOf(es[i]) == key)
  }

  lemma {:induction false} TotalOf(val: F.bytes -> int, es: seq<F.Entry>, key: Key)
    requires DistinctKeys(es)
    ensures key in T.Total(val, es) <==> exists i :: 0 <= i < |es| && T.KeyOf(es[i]) == key
    ensures forall i :: 0 <= i < |es| && T.KeyOf(es[i]) == key ==>
      T.At0(T.Total(val, es), key) == T.Delta(val, es[i].log)
  {
    hide T.Delta, Add;
    if es != [] {
      var n := |es| - 1;
      TotalOf(val, es[..n], key);
      if T.KeyOf(es[n]) == key {
        T.AddNothing(T.Delta(val, es[n].log));
      }
      forall i | 0 <= i < n ensures T.KeyOf(es[..n][i]) == T.KeyOf(es[i]) {
      }
    }
  }

  /** The totals of a batch have the rows and the numbers of the batch. */
  lemma TotalIs(val: F.bytes -> int, es: seq<F.Entry>, batch: map<Key, Cell>, key: Key)
    requires Lists(val, es, batch)
    ensures key in T.Total(val, es) <==> key in batch
    ensures key in batch ==> SameNumbers(T.At0(T.Total(val, es), key), batch[key].vals)
  {
    hide T.Delta, T.Total, SameNumbers;
    TotalOf(val, es, key);
  }

  /** The same rows, made of the same updates, with the same numbers. */
  ghost predicate SameCells(a: map<Key, Cell>, b: map<Key, Cell>) {
    && a.Keys == b.Keys
    && forall key :: key in a ==> a[key].ids == b[key].ids && SameNumbers(a[key].vals, b[key].vals)
  }

  ghost function IdsOf(batch: map<Key, Cell>): map<Key, set<nat>> {
    map key | key in batch :: batch[key].ids
  }

  /** The rows of a batch are those of channel p, and `home` gives the server of each row; `id` names the servers of the
      channel by the hosts that they run on. */
  ghost predicate SentBy(cfg: Config, p: nat, home: int -> int, id: nat -> int, batch: map<Key, Cell>) {
    && (forall a, b :: id(a) == id(b) ==> a == b)
    && (forall key :: key in batch ==> Home(cfg, key).chan == p && home(key.row) == id(Home(cfg, key).host))
  }

  /** Sending a server its message is the step BgSend: what the server reads is the batch's part for that server. */
  lemma SendMatches(cfg: Config, s: State, c: nat, p: nat, val: F.bytes -> int, es: seq<F.Entry>, home: int -> int,
                    id: nat -> int)
    requires BgOf(s.bg, c, p).pc.Sending? && 0 < |BgOf(s.bg, c, p).saved| <= |BgOf(s.bg, c, p).hist|
    requires var b := BgOf(s.bg, c, p);
      Lists(val, es, b.saved[|b.saved| - 1]) && SentBy(cfg, p, home, id, b.saved[|b.saved| - 1])
    ensures var b := BgOf(s.bg, c, p);
      var v, batch := Srv(b.pc.next, p), b.saved[|b.saved| - 1];
      var q, q' := Queue(s.up, c, v), Queue(DoSend(cfg, s, c, p).up, c, v);
      && T.HaveKeys(O.OfServer(home, es, id(v.host)))
      && |q'| == |q| + 1 && q'[..|q|] == q && q'[|q|].Batch?
      && SameCells(T.BatchCells(T.Total(val, O.OfServer(home, es, id(v.host))), IdsOf(batch)), q'[|q|].rows)
  {
    hide SameNumbers, Lists, SentBy, T.Total, Restrict, T.BatchCells, SameCells, IdsOf;
    var b := BgOf(s.bg, c, p);
    PartMatches(cfg, p, val, es, home, id, b.saved[|b.saved| - 1], b.pc.next);
  }

  lemma PartMatches(cfg: Config, p: nat, val: F.bytes -> int, es: seq<F.Entry>, home: int -> int, id: nat -> int,
                    batch: map<Key, Cell>, host: nat)
    requires Lists(val, es, batch) && SentBy(cfg, p, home, id, batch)
    ensures T.HaveKeys(O.OfServer(home, es, id(host)))
    ensures SameCells(T.BatchCells(T.Total(val, O.OfServer(home, es, id(host))), IdsOf(batch)),
                      Restrict(cfg, batch, Srv(host, p)))
  {
    hide SameNumbers, T.Total, Lists;
    assert T.HaveKeys(es) by { ListsKeys(val, es, batch); }
    OpLogPipeline.TotalSplits(val, home, es, id(host), Key(0, 0));
    var mine, part := T.Total(val, O.OfServer(home, es, id(host))), Restrict(cfg, batch, Srv(host, p));
    forall key
      ensures key in mine <==> key in part
      ensures key in mine ==> SameNumbers(mine[key], part[key].vals)
    {
      OpLogPipeline.TotalSplits(val, home, es, id(host), key);
      TotalIs(val, es, batch, key);
    }
  }

  lemma ListsKeys(val: F.bytes -> int, es: seq<F.Entry>, batch: map<Key, Cell>)
    requires Lists(val, es, batch)
    ensures T.HaveKeys(es)
  {
  }
}
