/** The oplog pipeline from end to end: from the rows of a client's batch to the rows of the servers. */
module OpLogPipeline {
  import opened OpLogFormat
  import opened OpLogSenders
  import opened Rows
  import opened ServerThreads

  ghost function DataFor(sender: OpLogSender, v: int): bytes
    reads sender`msgs
  {
    if v in sender.msgs then sender.msgs[v] else []
  }

  /** Of the batch's total, a server gets the rows it stores, whole, and no other row. */
  lemma {:induction false} TotalSplits(val: bytes -> int, home: int -> int, es: seq<Entry>, v: int, key: Key)
    requires HaveKeys(es)
    ensures HaveKeys(OfServer(home, es, v))
    ensures var mine, all := Total(val, OfServer(home, es, v)), Total(val, es);
      if home(key.row) == v then (key in mine <==> key in all) && At0(mine, key) == At0(all, key) else key !in mine
  {
    hide Delta, Add;
    if es != [] {
      var n := |es| - 1;
      TotalSplits(val, home, es[..n], v, key);
      var mine := OfServer(home, es[..n], v);
      if home(es[n].row) == v {
        TotalNext(val, mine, es[n]);
      } else {
        assert mine + [] == mine;
      }
    }
  }

  /** A batch that was split, serialized, read back and applied: every row of every server gets the batch's total for
      that row if the server stores it, and stays what it was otherwise; every server's message can be read. */
  lemma BatchArrives(sender: OpLogSender, batch: seq<RowLogs>, v: int, val: bytes -> int,
                     rows: map<Key, Row>, key: Key)
    requires sender.JobOf(batch).Valid() && sender.Packed(batch, v)
    requires HaveKeys(BatchEntries(sender.JobOf(batch), |sender.tables|))
    ensures DataOk(sender.infos, DataFor(sender, v))
    ensures var total := Total(val, BatchEntries(sender.JobOf(batch), |sender.tables|));
      At0(Plus(rows, Total(val, DataEntries(sender.infos, DataFor(sender, v)))), key)
        == if sender.home(key.row) == v then Add(At0(rows, key), At0(total, key)) else At0(rows, key)
  {
    hide Total, MsgReadable, MsgEntries, Add, BatchEntries, OfServer;
    var es := BatchEntries(sender.JobOf(batch), |sender.tables|);
    var mine := OfServer(sender.home, es, v);
    ServersReadTheirRows(sender, batch, v);
    TotalSplits(val, sender.home, es, v, key);
    if v in sender.msgs {
      MessageHasData(sender, batch, v);
    }
    AddNothing(At0(rows, key));
    assert DataEntries(sender.infos, DataFor(sender, v)) == mine;
    if key !in rows && key !in Total(val, mine) {
      AddNothing(map[]);
    }
  }

  /** A message has at least its number of tables. */
  lemma MessageHasData(sender: OpLogSender, batch: seq<RowLogs>, v: int)
    requires sender.JobOf(batch).Valid() && sender.Packed(batch, v) && v in sender.msgs
    ensures sender.msgs[v] != []
  {
  }
}
