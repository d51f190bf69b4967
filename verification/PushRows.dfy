/** Rows, their subscribers, and the resumable pass that appends one table to the buffers of all clients. */
module PushRows {
  import opened Codec
  import opened PushFormat
  import opened RecordBuffs

  /** Buffers of different clients share nothing. */
  ghost predicate Apart(buffs: seq<RecordBuff>) {
    forall i, j :: 0 <= i < j < |buffs| ==> buffs[i] != buffs[j] && buffs[i].mem != buffs[j].mem
  }

  ghost function Mems(buffs: seq<RecordBuff>): set<object> {
    set b | b in buffs :: b.mem
  }

  ghost predicate AllValid(buffs: seq<RecordBuff>)
    reads buffs, Mems(buffs)
  {
    Apart(buffs) && forall c :: 0 <= c < |buffs| ==> buffs[c].Valid()
  }

  ghost function Toks(buffs: seq<RecordBuff>): (s: seq<seq<GoodTok>>)
    reads buffs
    ensures |s| == |buffs|
  {
    seq(|buffs|, c requires 0 <= c < |buffs| reads buffs => buffs[c].toks)
  }

  ghost function Offsets(buffs: seq<RecordBuff>): (s: seq<nat>)
    reads buffs
    ensures |s| == |buffs|
  {
    seq(|buffs|, c requires 0 <= c < |buffs| reads buffs => buffs[c].offset)
  }

  /** Appends to one buffer and leaves the others alone. */
  method AppendTo(buffs: seq<RecordBuff>, c: nat, rowId: int, rowData: seq<byte>) returns (suc: bool)
    requires AllValid(buffs) && c < |buffs| && TokOk(Row(rowId, rowData))
    modifies buffs[c], buffs[c].mem
    ensures AllValid(buffs)
    ensures suc == (old(buffs[c].offset) + 12 + |rowData| <= buffs[c].mem.Length)
    ensures Toks(buffs) == old(Toks(buffs))[c := AddTok(old(buffs[c].toks), suc, Row(rowId, rowData))]
    ensures Offsets(buffs) == old(Offsets(buffs))[c := old(buffs[c].offset) + if suc then 12 + |rowData| else 0]
  {
    hide RecordBuff.Valid;
    ghost var toks, offs := Toks(buffs), Offsets(buffs);
    suc := buffs[c].Append(rowId, rowData);
    forall d | 0 <= d < |buffs| && d != c ensures buffs[d].toks == toks[d] && buffs[d].offset == offs[d] {
    }
    forall d | 0 <= d < |buffs| ensures buffs[d].Valid() {
      assert d != c ==> buffs[d] != buffs[c] && buffs[d].mem != buffs[c].mem;
    }
  }

  function AddTok(toks: seq<GoodTok>, add: bool, tok: GoodTok): seq<GoodTok> {
    if add then toks + [tok] else toks
  }

  /** The tokens after a row was appended for the subscribed clients st..upto. */
  function AddRow(toks: seq<seq<GoodTok>>, subs: set<nat>, st: nat, upto: nat, tok: GoodTok): (s: seq<seq<GoodTok>>)
    ensures |s| == |toks|
    ensures forall c :: 0 <= c < |toks| ==> s[c] == AddTok(toks[c], st <= c < upto && c in subs, tok)
  {
    seq(|toks|, c requires 0 <= c < |toks| => AddTok(toks[c], st <= c < upto && c in subs, tok))
  }

  lemma AddStep(toks: seq<seq<GoodTok>>, subs: set<nat>, st: nat, c: nat, tok: GoodTok)
    requires st <= c < |toks|
    ensures AddRow(toks, subs, st, c, tok)[c] == toks[c]
    ensures AddRow(toks, subs, st, c + 1, tok)
         == if c in subs then AddRow(toks, subs, st, c, tok)[c := AddTok(toks[c], true, tok)]
            else AddRow(toks, subs, st, c, tok)
  {
  }

  lemma AddNone(toks: seq<seq<GoodTok>>, subs: set<nat>, st: nat, tok: GoodTok)
    ensures AddRow(toks, subs, st, st, tok) == toks
  {
  }

  class CallBackSubs {
    var subscriptions: set<nat>

    constructor ()
      ensures subscriptions == {}
    {
      subscriptions := {};
    }

    method Subscribe(client: nat) returns (changed: bool)
      modifies this
      ensures subscriptions == old(subscriptions) + {client}
      ensures changed <==> client !in old(subscriptions)
    {
      changed := false;
      if client !in subscriptions {
        changed := true;
        subscriptions := subscriptions + {client};
      }
    }

    method Unsubscribe(client: nat) returns (changed: bool)
      modifies this
      ensures subscriptions == old(subscriptions) - {client}
      ensures changed <==> client in old(subscriptions)
    {
      changed := false;
      if client in subscriptions {
        changed := true;
        subscriptions := subscriptions - {client};
      }
    }

    /** Appends a row to the buffers of its subscribers from client `st` on, up to the first that has no room. */
    method AppendRowToBuffs(st: nat, buffs: seq<RecordBuff>, rowData: seq<byte>, rowId: int)
      returns (suc: bool, failed: nat)
      requires AllValid(buffs) && st <= |buffs| && TokOk(Row(rowId, rowData))
      modifies buffs, Mems(buffs)
      ensures AllValid(buffs)
      ensures st <= failed <= |buffs| && (suc <==> failed == |buffs|)
      ensures Toks(buffs) == AddRow(old(Toks(buffs)), subscriptions, st, failed, Row(rowId, rowData))
      ensures !suc ==> failed in subscriptions
      ensures !suc ==> old(buffs[failed].offset) + 12 + |rowData| > buffs[failed].mem.Length
    {
      hide AllValid, AddRow, AddTok;
      ghost var subs, toks, offs := subscriptions, Toks(buffs), Offsets(buffs);
      AddNone(toks, subs, st, Row(rowId, rowData));
      var client := st;
      while client < |buffs|
        invariant st <= client <= |buffs|
        invariant AllValid(buffs) && subscriptions == subs
        invariant Toks(buffs) == AddRow(toks, subs, st, client, Row(rowId, rowData))
        invariant Offsets(buffs)[client..] == offs[client..]
      {
        AddStep(toks, subs, st, client, Row(rowId, rowData));
        if client in subscriptions {
          var ok := AppendTo(buffs, client, rowId, rowData);
          if !ok {
            assert offs[client] == Offsets(buffs)[client];
            return false, client;
          }
        }
        client := client + 1;
      }
      return true, |buffs|;
    }
  }

  /** A row as a push sees it. */
  datatype RowState = RowState(id: int, data: seq<byte>, subs: set<nat>, dirty: bool) {
    /** Rows nobody subscribes to stay dirty. */
    predicate Due() {
      dirty && subs != {}
    }

    function Cleaned(): RowState {
      if subs == {} then this else this.(dirty := false)
    }
  }

  class ServerRow {
    const callbackSubs: CallBackSubs
    var rowData: seq<byte>
    var numClientsSubscribed: nat
    var dirty: bool

    ghost predicate Valid()
      reads this, callbackSubs
    {
      numClientsSubscribed == |callbackSubs.subscriptions|
    }

    ghost function State(id: int): RowState
      reads this, callbackSubs
    {
      RowState(id, rowData, callbackSubs.subscriptions, dirty)
    }

    constructor (rowData: seq<byte>)
      ensures Valid() && fresh(callbackSubs) && forall id :: State(id) == RowState(id, rowData, {}, false)
    {
      this.rowData, numClientsSubscribed, dirty := rowData, 0, false;
      callbackSubs := new CallBackSubs();
    }

    /** The count of subscribers stays right whether or not the client was subscribed before. */
    method Subscribe(client: nat)
      requires Valid()
      modifies this`numClientsSubscribed, callbackSubs
      ensures Valid() && callbackSubs.subscriptions == old(callbackSubs.subscriptions) + {client}
    {
      var changed := callbackSubs.Subscribe(client);
      assert !changed ==> callbackSubs.subscriptions == old(callbackSubs.subscriptions);
      if changed {
        numClientsSubscribed := numClientsSubscribed + 1;
      }
    }

    method Unsubscribe(client: nat)
      requires Valid()
      modifies this`numClientsSubscribed, callbackSubs
      ensures Valid() && callbackSubs.subscriptions == old(callbackSubs.subscriptions) - {client}
    {
      var changed := callbackSubs.Unsubscribe(client);
      assert !changed ==> callbackSubs.subscriptions == old(callbackSubs.subscriptions);
      if changed {
        assert old(callbackSubs.subscriptions) == callbackSubs.subscriptions + {client};
        assert |callbackSubs.subscriptions + {client}| == |callbackSubs.subscriptions| + 1;
        numClientsSubscribed := numClientsSubscribed - 1;
      }
    }

    method NoClientSubscribed() returns (none: bool)
      requires Valid()
      ensures none <==> callbackSubs.subscriptions == {}
    {
      return numClientsSubscribed == 0;
    }

    method ResetDirty()
      modifies this`dirty
      ensures !dirty
    {
      dirty := false;
    }
  }

  // ---- What a client is to receive of one table ----

  function DueItems(table: int, snap: seq<RowState>, n: nat, c: nat): seq<Item>
    requires n <= |snap|
  {
    if n == 0 then []
    else
      DueItems(table, snap, n - 1, c)
      + if snap[n - 1].dirty && c in snap[n - 1].subs then [Item(table, snap[n - 1].id, snap[n - 1].data)] else []
  }

  /** The same when row n has been appended for the clients before `st` only. */
  function PosItems(table: int, snap: seq<RowState>, n: nat, st: nat, c: nat): seq<Item>
    requires n <= |snap|
  {
    DueItems(table, snap, n, c)
    + if n < |snap| && c < st && snap[n].dirty && c in snap[n].subs then [Item(table, snap[n].id, snap[n].data)] else []
  }

  function CleanUpTo(snap: seq<RowState>, n: nat): seq<RowState> {
    seq(|snap|, i requires 0 <= i < |snap| => if i < n then snap[i].Cleaned() else snap[i])
  }

  /** Earlier messages and the buffer together hold what the client got before this table and its rows so far. */
  ghost predicate Reached(prefix: seq<seq<Item>>, base: seq<seq<Item>>, toks: seq<seq<GoodTok>>, table: int,
                          snap: seq<RowState>, n: nat, st: nat)
    requires n <= |snap|
  {
    && |prefix| == |base| == |toks|
    && forall c {:trigger toks[c]} :: 0 <= c < |toks| ==>
         ReachedAt(prefix[c], base[c], toks[c], table, PosItems(table, snap, n, st, c))
  }

  ghost predicate ReachedAt(prefix: seq<Item>, base: seq<Item>, toks: seq<GoodTok>, table: int, due: seq<Item>) {
    Sound(toks) && After(toks) == In(table) && prefix + Items(toks) == base + due
  }

  lemma ReachRow(prefix: seq<seq<Item>>, base: seq<seq<Item>>, toks: seq<seq<GoodTok>>, table: int,
                 snap: seq<RowState>, n: nat, st: nat, failed: nat)
    requires n < |snap| && snap[n].Due() && TokOk(Row(snap[n].id, snap[n].data)) && st <= failed
    requires Reached(prefix, base, toks, table, snap, n, st)
    ensures Reached(prefix, base, AddRow(toks, snap[n].subs, st, failed, Row(snap[n].id, snap[n].data)), table, snap, n,
                    failed)
  {
    var r := snap[n];
    var tok := Row(r.id, r.data);
    var toks' := AddRow(toks, r.subs, st, failed, tok);
    forall c | 0 <= c < |toks'|
      ensures ReachedAt(prefix[c], base[c], toks'[c], table, PosItems(table, snap, n, failed, c))
    {
      assert ReachedAt(prefix[c], base[c], toks[c], table, PosItems(table, snap, n, st, c));
      if st <= c < failed && c in r.subs {
        ReachTok(prefix[c], base[c], toks[c], table, r.id, r.data, PosItems(table, snap, n, st, c));
      }
    }
  }

  lemma ReachTok(prefix: seq<Item>, base: seq<Item>, toks: seq<GoodTok>, table: int, id: int, data: seq<byte>,
                 due: seq<Item>)
    requires ReachedAt(prefix, base, toks, table, due) && TokOk(Row(id, data))
    ensures ReachedAt(prefix, base, toks + [Row(id, data)], table, due + [Item(table, id, data)])
  {
    Push(toks, Row(id, data));
    PushSound(toks, Row(id, data));
    assert prefix + (Items(toks) + [Item(table, id, data)]) == prefix + Items(toks) + [Item(table, id, data)];
    assert base + (due + [Item(table, id, data)]) == base + due + [Item(table, id, data)];
  }

  /** On to the next row, when this one is done or has nobody to go to. */
  lemma ReachNext(prefix: seq<seq<Item>>, base: seq<seq<Item>>, toks: seq<seq<GoodTok>>, table: int,
                  snap: seq<RowState>, n: nat, st: nat)
    requires n < |snap| && Reached(prefix, base, toks, table, snap, n, st)
    requires st >= |toks| || !snap[n].Due()
    ensures Reached(prefix, base, toks, table, snap, n + 1, 0)
  {
    forall c | 0 <= c < |toks|
      ensures PosItems(table, snap, n + 1, 0, c) == PosItems(table, snap, n, st, c)
    {
    }
  }

  ghost function RowsOf(storage: seq<(int, ServerRow)>): set<ServerRow> {
    set p | p in storage :: p.1
  }

  ghost function SubsOf(storage: seq<(int, ServerRow)>): set<CallBackSubs> {
    set p | p in storage :: p.1.callbackSubs
  }

  ghost function States(storage: seq<(int, ServerRow)>): (s: seq<RowState>)
    reads RowsOf(storage), SubsOf(storage)
    ensures |s| == |storage|
    ensures forall i :: 0 <= i < |s| ==> s[i] == storage[i].1.State(storage[i].0)
  {
    seq(|storage|, i requires 0 <= i < |storage| reads RowsOf(storage), SubsOf(storage) =>
      (assert storage[i] in storage; storage[i].1.State(storage[i].0)))
  }

  lemma CleanOne(snap: seq<RowState>, n: nat)
    requires n < |snap|
    ensures CleanUpTo(snap, n)[n] == snap[n]
    ensures CleanUpTo(snap, n + 1) == CleanUpTo(snap, n)[n := snap[n].Cleaned()]
    ensures !snap[n].Due() ==> CleanUpTo(snap, n + 1) == CleanUpTo(snap, n)
  {
  }

  class ServerTable {
    const tableId: int
    var storage: seq<(int, ServerRow)>
    /** Where a pass over the rows stands, and the serialized row it may have stopped in. */
    var rowIter: nat
    var tmpRowBuff: seq<byte>
    /** The rows when the pass began. */
    ghost var snap: seq<RowState>

    ghost function Rows(): set<ServerRow>
      reads this`storage
    {
      RowsOf(storage)
    }

    ghost function Subs(): set<CallBackSubs>
      reads this`storage
    {
      SubsOf(storage)
    }

    ghost predicate Valid()
      reads this`storage, Rows(), Subs()
    {
      && (forall i, j :: 0 <= i < j < |storage| ==> storage[i].1 != storage[j].1)
      && (forall i :: 0 <= i < |storage| ==> storage[i].1.Valid() && TokOk(Row(storage[i].0, storage[i].1.rowData)))
    }

    ghost function Snapshot(): (s: seq<RowState>)
      reads this`storage, Rows(), Subs()
      ensures |s| == |storage|
    {
      States(storage)
    }

    /** A pass is under way; `stopped` when it is in the middle of a row. */
    ghost predicate Going(stopped: bool)
      reads this, Rows(), Subs()
    {
      && Valid() && rowIter <= |snap| == |storage|
      && Snapshot() == CleanUpTo(snap, if stopped then rowIter + 1 else rowIter)
      && (stopped ==> rowIter < |snap| && snap[rowIter].Due() && tmpRowBuff == snap[rowIter].data)
    }

    method InitAppendTableToBuffs()
      requires Valid()
      modifies this`rowIter, this`tmpRowBuff, this`snap
      ensures Going(false) && rowIter == 0 && snap == old(Snapshot()) && Snapshot() == old(Snapshot())
    {
      rowIter, tmpRowBuff := 0, [];
      snap := Snapshot();
      assert CleanUpTo(snap, 0) == snap;
    }

    /** Is there anything to send of this row? Then it is cleaned and serialized. */
    method StartRow() returns (due: bool)
      requires Going(false) && rowIter < |storage|
      modifies this`tmpRowBuff, Rows()`dirty
      ensures Valid() && rowIter < |snap| == |storage| && due == snap[rowIter].Due() && Going(due)
      ensures !due ==> Snapshot() == CleanUpTo(snap, rowIter + 1)
    {
      var row := storage[rowIter].1;
      assert storage[rowIter] in storage && row in Rows();
      CleanOne(snap, rowIter);
      hide CleanUpTo;
      assert Snapshot()[rowIter] == snap[rowIter];
      var none := row.NoClientSubscribed();
      if none || !row.dirty {
        return false;
      }
      CleanRow(row);
      tmpRowBuff := row.rowData;
      return true;
    }

    method CleanRow(row: ServerRow)
      requires Valid() && rowIter < |storage| && storage[rowIter].1 == row
      modifies row`dirty
      ensures Valid() && Snapshot() == old(Snapshot())[rowIter := old(Snapshot())[rowIter].(dirty := false)]
    {
      ghost var before := Snapshot();
      row.ResetDirty();
      forall i | 0 <= i < |storage| && i != rowIter ensures Snapshot()[i] == before[i] {
        assert storage[i].1 != row;
      }
    }

    /** On to the next row. */
    method NextRow()
      requires Valid() && rowIter < |snap| == |storage| && Snapshot() == CleanUpTo(snap, rowIter + 1)
      modifies this`rowIter
      ensures Going(false) && rowIter == old(rowIter) + 1 && rowIter <= |snap| == |storage|
    {
      rowIter := rowIter + 1;
    }

    /** Appends the row at hand for the clients from `st` on. */
    method AppendRow(st: nat, buffs: seq<RecordBuff>, ghost prefix: seq<seq<Item>>, ghost base: seq<seq<Item>>)
      returns (suc: bool, failed: nat)
      requires AllValid(buffs) && st <= |buffs| && Going(true)
      requires Reached(prefix, base, Toks(buffs), tableId, snap, rowIter, st)
      modifies buffs, Mems(buffs)
      ensures AllValid(buffs) && Going(true) && Valid() && rowIter < |snap| == |storage|
      ensures Snapshot() == CleanUpTo(snap, rowIter + 1)
      ensures suc ==> Reached(prefix, base, Toks(buffs), tableId, snap, rowIter + 1, 0)
      ensures !suc ==> Reached(prefix, base, Toks(buffs), tableId, snap, rowIter, failed)
      ensures !suc ==> st <= failed < |buffs| && failed in snap[rowIter].subs && snap[rowIter].Due()
      ensures !suc ==> old(buffs[failed].offset) + 12 + |snap[rowIter].data| > buffs[failed].mem.Length
    {
      hide AllValid, Reached, AddRow;
      var (rowId, row) := storage[rowIter];
      assert Snapshot()[rowIter] == row.State(rowId);
      ghost var toks := Toks(buffs);
      suc, failed := row.callbackSubs.AppendRowToBuffs(st, buffs, tmpRowBuff, rowId);
      ReachRow(prefix, base, toks, tableId, snap, rowIter, st, failed);
      if suc {
        ReachNext(prefix, base, Toks(buffs), tableId, snap, rowIter, failed);
      }
    }

    /** Appends the dirty rows to the buffers of their subscribers. Stops at a buffer that has no room, and can be
        resumed at the same row and client. */
    method AppendTableToBuffs(clientSt: nat, buffs: seq<RecordBuff>, resume: bool,
                              ghost prefix: seq<seq<Item>>, ghost base: seq<seq<Item>>)
      returns (suc: bool, failed: nat)
      requires AllValid(buffs) && clientSt <= |buffs| && Going(resume) && (!resume ==> clientSt == 0)
      requires Reached(prefix, base, Toks(buffs), tableId, snap, rowIter, clientSt)
      modifies this`rowIter, this`tmpRowBuff, Rows()`dirty, buffs, Mems(buffs)
      ensures AllValid(buffs) && Going(!suc) && old(rowIter) <= rowIter <= |snap|
      ensures Reached(prefix, base, Toks(buffs), tableId, snap, rowIter, if suc then 0 else failed)
      ensures suc ==> rowIter == |snap|
      ensures !suc ==> rowIter < |snap| && failed < |buffs| && failed in snap[rowIter].subs && snap[rowIter].Due()
      ensures !suc && resume && old(rowIter) == rowIter ==>
                clientSt <= failed && old(buffs[failed].offset) + 12 + |snap[rowIter].data| > buffs[failed].mem.Length
    {
      hide AllValid, Reached, CleanUpTo, Going, Valid, Snapshot;
      if resume {
        suc, failed := AppendRow(clientSt, buffs, prefix, base);
        if !suc {
          return;
        }
        NextRow();
      }
      suc, failed := AppendRest(buffs, prefix, base);
    }

    /** One row of the loop. */
    method DoRow(buffs: seq<RecordBuff>, ghost prefix: seq<seq<Item>>, ghost base: seq<seq<Item>>)
      returns (suc: bool, failed: nat)
      requires AllValid(buffs) && Going(false) && rowIter < |snap| == |storage|
      requires Reached(prefix, base, Toks(buffs), tableId, snap, rowIter, 0)
      modifies this`rowIter, this`tmpRowBuff, Rows()`dirty, buffs, Mems(buffs)
      ensures AllValid(buffs) && Going(!suc) && rowIter <= |snap|
      ensures suc ==> rowIter == old(rowIter) + 1
      ensures Reached(prefix, base, Toks(buffs), tableId, snap, rowIter, if suc then 0 else failed)
      ensures !suc ==> rowIter == old(rowIter) && failed < |buffs| && failed in snap[rowIter].subs
                       && snap[rowIter].Due()
    {
      hide AllValid, Reached, CleanUpTo, Going, Valid, Snapshot, Toks, Offsets;
      suc, failed := true, 0;
      var due := StartRow();
      if due {
        suc, failed := AppendRow(0, buffs, prefix, base);
        if !suc {
          return;
        }
      } else {
        ReachNext(prefix, base, Toks(buffs), tableId, snap, rowIter, 0);
      }
      NextRow();
    }

    /** The loop over the rows that are left. */
    method AppendRest(buffs: seq<RecordBuff>, ghost prefix: seq<seq<Item>>, ghost base: seq<seq<Item>>)
      returns (suc: bool, failed: nat)
      requires AllValid(buffs) && Going(false)
      requires Reached(prefix, base, Toks(buffs), tableId, snap, rowIter, 0)
      modifies this`rowIter, this`tmpRowBuff, Rows()`dirty, buffs, Mems(buffs)
      ensures AllValid(buffs) && Going(!suc) && old(rowIter) <= rowIter <= |snap|
      ensures Reached(prefix, base, Toks(buffs), tableId, snap, rowIter, if suc then 0 else failed)
      ensures suc ==> rowIter == |snap|
      ensures !suc ==> rowIter < |snap| && failed < |buffs| && failed in snap[rowIter].subs && snap[rowIter].Due()
    {
      assert rowIter <= |snap| == |storage|;
      hide AllValid, Reached, CleanUpTo, Going, Valid, Snapshot, Toks, Offsets;
      suc, failed := true, 0;
      while rowIter < |storage|
        invariant suc && old(rowIter) <= rowIter <= |snap| == |storage|
        invariant AllValid(buffs) && Going(false)
        invariant Reached(prefix, base, Toks(buffs), tableId, snap, rowIter, 0)
        decreases |storage| - rowIter
      {
        suc, failed := DoRow(buffs, prefix, base);
        if !suc {
          return;
        }
      }
    }
  }
}
