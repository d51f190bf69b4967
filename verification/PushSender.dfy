/** One pass over all tables fills one buffer per client; whenever a client's buffer is full, its message is sent and
    the buffer is used again. */
module PushSender {
  import opened Codec
  import opened PushFormat
  import opened RecordBuffs
  import opened PushRows

  datatype Msg = Msg(data: seq<byte>, isClock: bool)

  /** The rows that a client reads from the messages it got, in order. */
  function AllRows(ms: seq<Msg>): seq<Item> {
    if ms == [] then []
    else
      var m := ms[|ms| - 1];
      AllRows(ms[..|ms| - 1]) + if Legible(m.data) then Decode(m.data) else []
  }

  lemma AllRowsPush(ms: seq<Msg>, m: Msg)
    ensures AllRows(ms + [m]) == AllRows(ms) + if Legible(m.data) then Decode(m.data) else []
  {
    assert (ms + [m])[..|ms|] == ms;
  }

  function Delivered(sent: seq<seq<Msg>>): (s: seq<seq<Item>>)
    ensures |s| == |sent| && forall c :: 0 <= c < |s| ==> s[c] == AllRows(sent[c])
  {
    seq(|sent|, c requires 0 <= c < |sent| => AllRows(sent[c]))
  }

  /** More messages were sent, all of them readable and none of them for a clock. */
  ghost predicate More(was: seq<Msg>, now: seq<Msg>) {
    was <= now && forall i :: |was| <= i < |now| ==> Legible(now[i].data) && !now[i].isClock
  }

  ghost predicate MoreAll(was: seq<seq<Msg>>, now: seq<seq<Msg>>) {
    |was| == |now| && forall c :: 0 <= c < |was| ==> More(was[c], now[c])
  }

  /** Between two tables: everything the client is due so far was sent or is in its buffer. */
  ghost predicate BetweenAt(delivered: seq<Item>, toks: seq<GoodTok>, base: seq<Item>) {
    Sound(toks) && (After(toks) == Start || After(toks) == Fresh) && delivered + Items(toks) == base
  }

  /** One message to client c that brings `rows`; nobody else is sent anything. */
  ghost predicate SentOne(was: seq<seq<Msg>>, now: seq<seq<Msg>>, c: nat, isClock: bool, rows: seq<Item>) {
    && c < |was| == |now| && now == was[c := now[c]]
    && |now[c]| == |was[c]| + 1 && was[c] <= now[c]
    && Legible(now[c][|was[c]|].data) && now[c][|was[c]|].isClock == isClock
    && AllRows(now[c]) == AllRows(was[c]) + rows
  }

  /** Client c was sent any number of messages, none of them for a clock; nobody else is sent anything. */
  ghost predicate SentMore(was: seq<seq<Msg>>, now: seq<seq<Msg>>, c: nat) {
    c < |was| == |now| && now == was[c := now[c]] && More(was[c], now[c])
  }

  lemma OneIsMore(was: seq<seq<Msg>>, now: seq<seq<Msg>>, c: nat, rows: seq<Item>)
    requires SentOne(was, now, c, false, rows)
    ensures SentMore(was, now, c)
  {
  }

  // ---- What it means to be due ----

  /** A row is among a client's items exactly when it was dirty and the client subscribes to it. */
  lemma {:induction false} DueIff(table: int, snap: seq<RowState>, n: nat, c: nat, item: Item)
    requires n <= |snap|
    ensures item in DueItems(table, snap, n, c) <==>
            exists i ::
              0 <= i < n && snap[i].dirty && c in snap[i].subs && item == Item(table, snap[i].id, snap[i].data)
  {
    if n > 0 {
      DueIff(table, snap, n - 1, c, item);
    }
  }

  /** And it is there once: rows of one table have different ids. */
  lemma {:induction false} DueOnce(table: int, snap: seq<RowState>, n: nat, c: nat, j: nat, k: nat)
    requires n <= |snap| && forall i, l :: 0 <= i < l < |snap| ==> snap[i].id != snap[l].id
    requires j < k < |DueItems(table, snap, n, c)|
    ensures DueItems(table, snap, n, c)[j].row != DueItems(table, snap, n, c)[k].row
  {
    var before := DueItems(table, snap, n - 1, c);
    if k < |before| {
      DueOnce(table, snap, n - 1, c, j, k);
    } else {
      assert before[j] in before;
      DueIff(table, snap, n - 1, c, before[j]);
    }
  }

  class PushServer {
    const tables: seq<ServerTable>
    const buffSize: nat
    var sent: seq<seq<Msg>>

    ghost predicate Has(buff: RecordBuff)
      reads buff, buff.mem
    {
      buff.Valid() && buff.mem.Length == buffSize && 4 <= buffSize
    }

    /** Sends a whole buffer; it is zeroed and used again. */
    method SendWhole(c: nat, buff: RecordBuff, isClock: bool)
      requires Has(buff) && c < |sent|
      requires Sound(buff.toks) && buff.toks != []
      requires After(buff.toks) == Closed || buffSize < buff.offset + 4
      modifies this`sent, buff, buff.mem
      ensures Has(buff) && buff.offset == 0 && buff.toks == []
      ensures SentOne(old(sent), sent, c, isClock, old(Items(buff.toks)))
    {
      var m := Msg(buff.mem[..], isClock);
      assert buff.mem[..] == EncAll(buff.toks) + buff.mem[buff.offset..];
      DecodeEncoded(buff.toks, buff.mem[buff.offset..]);
      AllRowsPush(sent[c], m);
      hide EncAll, Decode, Legible, Items, Sound, AllRows, After;
      sent := sent[c := sent[c] + [m]];
      forall i | 0 <= i < buff.mem.Length {
        buff.mem[i] := 0;
      }
      buff.ResetOffset();
    }

    method Put(buff: RecordBuff, ghost tok: GoodTok, x: int) returns (suc: bool)
      requires Has(buff) && IsInt32(x) && Enc(tok) == Enc32(x)
      modifies buff, buff.mem
      ensures Has(buff) && suc == (old(buff.offset) + 4 <= buffSize)
      ensures buff.toks == AddTok(old(buff.toks), suc, tok)
      ensures buff.offset == old(buff.offset) + if suc then 4 else 0
    {
      suc := buff.PutInt32(tok, x);
    }

    lemma EmptyOffset(buff: RecordBuff)
      requires Has(buff) && buff.toks == []
      ensures buff.offset == 0
    {
      assert |buff.mem[..buff.offset]| == 0;
    }

    /** A table id goes first; if it does not fit, into the next message. */
    method OpenTable(c: nat, buff: RecordBuff, tableId: int, ghost base: seq<Item>)
      requires Has(buff) && c < |sent| && TokOk(Table(tableId))
      requires BetweenAt(AllRows(sent[c]), buff.toks, base)
      modifies this`sent, buff, buff.mem
      ensures Has(buff) && SentMore(old(sent), sent, c)
      ensures ReachedAt(AllRows(sent[c]), base, buff.toks, tableId, [])
    {
      if buff.toks == [] {
        EmptyOffset(buff);
      }
      BetweenTable(AllRows(sent[c]), buff.toks, base, tableId);
      FirstTable(base, tableId);
      hide Has, AllRows, Decode, Legible, Enc32, ReachedAt, Sound, Items, After;
      var suc := Put(buff, Table(tableId), tableId);
      if !suc {
        SendWhole(c, buff, false);
        OneIsMore(old(sent), sent, c, old(Items(buff.toks)));
        suc := Put(buff, Table(tableId), tableId);
        assert buff.toks == [Table(tableId)];
      }
    }

    /** A client's buffer was full inside a table: it is ended, if that fits, and the table goes on in the next. */
    method ReopenTable(c: nat, buff: RecordBuff, tableId: int, ghost base: seq<Item>, ghost due: seq<Item>)
      requires Has(buff) && c < |sent| && TokOk(Table(tableId))
      requires ReachedAt(AllRows(sent[c]), base, buff.toks, tableId, due)
      modifies this`sent, buff, buff.mem
      ensures Has(buff) && SentMore(old(sent), sent, c) && buff.offset == 4
      ensures ReachedAt(AllRows(sent[c]), base, buff.toks, tableId, due)
    {
      CloseTable(AllRows(sent[c]), base, buff.toks, tableId, due);
      FirstTable(base + due, tableId);
      ReachedSame(base, due, tableId);
      hide Has, AllRows, Decode, Legible, Enc32, ReachedAt, Sound, Items, After;
      ghost var toks := buff.toks;
      var ended := Put(buff, Tok.End, END);
      SendWhole(c, buff, false);
      OneIsMore(old(sent), sent, c, Items(AddTok(toks, ended, Tok.End)));
      ended := Put(buff, Table(tableId), tableId);
      assert buff.toks == [Table(tableId)];
    }

    lemma BetweenTable(delivered: seq<Item>, toks: seq<GoodTok>, base: seq<Item>, tableId: int)
      requires TokOk(Table(tableId)) && BetweenAt(delivered, toks, base)
      ensures ReachedAt(delivered, base, toks + [Table(tableId)], tableId, [])
      ensures Sound(toks) && delivered + Items(toks) == base && Enc(Table(tableId)) == Enc32(tableId)
    {
      Push(toks, Table(tableId));
      PushSound(toks, Table(tableId));
    }

    lemma FirstTable(base: seq<Item>, tableId: int)
      requires TokOk(Table(tableId))
      ensures ReachedAt(base, base, [Table(tableId)], tableId, [])
      ensures Enc(Table(tableId)) == Enc32(tableId)
    {
      Push([], Table(tableId));
      PushSound([], Table(tableId));
      assert [] + [Table(tableId)] == [Table(tableId)];
    }

    lemma ReachedSame(base: seq<Item>, due: seq<Item>, tableId: int)
      requires TokOk(Table(tableId)) && ReachedAt(base + due, base + due, [Table(tableId)], tableId, [])
      ensures ReachedAt(base + due, base, [Table(tableId)], tableId, due)
    {
    }

    lemma CloseTable(delivered: seq<Item>, base: seq<Item>, toks: seq<GoodTok>, tableId: int, due: seq<Item>)
      requires ReachedAt(delivered, base, toks, tableId, due)
      ensures toks != [] && Enc(Tok.End) == Enc32(END)
      ensures forall add: bool :: var t := AddTok(toks, add, Tok.End);
                Sound(t) && delivered + Items(t) == base + due && (add ==> After(t) == Closed)
    {
      Push(toks, Tok.End);
      PushSound(toks, Tok.End);
    }

    /** Another table follows: a separator, or the end of a message. */
    method Separate(c: nat, buff: RecordBuff, tableId: int, ghost base: seq<Item>, ghost due: seq<Item>)
      requires Has(buff) && c < |sent|
      requires ReachedAt(AllRows(sent[c]), base, buff.toks, tableId, due)
      modifies this`sent, buff, buff.mem
      ensures Has(buff) && SentMore(old(sent), sent, c)
      ensures BetweenAt(AllRows(sent[c]), buff.toks, base + due)
    {
      SeparateTable(AllRows(sent[c]), base, buff.toks, tableId, due);
      hide Has, AllRows, Decode, Legible, Enc32, ReachedAt, Sound, Items, After, BetweenAt;
      var suc := Put(buff, Separator, SEPARATOR);
      if !suc {
        SendWhole(c, buff, false);
        OneIsMore(old(sent), sent, c, old(Items(buff.toks)));
      }
    }

    lemma SeparateTable(delivered: seq<Item>, base: seq<Item>, toks: seq<GoodTok>, tableId: int, due: seq<Item>)
      requires ReachedAt(delivered, base, toks, tableId, due)
      ensures BetweenAt(delivered, toks + [Separator], base + due) && BetweenAt(base + due, [], base + due)
      ensures toks != [] && Sound(toks) && delivered + Items(toks) == base + due && Enc(Separator) == Enc32(SEPARATOR)
    {
      Push(toks, Separator);
      PushSound(toks, Separator);
    }

    /** Sends the used part of a buffer that was ended. */
    method SendUsed(c: nat, buff: RecordBuff, isClock: bool)
      requires Has(buff) && c < |sent|
      requires Sound(buff.toks) && buff.toks != [] && After(buff.toks) == Closed
      modifies this`sent
      ensures Has(buff) && SentOne(old(sent), sent, c, isClock, Items(buff.toks))
    {
      var m := Msg(buff.mem[..buff.offset], isClock);
      assert EncAll(buff.toks) + [] == m.data;
      DecodeEncoded(buff.toks, []);
      AllRowsPush(sent[c], m);
      hide EncAll, Decode, Legible, Items, Sound, AllRows, After;
      sent := sent[c := sent[c] + [m]];
    }

    /** The last message of a client is the one that carries the clock. */
    method Finish(c: nat, buff: RecordBuff, isClock: bool)
      requires Has(buff) && c < |sent|
      requires Sound(buff.toks) && (After(buff.toks) == Start || After(buff.toks).In?)
      modifies this`sent, buff, buff.mem
      ensures Has(buff) && SentOne(old(sent), sent, c, isClock, old(Items(buff.toks)))
    {
      if buff.toks == [] {
        EmptyOffset(buff);
      }
      FinishTable(buff.toks);
      hide Has, AllRows, Decode, Legible, Enc32, Sound, Items, After, Enc, SentOne;
      var ended := Put(buff, Tok.End, END);
      if !ended {
        SendWhole(c, buff, isClock);
      } else {
        SendUsed(c, buff, isClock);
      }
    }

    lemma FinishTable(toks: seq<GoodTok>)
      requires Sound(toks) && (After(toks) == Start || After(toks).In?)
      ensures Sound(toks + [Tok.End]) && After(toks + [Tok.End]) == Closed
      ensures Items(toks + [Tok.End]) == Items(toks) && Enc(Tok.End) == Enc32(END)
    {
      Push(toks, Tok.End);
      PushSound(toks, Tok.End);
    }

    ghost predicate AllHas(buffs: seq<RecordBuff>)
      reads buffs, Mems(buffs)
    {
      Apart(buffs) && forall c :: 0 <= c < |buffs| ==> Has(buffs[c])
    }

    /** Every client's buffer gets the table id. */
    method OpenTables(buffs: seq<RecordBuff>, tableId: int, ghost base: seq<seq<Item>>)
      requires AllHas(buffs) && |sent| == |buffs| == |base| && TokOk(Table(tableId))
      requires forall c :: 0 <= c < |buffs| ==> BetweenAt(AllRows(sent[c]), buffs[c].toks, base[c])
      modifies this`sent, buffs, Mems(buffs)
      ensures AllHas(buffs) && MoreAll(old(sent), sent)
      ensures forall c :: 0 <= c < |buffs| ==> ReachedAt(AllRows(sent[c]), base[c], buffs[c].toks, tableId, [])
    {
      hide Has, AllRows, BetweenAt, ReachedAt, More;
      ghost var was := sent;
      NoneSent(sent);
      var c := 0;
      while c < |buffs|
        invariant 0 <= c <= |buffs| == |sent| && AllHas(buffs) && MoreAll(was, sent)
        invariant forall d :: 0 <= d < c ==> ReachedAt(AllRows(sent[d]), base[d], buffs[d].toks, tableId, [])
        invariant forall d :: c <= d < |buffs| ==> BetweenAt(AllRows(sent[d]), buffs[d].toks, base[d])
      {
        ghost var before := sent;
        OpenTable(c, buffs[c], tableId, base[c]);
        MoreThen(was, before, sent, c);
        c := c + 1;
      }
    }

    lemma NoneSent(sent: seq<seq<Msg>>)
      ensures MoreAll(sent, sent)
    {
    }

    lemma MoreThen(was: seq<seq<Msg>>, before: seq<seq<Msg>>, now: seq<seq<Msg>>, c: nat)
      requires MoreAll(was, before) && SentMore(before, now, c)
      ensures MoreAll(was, now)
    {
      hide Legible;
      assert More(was[c], before[c]);
      forall d | 0 <= d < |was| ensures More(was[d], now[d]) {
      }
    }

    /** Every client's buffer gets a separator. */
    method SeparateTables(buffs: seq<RecordBuff>, tableId: int, ghost base: seq<seq<Item>>, ghost due: seq<seq<Item>>)
      requires AllHas(buffs) && |sent| == |buffs| == |base| == |due|
      requires forall c :: 0 <= c < |buffs| ==> ReachedAt(AllRows(sent[c]), base[c], buffs[c].toks, tableId, due[c])
      modifies this`sent, buffs, Mems(buffs)
      ensures AllHas(buffs) && MoreAll(old(sent), sent)
      ensures forall c :: 0 <= c < |buffs| ==> BetweenAt(AllRows(sent[c]), buffs[c].toks, base[c] + due[c])
    {
      hide Has, AllRows, BetweenAt, ReachedAt, More;
      ghost var was := sent;
      NoneSent(sent);
      var c := 0;
      while c < |buffs|
        invariant 0 <= c <= |buffs| == |sent| && AllHas(buffs) && MoreAll(was, sent)
        invariant forall d :: 0 <= d < c ==> BetweenAt(AllRows(sent[d]), buffs[d].toks, base[d] + due[d])
        invariant forall d :: c <= d < |buffs| ==> ReachedAt(AllRows(sent[d]), base[d], buffs[d].toks, tableId, due[d])
      {
        ghost var before := sent;
        Separate(c, buffs[c], tableId, base[c], due[c]);
        MoreThen(was, before, sent, c);
        c := c + 1;
      }
    }

    /** The rows of one table go out, over as many messages as it takes. */
    method SendTable(t: ServerTable, buffs: seq<RecordBuff>, ghost base: seq<seq<Item>>)
      requires AllHas(buffs) && |sent| == |buffs| == |base| && 4 <= buffSize
      requires t.Valid() && TokOk(Table(t.tableId)) && Fits(t.Snapshot())
      requires forall c :: 0 <= c < |buffs| ==> ReachedAt(AllRows(sent[c]), base[c], buffs[c].toks, t.tableId, [])
      modifies this`sent, buffs, Mems(buffs), t`rowIter, t`tmpRowBuff, t`snap, t.Rows()`dirty
      ensures AllHas(buffs) && MoreAll(old(sent), sent)
      ensures t.Valid() && t.Snapshot() == CleanUpTo(old(t.Snapshot()), |old(t.Snapshot())|)
      ensures forall c :: 0 <= c < |buffs| ==>
                ReachedAt(AllRows(sent[c]), base[c], buffs[c].toks, t.tableId,
                          DueItems(t.tableId, old(t.Snapshot()), |old(t.Snapshot())|, c))
    {
      hide Has, AllHas, AllRows, ReachedAt, More, MoreAll, Reached, ServerTable.Going, ServerTable.Valid,
           ServerTable.Snapshot, CleanUpTo, Toks, Fits, Delivered, DueItems, RowState.Due, TokOk;
      ghost var was, snap := sent, t.Snapshot();
      NoneSent(sent);
      GatherStart(buffs, t.tableId, base, snap);
      t.InitAppendTableToBuffs();
      var suc: bool, failed: nat := Fill(t, buffs, base);
      while !suc
        invariant AllHas(buffs) && |sent| == |buffs| && MoreAll(was, sent)
        invariant t.Going(!suc) && t.snap == snap && (suc ==> t.rowIter == |snap|) && t.rowIter <= |snap|
        invariant Reached(Delivered(sent), base, Toks(buffs), t.tableId, snap, t.rowIter, if suc then 0 else failed)
        invariant !suc ==> t.rowIter < |snap| && failed < |buffs| && snap[t.rowIter].Due()
        decreases !suc, |snap| - t.rowIter, |buffs| - failed
      {
        suc, failed := Retry(t, failed, buffs, base, was);
      }
      PassDone(t);
      Scatter(buffs, t.tableId, base, snap);
    }

    /** The first attempt. */
    method Fill(t: ServerTable, buffs: seq<RecordBuff>, ghost base: seq<seq<Item>>) returns (suc: bool, failed: nat)
      requires AllHas(buffs) && |sent| == |buffs| == |base| && 4 <= buffSize && t.Going(false)
      requires Reached(Delivered(sent), base, Toks(buffs), t.tableId, t.snap, t.rowIter, 0)
      modifies buffs, Mems(buffs), t`rowIter, t`tmpRowBuff, t.Rows()`dirty
      ensures AllHas(buffs) && t.Going(!suc) && t.rowIter <= |t.snap| && (suc ==> t.rowIter == |t.snap|)
      ensures Reached(Delivered(sent), base, Toks(buffs), t.tableId, t.snap, t.rowIter, if suc then 0 else failed)
      ensures !suc ==> t.rowIter < |t.snap| && failed < |buffs| && t.snap[t.rowIter].Due()
    {
      HasValid(buffs);
      hide Has, AllHas, Reached, ServerTable.Going, ServerTable.Valid, ServerTable.Snapshot, AllValid, Toks;
      suc, failed := t.AppendTableToBuffs(0, buffs, false, Delivered(sent), base);
      ValidHas(buffs);
    }

    /** After a buffer was full: send it, and go on in the same row with the same client. */
    method Retry(t: ServerTable, stopped: nat, buffs: seq<RecordBuff>, ghost base: seq<seq<Item>>,
                 ghost was: seq<seq<Msg>>) returns (suc: bool, failed: nat)
      requires AllHas(buffs) && stopped < |buffs| == |sent| && MoreAll(was, sent) && TokOk(Table(t.tableId))
      requires t.Going(true) && t.rowIter < |t.snap| && t.snap[t.rowIter].Due() && Fits(t.snap) && 4 <= buffSize
      requires Reached(Delivered(sent), base, Toks(buffs), t.tableId, t.snap, t.rowIter, stopped)
      modifies this`sent, buffs, Mems(buffs), t`rowIter, t`tmpRowBuff, t.Rows()`dirty
      ensures AllHas(buffs) && |sent| == |buffs| && MoreAll(was, sent)
      ensures t.Going(!suc) && old(t.rowIter) <= t.rowIter <= |t.snap| && (suc ==> t.rowIter == |t.snap|)
      ensures Reached(Delivered(sent), base, Toks(buffs), t.tableId, t.snap, t.rowIter, if suc then 0 else failed)
      ensures !suc ==> t.rowIter < |t.snap| && failed < |buffs| && t.snap[t.rowIter].Due()
      ensures !suc && t.rowIter == old(t.rowIter) ==> stopped < failed
    {
      hide Has, AllHas, AllRows, More, MoreAll, Reached, ServerTable.Going, ServerTable.Valid, ServerTable.Snapshot,
           AllValid, Toks;
      Resend(t, stopped, buffs, base, was);
      HasValid(buffs);
      suc, failed := t.AppendTableToBuffs(stopped, buffs, true, Delivered(sent), base);
      ValidHas(buffs);
    }

    lemma PassDone(t: ServerTable)
      requires t.Going(false) && t.rowIter == |t.snap|
      ensures t.Valid() && t.Snapshot() == CleanUpTo(t.snap, |t.snap|)
    {
    }

    lemma Gather(buffs: seq<RecordBuff>, table: int, base: seq<seq<Item>>, snap: seq<RowState>, n: nat, st: nat)
      requires |sent| == |buffs| == |base| && n <= |snap|
      requires forall c :: 0 <= c < |buffs| ==>
                 ReachedAt(AllRows(sent[c]), base[c], buffs[c].toks, table, PosItems(table, snap, n, st, c))
      ensures Reached(Delivered(sent), base, Toks(buffs), table, snap, n, st)
    {
      hide ReachedAt, AllRows, PosItems;
    }

    lemma GatherStart(buffs: seq<RecordBuff>, table: int, base: seq<seq<Item>>, snap: seq<RowState>)
      requires |sent| == |buffs| == |base|
      requires forall c :: 0 <= c < |buffs| ==> ReachedAt(AllRows(sent[c]), base[c], buffs[c].toks, table, [])
      ensures Reached(Delivered(sent), base, Toks(buffs), table, snap, 0, 0)
    {
      hide ReachedAt, AllRows;
      forall c: nat ensures PosItems(table, snap, 0, 0, c) == [] {
      }
      Gather(buffs, table, base, snap, 0, 0);
    }

    lemma Scatter(buffs: seq<RecordBuff>, table: int, base: seq<seq<Item>>, snap: seq<RowState>)
      requires |sent| == |buffs| == |base| && Reached(Delivered(sent), base, Toks(buffs), table, snap, |snap|, 0)
      ensures forall c :: 0 <= c < |buffs| ==>
                ReachedAt(AllRows(sent[c]), base[c], buffs[c].toks, table, DueItems(table, snap, |snap|, c))
    {
      hide ReachedAt, AllRows, DueItems;
      forall c | 0 <= c < |buffs|
        ensures ReachedAt(AllRows(sent[c]), base[c], buffs[c].toks, table, DueItems(table, snap, |snap|, c))
      {
        assert Toks(buffs)[c] == buffs[c].toks;
        assert PosItems(table, snap, |snap|, 0, c) == DueItems(table, snap, |snap|, c);
      }
    }

    lemma HasValid(buffs: seq<RecordBuff>)
      requires AllHas(buffs)
      ensures forall c :: 0 <= c < |buffs| ==> buffs[c].mem.Length == buffSize
      ensures AllValid(buffs)
    {
    }

    lemma ValidHas(buffs: seq<RecordBuff>)
      requires AllValid(buffs) && 4 <= buffSize && forall c :: 0 <= c < |buffs| ==> buffs[c].mem.Length == buffSize
      ensures AllHas(buffs)
    {
      hide RecordBuff.Valid;
    }

    /** Ends the message of the client whose buffer was full, and starts its next one. */
    method Resend(t: ServerTable, failed: nat, buffs: seq<RecordBuff>, ghost base: seq<seq<Item>>,
                  ghost was: seq<seq<Msg>>)
      requires AllHas(buffs) && failed < |buffs| == |sent| && MoreAll(was, sent) && TokOk(Table(t.tableId))
      requires t.Going(true) && t.rowIter <= |t.snap|
      requires Reached(Delivered(sent), base, Toks(buffs), t.tableId, t.snap, t.rowIter, failed)
      modifies this`sent, buffs[failed], buffs[failed].mem
      ensures t.Going(true) && AllHas(buffs) && |sent| == |old(sent)| && MoreAll(was, sent) && buffs[failed].offset == 4
      ensures Reached(Delivered(sent), base, Toks(buffs), t.tableId, t.snap, t.rowIter, failed)
    {
      hide Has, AllRows, ReachedAt, More, PosItems;
      ghost var before, toks := sent, Toks(buffs);
      ghost var due := PosItems(t.tableId, t.snap, t.rowIter, failed, failed);
      assert toks[failed] == buffs[failed].toks;
      ReopenTable(failed, buffs[failed], t.tableId, base[failed], due);
      MoreThen(was, before, sent, failed);
      forall c | 0 <= c < |buffs| && c != failed ensures buffs[c].toks == toks[c] && sent[c] == before[c] {
        assert buffs[c] != buffs[failed];
      }
    }

    /** The row that did not fit goes into an empty buffer. */
    predicate Fits(snap: seq<RowState>) {
      forall i :: 0 <= i < |snap| && snap[i].Due() ==> 16 + |snap[i].data| <= buffSize
    }

    // ---- All tables ----

    ghost function RowsOfTables(): set<ServerRow>
      reads tables`storage
    {
      set t, r | t in tables && r in t.Rows() :: r
    }

    ghost function SubsOfTables(): set<CallBackSubs>
      reads tables`storage
    {
      set t, r | t in tables && r in t.Subs() :: r
    }

    /** Tables are separate, and the first `n` of them have been pushed. */
    ghost predicate TablesAt(snaps: seq<seq<RowState>>, n: nat)
      reads tables, RowsOfTables(), SubsOfTables()
    {
      && |snaps| == |tables|
      && (forall i, j :: 0 <= i < j < |tables| ==> tables[i] != tables[j] && tables[i].Rows() !! tables[j].Rows())
      && (forall i {:trigger tables[i]} :: 0 <= i < |tables| ==> TableAt(tables[i], snaps[i], i < n))
    }

    ghost predicate TableAt(t: ServerTable, snap: seq<RowState>, pushed: bool)
      reads t, t.Rows(), t.Subs()
    {
      && t.Valid() && TokOk(Table(t.tableId)) && Fits(snap)
      && t.Snapshot() == if pushed then CleanUpTo(snap, |snap|) else snap
    }

    /** What client c is due of the first n tables, in order. */
    function Expected(snaps: seq<seq<RowState>>, n: nat, c: nat): seq<Item>
      requires n <= |snaps| == |tables|
    {
      if n == 0 then []
      else Expected(snaps, n - 1, c) + DueItems(tables[n - 1].tableId, snaps[n - 1], |snaps[n - 1]|, c)
    }

    /** Opens table n for everybody and sends its rows. */
    method PushTable(n: nat, t: ServerTable, buffs: seq<RecordBuff>, ghost snaps: seq<seq<RowState>>,
                     ghost base: seq<seq<Item>>)
      requires n < |tables| && t == tables[n] && TablesAt(snaps, n)
      requires AllHas(buffs) && |sent| == |buffs| == |base| && 4 <= buffSize
      requires forall c :: 0 <= c < |buffs| ==> BetweenAt(AllRows(sent[c]), buffs[c].toks, base[c])
      modifies this`sent, buffs, Mems(buffs), t`rowIter, t`tmpRowBuff, t`snap, t.Rows()`dirty
      ensures TablesAt(snaps, n + 1) && AllHas(buffs) && MoreAll(old(sent), sent)
      ensures forall c :: 0 <= c < |buffs| ==>
                ReachedAt(AllRows(sent[c]), base[c], buffs[c].toks, t.tableId,
                          DueItems(t.tableId, snaps[n], |snaps[n]|, c))
    {
      hide Has, AllRows, BetweenAt, ReachedAt, More, DueItems, CleanUpTo, Fits, AllHas, MoreAll, TokOk;
      PushOne(t, buffs, snaps[n], base);
      forall i | 0 <= i < |tables| ensures TableAt(tables[i], snaps[i], i < n + 1) {
        if i != n {
          assert tables[i] != t && tables[i].Rows() !! t.Rows();
        }
      }
    }

    method PushOne(t: ServerTable, buffs: seq<RecordBuff>, ghost snap: seq<RowState>, ghost base: seq<seq<Item>>)
      requires TableAt(t, snap, false)
      requires AllHas(buffs) && |sent| == |buffs| == |base| && 4 <= buffSize
      requires forall c :: 0 <= c < |buffs| ==> BetweenAt(AllRows(sent[c]), buffs[c].toks, base[c])
      modifies this`sent, buffs, Mems(buffs), t`rowIter, t`tmpRowBuff, t`snap, t.Rows()`dirty
      ensures TableAt(t, snap, true) && AllHas(buffs) && |sent| == |buffs| && MoreAll(old(sent), sent)
      ensures forall c :: 0 <= c < |buffs| ==>
                ReachedAt(AllRows(sent[c]), base[c], buffs[c].toks, t.tableId, DueItems(t.tableId, snap, |snap|, c))
    {
      hide Has, AllRows, BetweenAt, ReachedAt, More, DueItems, CleanUpTo, Fits, AllHas;
      ghost var was := sent;
      OpenTables(buffs, t.tableId, base);
      assert TableAt(t, snap, false);
      ghost var between := sent;
      SendTable(t, buffs, base);
      MoreTwice(was, between, sent);
    }

    lemma MoreTwice(a: seq<seq<Msg>>, b: seq<seq<Msg>>, c: seq<seq<Msg>>)
      requires MoreAll(a, b) && MoreAll(b, c)
      ensures MoreAll(a, c)
    {
      hide Legible;
      forall i | 0 <= i < |a| ensures More(a[i], c[i]) {
        assert More(a[i], b[i]) && More(b[i], c[i]);
      }
    }

    /** Ready for the last message. */
    ghost predicate Ending(delivered: seq<Item>, toks: seq<GoodTok>, due: seq<Item>) {
      Sound(toks) && (After(toks) == Start || After(toks).In?) && delivered + Items(toks) == due
    }

    /** Every client gets its last message, and that one carries the clock. */
    method FinishAll(buffs: seq<RecordBuff>, isClock: bool, ghost due: seq<seq<Item>>)
      requires AllHas(buffs) && |sent| == |buffs| == |due|
      requires forall c :: 0 <= c < |buffs| ==> Ending(AllRows(sent[c]), buffs[c].toks, due[c])
      modifies this`sent, buffs, Mems(buffs)
      ensures |sent| == |buffs|
      ensures forall c :: 0 <= c < |buffs| ==> Ended(old(sent)[c], sent[c], isClock, due[c])
    {
      hide Has, AllRows, Legible;
      ghost var was := sent;
      var c := 0;
      while c < |buffs|
        invariant 0 <= c <= |buffs| == |sent| && AllHas(buffs)
        invariant forall d :: 0 <= d < c ==> Ended(was[d], sent[d], isClock, due[d])
        invariant forall d :: c <= d < |buffs| ==> sent[d] == was[d] && Ending(AllRows(sent[d]), buffs[d].toks, due[d])
      {
        hide Sound, Items, After;
        Finish(c, buffs[c], isClock);
        c := c + 1;
      }
    }

    /** One more message, with the clock flag, after which the client has been sent `rows` in all. */
    ghost predicate Ended(was: seq<Msg>, now: seq<Msg>, isClock: bool, rows: seq<Item>) {
      && |now| == |was| + 1 && was <= now
      && Legible(now[|was|].data) && now[|was|].isClock == isClock
      && AllRows(now) == rows
    }

    /** What one push means for one client: it is sent at least one message; they can all be read, only the last one
        may carry the clock, and together they bring exactly the rows the client is due, in order. */
    ghost predicate Pushed(was: seq<Msg>, now: seq<Msg>, isClock: bool, due: seq<Item>) {
      && |was| < |now| && was <= now
      && (forall i :: |was| <= i < |now| ==>
            Legible(now[i].data) && (i < |now| - 1 ==> !now[i].isClock))
      && now[|now| - 1].isClock == isClock
      && AllRows(now) == AllRows(was) + due
    }

    /** What each client has once n tables are through. */
    function Base(was: seq<seq<Msg>>, snaps: seq<seq<RowState>>, n: nat): (s: seq<seq<Item>>)
      requires n <= |snaps| == |tables|
      ensures |s| == |was| && forall c :: 0 <= c < |s| ==> s[c] == AllRows(was[c]) + Expected(snaps, n, c)
    {
      seq(|was|, c requires 0 <= c < |was| => AllRows(was[c]) + Expected(snaps, n, c))
    }

    function Dues(clients: nat, t: int, snap: seq<RowState>): (s: seq<seq<Item>>)
      ensures |s| == clients && forall c :: 0 <= c < |s| ==> s[c] == DueItems(t, snap, |snap|, c)
    {
      seq(clients, c requires 0 <= c < clients => DueItems(t, snap, |snap|, c))
    }

    lemma BaseNext(was: seq<seq<Msg>>, snaps: seq<seq<RowState>>, n: nat, c: nat)
      requires n < |snaps| == |tables| && c < |was|
      ensures Base(was, snaps, n + 1)[c]
           == Base(was, snaps, n)[c] + DueItems(tables[n].tableId, snaps[n], |snaps[n]|, c)
    {
      hide AllRows, DueItems;
    }

    /** One buffer per client. */
    method CreateBuffs(numClients: nat) returns (buffs: seq<RecordBuff>)
      requires 4 <= buffSize
      ensures |buffs| == numClients && AllHas(buffs) && fresh(buffs) && fresh(Mems(buffs))
      ensures forall c :: 0 <= c < |buffs| ==> buffs[c].toks == []
    {
      hide RecordBuff.Valid;
      buffs := [];
      while |buffs| < numClients
        invariant |buffs| <= numClients && AllHas(buffs) && fresh(buffs) && fresh(Mems(buffs))
        invariant forall c :: 0 <= c < |buffs| ==> buffs[c].toks == []
      {
        var buff := new RecordBuff(buffSize);
        assert Mems(buffs + [buff]) == Mems(buffs) + {buff.mem};
        buffs := buffs + [buff];
      }
    }

    /** Opens a table, sends its rows, and separates it from the next one, if there is one. */
    method PushAndSeparate(n: nat, t: ServerTable, buffs: seq<RecordBuff>, ghost snaps: seq<seq<RowState>>,
                           ghost was: seq<seq<Msg>>)
      requires n + 1 < |tables| && t == tables[n] && TablesAt(snaps, n)
      requires AllHas(buffs) && |was| == |buffs| && 4 <= buffSize && MoreAll(was, sent)
      requires forall c :: 0 <= c < |buffs| ==> BetweenAt(AllRows(sent[c]), buffs[c].toks, Base(was, snaps, n)[c])
      modifies this`sent, buffs, Mems(buffs), t`rowIter, t`tmpRowBuff, t`snap, t.Rows()`dirty
      ensures TablesAt(snaps, n + 1) && AllHas(buffs) && MoreAll(was, sent)
      ensures forall c :: 0 <= c < |buffs| ==>
                BetweenAt(AllRows(sent[c]), buffs[c].toks, Base(was, snaps, n + 1)[c])
    {
      hide Has, AllHas, AllRows, BetweenAt, ReachedAt, More, DueItems, Base;
      ghost var before := sent;
      ghost var base, due := Base(was, snaps, n), Dues(|buffs|, t.tableId, snaps[n]);
      PushTable(n, t, buffs, snaps, base);
      MoreTwice(was, before, sent);
      before := sent;
      SeparateKeeping(n + 1, t.tableId, buffs, snaps, base, due);
      MoreTwice(was, before, sent);
      forall c | 0 <= c < |buffs| ensures Base(was, snaps, n + 1)[c] == base[c] + due[c] {
        BaseNext(was, snaps, n, c);
      }
    }

    method SeparateKeeping(n: nat, tableId: int, buffs: seq<RecordBuff>, ghost snaps: seq<seq<RowState>>,
                           ghost base: seq<seq<Item>>, ghost due: seq<seq<Item>>)
      requires TablesAt(snaps, n) && AllHas(buffs) && |sent| == |buffs| == |base| == |due|
      requires forall c :: 0 <= c < |buffs| ==> ReachedAt(AllRows(sent[c]), base[c], buffs[c].toks, tableId, due[c])
      modifies this`sent, buffs, Mems(buffs)
      ensures TablesAt(snaps, n) && AllHas(buffs) && MoreAll(old(sent), sent)
      ensures forall c :: 0 <= c < |buffs| ==> BetweenAt(AllRows(sent[c]), buffs[c].toks, base[c] + due[c])
    {
      hide Has, AllHas, AllRows, BetweenAt, ReachedAt, More, MoreAll;
      SeparateTables(buffs, tableId, base, due);
    }

    /** The last table is not followed by a separator. */
    method PushLast(n: nat, t: ServerTable, buffs: seq<RecordBuff>, ghost snaps: seq<seq<RowState>>,
                    ghost was: seq<seq<Msg>>)
      requires n + 1 == |tables| && t == tables[n] && TablesAt(snaps, n)
      requires AllHas(buffs) && |was| == |buffs| && 4 <= buffSize && MoreAll(was, sent)
      requires forall c :: 0 <= c < |buffs| ==> BetweenAt(AllRows(sent[c]), buffs[c].toks, Base(was, snaps, n)[c])
      modifies this`sent, buffs, Mems(buffs), t`rowIter, t`tmpRowBuff, t`snap, t.Rows()`dirty
      ensures TablesAt(snaps, n + 1) && AllHas(buffs) && MoreAll(was, sent)
      ensures forall c :: 0 <= c < |buffs| ==>
                Ending(AllRows(sent[c]), buffs[c].toks, Base(was, snaps, n + 1)[c])
    {
      hide Has, AllHas, AllRows, BetweenAt, ReachedAt, More, DueItems, Base, Ending;
      ghost var before := sent;
      ghost var base, due := Base(was, snaps, n), Dues(|buffs|, t.tableId, snaps[n]);
      PushTable(n, t, buffs, snaps, base);
      MoreTwice(was, before, sent);
      forall c | 0 <= c < |buffs| ensures Ending(AllRows(sent[c]), buffs[c].toks, Base(was, snaps, n + 1)[c]) {
        BaseNext(was, snaps, n, c);
        LastTable(AllRows(sent[c]), base[c], buffs[c].toks, t.tableId, due[c]);
      }
    }

    lemma LastTable(delivered: seq<Item>, base: seq<Item>, toks: seq<GoodTok>, tableId: int, due: seq<Item>)
      requires ReachedAt(delivered, base, toks, tableId, due)
      ensures Ending(delivered, toks, base + due)
    {
    }

    method FinishKeeping(buffs: seq<RecordBuff>, isClock: bool, ghost snaps: seq<seq<RowState>>,
                         ghost was: seq<seq<Msg>>)
      requires TablesAt(snaps, |tables|) && AllHas(buffs) && |was| == |buffs| && MoreAll(was, sent)
      requires forall c :: 0 <= c < |buffs| ==>
                 Ending(AllRows(sent[c]), buffs[c].toks, Base(was, snaps, |tables|)[c])
      modifies this`sent, buffs, Mems(buffs)
      ensures TablesAt(snaps, |tables|) && |sent| == |buffs|
      ensures forall c :: 0 <= c < |buffs| ==> Pushed(was[c], sent[c], isClock, Expected(snaps, |tables|, c))
    {
      hide Has, AllHas, AllRows, More, Ending, Ended, Expected;
      ghost var before := sent;
      FinishAll(buffs, isClock, Base(was, snaps, |tables|));
      forall c | 0 <= c < |buffs| ensures Pushed(was[c], sent[c], isClock, Expected(snaps, |tables|, c)) {
        assert More(was[c], before[c]) && Ended(before[c], sent[c], isClock, Base(was, snaps, |tables|)[c]);
        EndedIsPushed(was[c], before[c], sent[c], isClock, Expected(snaps, |tables|, c));
      }
    }

    lemma EndedIsPushed(was: seq<Msg>, before: seq<Msg>, now: seq<Msg>, isClock: bool, due: seq<Item>)
      requires More(was, before) && Ended(before, now, isClock, AllRows(was) + due)
      ensures Pushed(was, now, isClock, due)
    {
    }

    /** Pushes every dirty row that has subscribers to each of them: each client reads, in the messages it is sent, the
        rows that it subscribes to and that were dirty, each once, under its own table, in order; and afterwards every
        row that anybody subscribes to is clean. */
    method CreateSendServerPushRowMsgs(numClients: nat, numTables: nat, clockChanged: bool,
                                       ghost snaps: seq<seq<RowState>>)
      requires |sent| == numClients && numTables == |tables| && 4 <= buffSize && TablesAt(snaps, 0)
      modifies this`sent, tables`rowIter, tables`tmpRowBuff, tables`snap, RowsOfTables()`dirty
      ensures |sent| == numClients && TablesAt(snaps, |tables|)
      ensures forall c :: 0 <= c < numClients ==>
                Pushed(old(sent)[c], sent[c], clockChanged, Expected(snaps, |tables|, c))
    {
      hide AllHas, AllRows, BetweenAt, More, Ending, Pushed, Expected, TablesAt;
      var buffs := StartBuffs(numClients, snaps);
      ghost var was := sent;
      NoneSent(sent);
      Begin(buffs, snaps);
      var numTablesLeft := numTables;
      var n := 0;
      while n < |tables|
        invariant 0 <= n && (n < |tables| || |tables| == 0) && numTablesLeft == |tables| - n
        invariant |sent| == numClients && TablesAt(snaps, n) && AllHas(buffs) && MoreAll(was, sent)
        invariant n < |tables| ==> forall c :: 0 <= c < |buffs| ==>
                    BetweenAt(AllRows(sent[c]), buffs[c].toks, Base(was, snaps, n)[c])
        invariant |tables| == 0 ==> forall c :: 0 <= c < |buffs| ==>
                    Ending(AllRows(sent[c]), buffs[c].toks, Base(was, snaps, n)[c])
      {
        numTablesLeft := numTablesLeft - 1;
        if numTablesLeft > 0 {
          RowsIn(tables[n]);
          PushAndSeparate(n, tables[n], buffs, snaps, was);
        } else {
          RowsIn(tables[n]);
          PushLast(n, tables[n], buffs, snaps, was);
          break;
        }
        n := n + 1;
      }
      FinishKeeping(buffs, clockChanged, snaps, was);
    }

    lemma RowsIn(t: ServerTable)
      requires t in tables
      ensures t.Rows() <= RowsOfTables()
    {
    }

    method StartBuffs(numClients: nat, ghost snaps: seq<seq<RowState>>) returns (buffs: seq<RecordBuff>)
      requires TablesAt(snaps, 0) && 4 <= buffSize
      ensures TablesAt(snaps, 0) && |snaps| == |tables|
      ensures |buffs| == numClients && AllHas(buffs) && fresh(buffs) && fresh(Mems(buffs))
      ensures forall c :: 0 <= c < |buffs| ==> buffs[c].toks == []
    {
      hide AllHas, Fits, CleanUpTo;
      buffs := CreateBuffs(numClients);
    }

    lemma Begin(buffs: seq<RecordBuff>, snaps: seq<seq<RowState>>)
      requires |sent| == |buffs| && |snaps| == |tables| && forall c :: 0 <= c < |buffs| ==> buffs[c].toks == []
      ensures forall c :: 0 <= c < |buffs| ==> BetweenAt(AllRows(sent[c]), buffs[c].toks, Base(sent, snaps, 0)[c])
      ensures forall c :: 0 <= c < |buffs| ==> Ending(AllRows(sent[c]), buffs[c].toks, Base(sent, snaps, 0)[c])
    {
    }
  }
}
