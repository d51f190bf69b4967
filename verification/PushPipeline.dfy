/** The push from end to end: what a client reads in the messages that a push sends it is what the abstract server
    pushes to that client. */
module PushPipeline {
  import opened PushFormat
  import opened PushRows
  import opened PushSender
  import opened Rows
  import S = ServerSpec
  import opened Codec

  /** Table ids, and the row ids of each table, are different and not negative. */
  ghost predicate Named(ps: PushServer, snaps: seq<seq<RowState>>)
    requires |snaps| == |ps.tables|
  {
    && (forall m :: 0 <= m < |snaps| ==> 0 <= ps.tables[m].tableId)
    && (forall m, n :: 0 <= m < n < |snaps| ==> ps.tables[m].tableId != ps.tables[n].tableId)
    && (forall m :: 0 <= m < |snaps| ==> RowsNamed(snaps[m]))
  }

  ghost predicate RowsNamed(snap: seq<RowState>) {
    && (forall i :: 0 <= i < |snap| ==> 0 <= snap[i].id)
    && (forall i, j :: 0 <= i < j < |snap| ==> snap[i].id != snap[j].id)
  }

  /** One stored row: its bytes are its numbers as `ser` writes them. */
  ghost predicate RowIs(ser: Row -> seq<byte>, s: S.Server, key: Key, r: RowState) {
    && r.data == ser(s.RowAt(key).vals)
    && (r.dirty <==> key in s.dirty)
    && (forall c: nat :: c in r.subs <==> (c, key) in s.subs)
  }

  ghost predicate Stored(ps: PushServer, snaps: seq<seq<RowState>>, key: Key, m: nat, i: nat)
    requires |snaps| == |ps.tables|
  {
    m < |snaps| && i < |snaps[m]| && ps.tables[m].tableId == key.table && snaps[m][i].id == key.row
  }

  /** The tables hold what the abstract server holds. Every dirty row is stored, and subscribers are clients. */
  ghost predicate Holds(ps: PushServer, snaps: seq<seq<RowState>>, ser: Row -> seq<byte>, s: S.Server) {
    && |snaps| == |ps.tables| && Named(ps, snaps)
    && (forall key, m: nat, i: nat :: Stored(ps, snaps, key, m, i) ==> RowIs(ser, s, key, snaps[m][i]))
    && (forall key :: key in s.dirty ==> exists m: nat, i: nat :: Stored(ps, snaps, key, m, i))
    && (forall w :: w in s.subs ==> 0 <= w.0)
  }

  /** The items are these rows, each once. */
  ghost predicate ItemsAre(items: seq<Item>, rows: map<Key, Cell>, ser: Row -> seq<byte>) {
    && (forall item :: item in items <==> IsRow(item, rows, ser))
    && Once(items)
  }

  ghost predicate IsRow(item: Item, rows: map<Key, Cell>, ser: Row -> seq<byte>) {
    && 0 <= item.table && 0 <= item.row && Key(item.table, item.row) in rows
    && item.data == ser(rows[Key(item.table, item.row)].vals)
  }

  ghost predicate Once(items: seq<Item>) {
    forall j, k :: 0 <= j < k < |items| ==> items[j].table != items[k].table || items[j].row != items[k].row
  }

  ghost predicate DueAt(ps: PushServer, snaps: seq<seq<RowState>>, c: nat, item: Item, m: nat, i: nat)
    requires |snaps| == |ps.tables|
  {
    && m < |snaps| && i < |snaps[m]| && snaps[m][i].dirty && c in snaps[m][i].subs
    && item == Item(ps.tables[m].tableId, snaps[m][i].id, snaps[m][i].data)
  }

  lemma {:induction false} ExpectedIff(ps: PushServer, snaps: seq<seq<RowState>>, n: nat, c: nat, item: Item)
    requires n <= |snaps| == |ps.tables|
    ensures item in ps.Expected(snaps, n, c) <==> exists m: nat, i: nat :: m < n && DueAt(ps, snaps, c, item, m, i)
  {
    hide DueItems;
    if n > 0 {
      ExpectedIff(ps, snaps, n - 1, c, item);
      var snap := snaps[n - 1];
      DueIff(ps.tables[n - 1].tableId, snap, |snap|, c, item);
      if item in DueItems(ps.tables[n - 1].tableId, snap, |snap|, c) {
        var i :| 0 <= i < |snap| && snap[i].dirty && c in snap[i].subs
          && item == Item(ps.tables[n - 1].tableId, snap[i].id, snap[i].data);
        assert DueAt(ps, snaps, c, item, n - 1, i);
      }
    }
  }

  lemma OfTable(table: int, snap: seq<RowState>, c: nat, k: nat)
    requires k < |DueItems(table, snap, |snap|, c)|
    ensures DueItems(table, snap, |snap|, c)[k].table == table
  {
    var items := DueItems(table, snap, |snap|, c);
    assert items[k] in items;
    DueIff(table, snap, |snap|, c, items[k]);
  }

  lemma {:induction false} ExpectedOnce(ps: PushServer, snaps: seq<seq<RowState>>, n: nat, c: nat, j: nat, k: nat)
    requires n <= |snaps| == |ps.tables| && Named(ps, snaps) && j < k < |ps.Expected(snaps, n, c)|
    ensures var items := ps.Expected(snaps, n, c); items[j].table != items[k].table || items[j].row != items[k].row
  {
    hide DueItems;
    var before, table, snap := ps.Expected(snaps, n - 1, c), ps.tables[n - 1].tableId, snaps[n - 1];
    if k < |before| {
      ExpectedOnce(ps, snaps, n - 1, c, j, k);
    } else if j < |before| {
      OfTable(table, snap, c, k - |before|);
      assert before[j] in before;
      ExpectedIff(ps, snaps, n - 1, c, before[j]);
      var m: nat, i: nat :| m < n - 1 && DueAt(ps, snaps, c, before[j], m, i);
      assert ps.tables[m].tableId != table;
    } else {
      assert RowsNamed(snap);
      DueOnce(table, snap, |snap|, c, j - |before|, k - |before|);
    }
  }

  /** What a client is due of all tables are the rows that the abstract server pushes to it. */
  lemma ExpectedIsPush(ps: PushServer, snaps: seq<seq<RowState>>, ser: Row -> seq<byte>, s: S.Server, c: nat)
    requires Holds(ps, snaps, ser, s)
    ensures ItemsAre(ps.Expected(snaps, |ps.tables|, c), s.PushTo(c).rows, ser)
  {
    hide PushServer.Expected, Named;
    var items := ps.Expected(snaps, |ps.tables|, c);
    forall item ensures item in items <==> IsRow(item, s.PushTo(c).rows, ser) {
      ExpectedIff(ps, snaps, |ps.tables|, c, item);
      DueIsRow(ps, snaps, ser, s, c, item);
    }
    forall j, k | 0 <= j < k < |items| ensures items[j].table != items[k].table || items[j].row != items[k].row {
      ExpectedOnce(ps, snaps, |ps.tables|, c, j, k);
    }
  }

  lemma DueIsRow(ps: PushServer, snaps: seq<seq<RowState>>, ser: Row -> seq<byte>, s: S.Server, c: nat, item: Item)
    requires Holds(ps, snaps, ser, s)
    ensures (exists m: nat, i: nat :: m < |ps.tables| && DueAt(ps, snaps, c, item, m, i))
       <==> IsRow(item, s.PushTo(c).rows, ser)
  {
    hide S.Server.RowAt;
    var rows := s.PushTo(c).rows;
    if m: nat, i: nat :| m < |ps.tables| && DueAt(ps, snaps, c, item, m, i) {
      assert Named(ps, snaps) && RowsNamed(snaps[m]);
      assert Stored(ps, snaps, Key(item.table, item.row), m, i);
    }
    if IsRow(item, rows, ser) {
      var key := Key(item.table, item.row);
      var m: nat, i: nat :| Stored(ps, snaps, key, m, i);
      assert RowIs(ser, s, key, snaps[m][i]);
      assert DueAt(ps, snaps, c, item, m, i);
    }
  }

  /** From end to end: in the messages of one push a client reads exactly the rows that the abstract server pushes to
      it, each once and in the bytes of its numbers. */
  lemma PushArrives(ps: PushServer, snaps: seq<seq<RowState>>, ser: Row -> seq<byte>, s: S.Server, c: nat,
                    was: seq<Msg>, now: seq<Msg>, isClock: bool)
    requires Holds(ps, snaps, ser, s) && ps.Pushed(was, now, isClock, ps.Expected(snaps, |ps.tables|, c))
    ensures |AllRows(was)| <= |AllRows(now)|
    ensures ItemsAre(AllRows(now)[|AllRows(was)|..], s.PushTo(c).rows, ser)
  {
    hide PushServer.Expected, AllRows;
    ExpectedIsPush(ps, snaps, ser, s, c);
    assert AllRows(now)[|AllRows(was)|..] == ps.Expected(snaps, |ps.tables|, c);
  }

  function CleanedAll(snaps: seq<seq<RowState>>): (r: seq<seq<RowState>>)
    ensures |r| == |snaps| && forall m :: 0 <= m < |r| ==> r[m] == CleanUpTo(snaps[m], |snaps[m]|)
  {
    seq(|snaps|, m requires 0 <= m < |snaps| => CleanUpTo(snaps[m], |snaps[m]|))
  }

  /** And the tables then hold what the abstract server holds after its push. */
  lemma CleanedHolds(ps: PushServer, snaps: seq<seq<RowState>>, ser: Row -> seq<byte>, s: S.Server)
    requires Holds(ps, snaps, ser, s)
    ensures Holds(ps, CleanedAll(snaps), ser, s.Cleaned())
  {
    hide S.Server.RowAt, S.Server.Cleaned;
    var after, t := CleanedAll(snaps), s.Cleaned();
    CleanedNamed(ps, snaps);
    CleanedIs(s);
    forall key, m: nat, i: nat | Stored(ps, after, key, m, i) ensures RowIs(ser, t, key, after[m][i]) {
      assert Stored(ps, snaps, key, m, i);
      assert RowIs(ser, s, key, snaps[m][i]);
      CleanedRow(ser, s, key, snaps[m][i]);
    }
    forall key | key in t.dirty ensures exists m: nat, i: nat :: Stored(ps, after, key, m, i) {
      var m: nat, i: nat :| Stored(ps, snaps, key, m, i);
      assert Stored(ps, after, key, m, i);
    }
  }

  lemma CleanedIs(s: S.Server)
    ensures s.Cleaned().subs == s.subs && s.Cleaned().dirty <= s.dirty
  {
  }

  lemma CleanedNamed(ps: PushServer, snaps: seq<seq<RowState>>)
    requires |snaps| == |ps.tables| && Named(ps, snaps)
    ensures Named(ps, CleanedAll(snaps))
  {
    forall m | 0 <= m < |snaps| ensures RowsNamed(CleanedAll(snaps)[m]) {
      assert RowsNamed(snaps[m]);
    }
  }

  lemma CleanedRow(ser: Row -> seq<byte>, s: S.Server, key: Key, r: RowState)
    requires RowIs(ser, s, key, r) && forall w :: w in s.subs ==> 0 <= w.0
    ensures RowIs(ser, s.Cleaned(), key, r.Cleaned())
  {
    if key in s.dirty && exists w :: w in s.subs && w.1 == key {
      var w :| w in s.subs && w.1 == key;
      var c: nat := w.0;
      assert c in r.subs;
    }
    if r.subs != {} {
      var c :| c in r.subs;
      assert (c, key) in s.subs;
    }
  }
}
